# pyGB emulator core in Dafny

This project models the core of pyGB, a Game Boy emulator written in Python. The model covers:

- the device leaf: a stub device that reads 0, and a read-only ROM;
- the cartridge registry, and construction of a cartridge from ROM bytes;
- the MBC1 bank controller: four masked control registers, a ROM-bank list with aliased slots, and four 8 KiB RAM banks;
- the bus address translator, with its boot-overlay flag;
- the CPU step gate (`execute_instr`) and its two opcode dispatch tables.

Files:

- `errors.dfy` (module `Errors`): the Python exceptions the core raises (`KeyError`, `IndexError`, `TypeError`, `ValueError`, `RegistrationError`). Also `Result`/`Outcome` wrappers that return an exception instead of unwinding.
- `mem.dfy` (module `Mem`): `DummyMem` and `Rom` as immutable values. Python indexing, negative indexes included, is `PyIndex`.
- `cartridge.dfy` (module `Cartridge`):
  - the registry is a `Registry` class whose `Register` loop is specified by the function `RegisterAll`;
  - construction dispatch is `NewKind` / `NewCartridge`;
  - the image-to-bank layout is the pure functions `Chunks`, `ChunkBank`, `SlotChunk` and `ImageRead`;
  - the registers are a value `Registers` with `RomBank`, `RamBank` and `ControlWrite`;
  - the controller is the class `Mbc1`, with a `Valid()` invariant, a `Read` function and a `Write` method;
  - `Cart` is the cartridge the bus holds: the stub, or an `Mbc1`.
- `mmu.dfy` (module `Mmu`):
  - the range split is the pure function `Translate`, and the boot flag is `BootFlagAfter`;
  - the class `Mmu` holds work RAM and high RAM as arrays, the four host devices, the cartridge and the flag;
  - `AddrTrans` and `Read` are methods that may clear the flag.
- `cpu.dfy` (module `Cpu`):
  - the tables `Ops` and `ExtOps` are pure functions from opcode to a handler tag, laid out on the 16 x 16 opcode grid;
  - the extended table is proved equal to a bit-field reference decode (`ExtReference`) for every byte;
  - in the main table, the quarters 0x40..0x7F (register loads) and 0x80..0xBF (ALU operations, `AluHandler`) are proved against a bit-field decode, and the twelve opcodes bound to `ill` are characterised exactly. The quarters 0x00..0x3F and 0xC0..0xFF are pinned only by the listed entries of `Cpu.TableEntries` and `Cpu.UnlistedOpcodes`;
  - the class `Cpu` holds the register file and flags, and `ExecuteInstr` is proved against the pure `StepOutcome`.

Python's `v & 0xF`, `v & 0x1F`, `v & 0x3` and `v & 0x1` on an integer are written `v % 16`, `v % 32`, `v % 4` and `v % 2`. With a mask of the form 2^k - 1 these agree for every integer, negative ones included. `rom_select | (bankset_select << 5)` is computed on `bv7` and proved equal to `rom_select + 32 * bankset_select`.

## Behaviour as written

Where the code departs from the Game Boy's documented behaviour, or from its own comments and tests, the model follows the code:

- 0xE000..0xEFFF translates to work RAM at `addr - 0xC000` (gb/mmu.py:46-47). That is offset 0x2000..0x2FFF in a 0x2000-byte `bytearray`, so a bus read there raises IndexError (`Mmu.WorkRamWindows`). 0xF000..0xFDFF uses `addr - 0xF000` (gb/mmu.py:52-53).
- Object memory is the whole page 0xFE00..0xFEFF (gb/mmu.py:55-56), not just 0xFE00..0xFE9F.
- The header check is `len < 0x147` (gb/cartridge.py:79), but the type byte is read at index 0x147 (gb/cartridge.py:83). A 0x147-byte image passes the check and then raises IndexError, not ValueError (`Cartridge.NewKindCases`).
- No device accepts a write: `DummyMem` spells the method `__setitem` (gb/mem.py:4). Item assignment raises TypeError instead of being discarded (`Mem.DevicesAreReadOnly`).
- The bank list has `max(chunks, 125) + 3` slots, which is 128 only for images of at most 125 chunks (`Cartridge.SlotLayout`).
- Because of the three inserted aliases, slot `s` holds image chunk `s - s/32`, not chunk `s`. The tests build their image without chunks 32, 64 and 96 for this reason.
- The main table maps 0x76 to `halt` directly (gb/cpu.py:25). Inside the register-to-register block, 0x50..0x53 are `dec8`, because the later entry of the dictionary display wins (gb/cpu.py:95).
- 0xF2 is bound to `ill` (gb/cpu.py:143), although on the Game Boy CPU it is the load of A from (0xFF00 + C), the read counterpart of 0xE2, which gb/cpu.py:77 binds to `ldh_c` (`Cpu.IllegalOpcodes`).
- In the extended table, 0x10..0x1F are bound to `rlc` and `rrc` again (gb/cpu.py:153-157), although the code's own comments call those rows "rotate left" and "rotate right" (gb/cpu.py:152, 155). On the Game Boy CPU they are the rotates through carry (`Cpu.ExtTableIsStructural`).
- The table entry for 0xDC is the bare name `callc` (gb/cpu.py:134). It is modelled as the tag `CallC`, like the other conditional calls.

Three places of the code cannot run as written; there the model departs from the code, and "## Left out" says what that costs: the blank-bank padding of the MBC1 constructor, `Cpu.__init__`, and `Cartridge(b"")` for an empty image.

## Model

| member | source | states |
|---|---|---|
| Mem.PyIndex | gb/mem.py:13 | indexing succeeds exactly for `-len <= i < len` and returns `s[i]`, or `s[len + i]` for a negative index; every failure is an IndexError |
| Mem.Read | gb/mem.py:1-13 | the stub reads 0; a ROM read succeeds exactly at Python-valid indexes; the only error is a ROM's IndexError |
| Mem.Write | gb/mem.py:4-5 | item assignment on any device raises TypeError |
| Mem.NewRom | gb/mem.py:9-10 | the ROM holds its own copy of the data: same length, same bytes |
| Mem.DummyReadsZero | gb/mem.py:1-3 | the stub device reads 0 at every address |
| Mem.RomRead | gb/mem.py:12-13 | a ROM read succeeds exactly at Python-valid indexes, returns the byte the ROM was built with, and counts a negative index back from the end; failures are IndexError |
| Mem.DevicesAreReadOnly | gb/mem.py:4-5 | every item assignment on a device raises TypeError, so device contents never change |
| Cartridge.RegisterAll | gb/cartridge.py:28-35 | registration ends normally or with a RegistrationError naming one of the ids, and that id is present in the resulting registry |
| Cartridge.RegisterKeepsEntries | gb/cartridge.py:28-35 | registration never overwrites an existing entry, and every entry it adds maps one of the ids to the class |
| Cartridge.RegisterSucceedsIff | gb/cartridge.py:28-35 | registration succeeds iff no id is already registered and no id repeats an earlier one |
| Cartridge.RegisterStopsAtFirstClash | gb/cartridge.py:28-35 | up to the first clash every id is mapped to the class and earlier entries are kept; the clash fails with RegistrationError naming that id |
| Cartridge.RegistrationExamples | test/test_cartridge.py:35-52 | a second class claiming id 0 fails and leaves id 0 with the first class; fresh ids 1 and 2 are mapped |
| Cartridge.Registry.constructor | gb/cartridge.py:24-27 | a base class starts with an empty registry |
| Cartridge.Registry.Register | gb/cartridge.py:28-35 | the loop leaves the registry and outcome that `RegisterAll` describes |
| Cartridge.DefaultRegistration | gb/cartridge.py:107 | registering MBC1's ids 1, 2, 3 into the empty registry succeeds and gives exactly {1, 2, 3} to MBC1 |
| Cartridge.DefineCartridgeClasses | gb/cartridge.py:22-37 | defining the module's classes succeeds and leaves the module registry |
| Cartridge.NewKind | gb/cartridge.py:72-88 | a class is chosen only for empty bytes (stub) or for a type byte at 0x147 that is registered (its class); every error is ValueError(too short), IndexError or ValueError(unsupported) |
| Cartridge.NewKindCases | gb/cartridge.py:72-88 | empty gives the stub; shorter than 0x147 gives ValueError; exactly 0x147 bytes gives IndexError; a longer image gives MBC1 iff its type byte is 1, 2 or 3, and ValueError otherwise |
| Cartridge.Chunks | gb/cartridge.py:127-128 | ceil(n / 0x4000) slices, none empty, all full 16 KiB except possibly the last |
| Cartridge.ChunksRoundTrip | gb/cartridge.py:127-128 | concatenating the slices gives back the image |
| Cartridge.ChunkBankRead | gb/cartridge.py:127-130 | reading a bank built for chunk k at an offset gives the image byte, IndexError past a short last chunk, or 0 in padding |
| Cartridge.InsertAt | gb/cartridge.py:133-135 | `list.insert`: the new element at i, earlier elements unmoved, later ones shifted by one |
| Cartridge.PaddedBanks | gb/cartridge.py:129-130 | the slices followed by blank padding are the chunk banks, position by position |
| Cartridge.AliasLayout | gb/cartridge.py:133-135 | after inserting bank 0 at 32, 64 and 96, slot s holds padded bank `SlotChunk(s)` |
| Cartridge.BuildRomBanks | gb/cartridge.py:127-135 | the bank list has `max(chunks, 125) + 3` slots and slot s holds chunk `SlotChunk(s)` |
| Cartridge.NewRamBank | gb/cartridge.py:136 | a fresh 8192-byte bank of zeros |
| Cartridge.Mbc1.constructor | gb/cartridge.py:109-136 | registers 0, 1, 0, 0; bank layout of the image; slots 32/64/96 alias slot 0; four fresh, distinct, zeroed 8 KiB RAM banks |
| Cartridge.RomBank | gb/cartridge.py:146-154 | below 128, never a multiple of 32, low five bits `rom_select`; `rom_select + 32*bankset` in mode 0, `rom_select` in mode 1 |
| Cartridge.OrIsDisjointSum | gb/cartridge.py:153 | the OR of a 5-bit value and a 2-bit value shifted by 5 is their sum |
| Cartridge.RamBank | gb/cartridge.py:156-163 | below 4; `bankset_select` in mode 1, 0 in mode 0 |
| Cartridge.BanksetServesOneWindow | gb/cartridge.py:146-163 | in mode 0 the bankset register moves only the ROM bank, in mode 1 only the RAM bank, and each change of it is visible in that window |
| Cartridge.ControlWrite | gb/cartridge.py:180-189 | a control write keeps every register within its mask and `rom_select` nonzero |
| Cartridge.ControlWriteWindows | gb/cartridge.py:180-189 | each window sets its own register to the masked value (0 becoming 1 for `rom_select`) and leaves the other three unchanged |
| Cartridge.ControlWriteIdempotent | gb/cartridge.py:180-189 | writing the same value to the same address twice equals writing it once |
| Cartridge.ModeSwitchKeepsSelections | gb/cartridge.py:188-189 | switching to RAM banking mode and back restores every register |
| Cartridge.ControlWriteExamples | test/test_cartridge.py:171-200 | the 18 literal writes of the register table give the listed four register values |
| Cartridge.WriteOutcome | gb/cartridge.py:177-191 | a write fails iff the address is outside 0..0x9FFF, or RAM is enabled and a non-byte is stored into it |
| Cartridge.Mbc1.FixedBank | gb/cartridge.py:138-144 | the fixed bank is the bank that slots 32, 64 and 96 hold |
| Cartridge.Mbc1.Read | gb/cartridge.py:165-175 | KeyError iff the address is outside 0..0x9FFF; the only other error is IndexError; the RAM window reads the selected RAM bank when `ram_enable == 0xA`, and 0 otherwise |
| Cartridge.Mbc1.Write | gb/cartridge.py:177-191 | keeps `Valid()` and the bank lists; the control window updates the registers by `ControlWrite`; the RAM window changes exactly one byte of the selected bank when enabled and the value is a byte; nothing else changes |
| Cartridge.SlotLayout | gb/cartridge.py:127-135 | 128 slots for at most 125 chunks; slots 32, 64, 96 are slot 0; any other slot s below 128 holds chunk `s - s/32` |
| Cartridge.FixedWindowRead | gb/cartridge.py:168-169 | 0x0000..0x3FFF reads chunk 0 of the image at `addr` |
| Cartridge.SwitchableWindowRead | gb/cartridge.py:170-171 | 0x4000..0x7FFF reads chunk `n - n/32` of the image at `addr - 0x4000`, where n is the selected bank, which is never a multiple of 32 |
| Cartridge.CartRead | gb/cartridge.py:98-99 | the stub reads 0 everywhere; a KeyError comes only from the MBC1 outside 0..0x9FFF |
| Cartridge.CartWrite | gb/cartridge.py:101-102 | the stub accepts every write and changes nothing; for the MBC1 the outcome is `WriteOutcome`, the registers change as `ControlWrite` says in 0..0x7FFF, exactly the addressed byte of the selected RAM bank changes when enabled RAM stores a byte, and the bank lists stay the same |
| Cartridge.NewCartridge | gb/cartridge.py:63-90 | fails exactly when `NewKind` does, with its error; otherwise the stub, or a fresh valid MBC1 holding the image with initial registers and four fresh, zeroed RAM banks |
| Mmu.Translate | gb/mmu.py:19-62 | KeyError iff outside 0..0xFFFF; the address map range by range, with device and offset for each range and for both values of the boot flag |
| Mmu.BootFlagAfter | gb/mmu.py:25-32 | translating clears the boot flag iff the address is exactly 0x0100, and never sets it |
| Mmu.BootFlagOverRun | gb/mmu.py:25-32 | after any sequence of translations the flag is on iff it was on and 0x0100 was never translated |
| Mmu.OffsetsFitDevices | gb/mmu.py:40-62 | offsets are non-negative and inside their device, except that 0xE000..0xEFFF overruns work RAM; cartridge offsets stay within 0..0x9FFF; 0xA000..0xBFFF lands in the cartridge's 0x8000..0x9FFF window |
| Mmu.WindowExamples | test/test_mmu.py:14-111 | the boundary probes of the tests reach the devices the tests expect |
| Mmu.Mmu.constructor | gb/mmu.py:6-17 | the given devices, fresh zeroed 0x2000-byte work RAM and 0x80-byte high RAM, the stub cartridge, boot overlay on |
| Mmu.Mmu.AddrTrans | gb/mmu.py:19-62 | returns `Translate` for the current flag and leaves the flag as `BootFlagAfter` says |
| Mmu.Mmu.ReadAt | gb/mmu.py:64-66 | an address outside the bus raises KeyError; the only errors are KeyError and IndexError |
| Mmu.Mmu.Read | gb/mmu.py:64-66 | returns the translated device's byte at the translated offset (or the error) and updates only the boot flag |
| Mmu.Mmu.LoadCartridge | gb/mmu.py:80-81 | the bus now holds the given cartridge |
| Mmu.Mmu.UnloadCartridge | gb/mmu.py:83-84 | the bus holds the stub cartridge, whatever the argument |
| Mmu.NoKeyErrorInsideAddressSpace | gb/mmu.py:64-66 | a bus read at any address in 0..0xFFFF never raises KeyError |
| Mmu.BiosOverlay | gb/mmu.py:25-32 | 0x0000..0x00FF reads the boot ROM while the overlay is on and the cartridge after |
| Mmu.StubCartridgeReadsZero | gb/mmu.py:15 | with the default stub cartridge every cartridge address reads 0 |
| Mmu.WorkRamWindows | gb/mmu.py:46-62 | 0xC000..0xDFFF and 0xF000..0xFDFF read work RAM; 0xE000..0xEFFF raises IndexError; 0xFF80..0xFFFF reads high RAM |
| Cpu.InitialRegisterFile | gb/cpu.py:16 | register codes 0..5 and 7, all 0, with no entry for code 6 |
| Cpu.ExtTableIsStructural | gb/cpu.py:147-220 | the extended table has an entry exactly for each byte, equal to the bit-field decode (rlc/rrc twice, sla, sra, swap, srl, then bit, res, set) |
| Cpu.TableEntries | gb/cpu.py:23-47 | 0x00 nop, 0x10 stop, 0x76 halt, 0xCB ext, 0x36 load_imm, the seven other column-6/E loads load8_imm |
| Cpu.RegisterLoadBlock | gb/cpu.py:49-96 | opcode 0x40 + 8*dst + src is halt for (6, 6), dec8 for 0x50..0x53, load8_reg otherwise |
| Cpu.AluBlock | gb/cpu.py:98-120 | 0x80..0xBF is the ALU operation chosen by bits 5..3 |
| Cpu.IllegalOpcodes | gb/cpu.py:143-145 | exactly the twelve opcodes gb/cpu.py:143-145 bind to `ill` map to ill |
| Cpu.UnlistedOpcodes | gb/cpu.py:23-146 | 0xC3, 0x09, 0x05, 0x15, 0x25, 0x35, 0xE8, 0xE9 have no entry |
| Cpu.Ops | gb/cpu.py:23-146 | only byte opcodes have an entry; the entries themselves are stated by `Cpu.TableEntries`, `Cpu.RegisterLoadBlock`, `Cpu.AluBlock`, `Cpu.IllegalOpcodes` and `Cpu.UnlistedOpcodes` |
| Cpu.ExtOps | gb/cpu.py:147-220 | only byte opcodes have an entry; `Cpu.ExtTableIsStructural` states every entry |
| Cpu.StepOutcome | gb/cpu.py:223-231 | the step is parked exactly when the CPU is stopped, or halted with interrupts on; a dispatch is the fetched opcode's table entry; a raise is a failed fetch or a missing entry; pc moves only after a successful fetch when not halted, and stays within 16 bits |
| Cpu.Dispatch | gb/cpu.py:231 | the handler is called iff the table has an entry for the opcode; otherwise KeyError |
| Cpu.StepCases | gb/cpu.py:223-231 | parked: no move and no dispatch; failed fetch: the error, pc unchanged; otherwise dispatch, with pc one on (0xFFFF wrapping to 0) or unchanged when halted |
| Cpu.Cpu.constructor | gb/cpu.py:10-21 | pc, sp, f 0; the initial register file; not stopped, not halted, interrupts off |
| Cpu.Cpu.ExecuteInstr | gb/cpu.py:223-231 | the step and new pc are `StepOutcome` of the old state and the bus byte at pc; the boot flag changes only through that one fetch, and not at all when parked |

## Left out

- `load_rom_from_file` (gb/cartridge.py:193-197): file input.
- The `six` metaclass and `Cartridge.__new__` plumbing (gb/cartridge.py:40-61). Construction is `NewKind` plus `NewCartridge`; the registry is an explicit map.
- Cartridge.NewCartridge: for an empty image, `Cartridge(b"")` builds a `DummyCartridge` in `__new__`, and Python then calls `DummyCartridge.__init__` with the bytes, which takes none (gb/cartridge.py:95), so it raises TypeError. Only the argument-less `Cartridge()` the bus uses (gb/mmu.py:15, 84) returns the stub. The model returns the stub for the empty image, and does not model that TypeError.
- `Mmu.__setitem__` (gb/mmu.py:68-69): it indexes the returned `(device, offset)` tuple, so there is no working bus write to state.
- `Mmu.reset` (gb/mmu.py:71-78): it clears host-supplied devices and a nonexistent `cartridge.eram`.
- The instruction handlers: none of the methods the tables bind are defined in gb/cpu.py. Each is a tag, and a dispatch is the step result `Dispatched(opcode, handler)`.
- GBmmu.py, GBcartridge.py and setup.py: the older copies and packaging are not part of this model.
- Object identity: slots 32, 64 and 96 hold the same `Rom` object as slot 0. The model compares device values, which cannot be told apart because ROMs never change.
- Dynamic typing: addresses and values are integers. A non-integer operand, and the TypeError it would raise, is not modelled.
- Host devices: the bus's boot ROM, video RAM, object memory and I/O are `Mem` devices, the stub or a ROM. The source accepts any object with `__getitem__`.
- Direct attribute assignment, as the tests do with `cart.rom_select = ...`: registers change only through `Write`.
- Cartridge.NewCartridge / Cartridge.BuildRomBanks: padding calls `Rom()` with no argument (gb/cartridge.py:130), which raises TypeError because `Rom.__init__` requires `data` (gb/mem.py:9). As written, every MBC1 image of fewer than 125 chunks therefore fails to construct, including the 1-chunk and 47-chunk images of test/test_cartridge.py. The model pads with zero-filled 16 KiB blank banks (`BLANK_BANK`), which is what the padding and the tests evidently intend, so `NewCartridge` returns a valid MBC1 for these images. The TypeError is not modelled.
- Cpu.Cpu.constructor: `Cpu.__init__` as written cannot finish. None of the handler methods it binds exist, and `callc` is an unbound name (gb/cpu.py:134), so construction raises AttributeError or NameError. It also builds the table in a local `ops`, while `execute_instr` reads `self.ops` (gb/cpu.py:23, 231). The model builds the initial state that precedes the table, and `ExecuteInstr` dispatches through the table literal. The failure of construction is not modelled.
- Mmu.Mmu.LoadCartridge: requires a well-formed cartridge, as `NewCartridge` returns; the source accepts any object.
