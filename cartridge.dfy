/** Cartridges: the registry from cartridge-type byte to cartridge class, the
    construction of a cartridge from ROM bytes, the stub cartridge, and the
    MBC1 bank controller. */
module Cartridge {
  import opened Errors
  import opened Mem

  /** Offset of the cartridge-type byte in the ROM header. */
  const ROM_TYPE_BYTE := 0x147
  const ROM_BANK_SIZE := 0x4000
  const RAM_BANK_SIZE := 8192
  const RAM_BANK_COUNT := 4
  /** The bank list is padded to this length before bank 0 is inserted three more times. */
  const PADDED_BANK_COUNT := 125

  function Min(a: int, b: int): int { if a <= b then a else b }
  function Max(a: int, b: int): int { if a <= b then b else a }

  // ------------------------------------------------------------------
  // Registry
  // ------------------------------------------------------------------

  /** The cartridge classes of the module. */
  datatype Kind = DummyKind | Mbc1Kind

  /** The `ids` of the MBC1 class; no other class of the module declares `ids`. */
  const MBC1_IDS: seq<int> := [0x1, 0x2, 0x3]

  /** What registering class `cls` with `ids` does to registry `m`: the ids
      are entered one by one, and the first one already present stops the
      loop with a RegistrationError, the ids before it staying registered. */
  function RegisterAll<K>(m: map<int, K>, ids: seq<int>, cls: K): (r: (map<int, K>, Outcome))
    ensures r.1 == Pass || (r.1.Fail? && r.1.error.RegistrationError? && r.1.error.id in ids && r.1.error.id in r.0)
    decreases |ids|
  {
    if ids == [] then (m, Pass)
    else if ids[0] in m then (m, Fail(RegistrationError(ids[0])))
    else RegisterAll(m[ids[0] := cls], ids[1..], cls)
  }

  /** Every id of `ids` mapped to `cls`. */
  function Claimed<K>(ids: seq<int>, cls: K): (r: map<int, K>)
    ensures r.Keys == set i | i in ids
    ensures forall i :: i in r ==> r[i] == cls
  {
    map i | i in ids :: cls
  }

  /** None of the first `k` ids is registered in `m` or repeated earlier in `ids`. */
  ghost predicate FreeUpTo<K>(m: map<int, K>, ids: seq<int>, k: int)
    requires 0 <= k <= |ids|
  {
    forall j :: 0 <= j < k ==> ids[j] !in m && ids[j] !in ids[..j]
  }

  /** Entering the first id moves the "free" condition one position along. */
  lemma FreeUpToShift<K>(m: map<int, K>, ids: seq<int>, cls: K, k: int)
    requires 1 <= k <= |ids| && ids[0] !in m
    ensures FreeUpTo(m[ids[0] := cls], ids[1..], k - 1) <==> FreeUpTo(m, ids, k)
  {
    var m' := m[ids[0] := cls];
    forall j | 0 <= j < k - 1
      ensures (ids[1..][j] !in m' && ids[1..][j] !in ids[1..][..j])
          <==> (ids[j + 1] !in m && ids[j + 1] !in ids[..j + 1])
    {
      assert ids[1..][..j] == ids[1..j + 1];
      assert ids[..j + 1] == [ids[0]] + ids[1..j + 1];
    }
    if FreeUpTo(m, ids, k) {
      forall j | 0 <= j < k - 1
        ensures ids[1..][j] !in m' && ids[1..][j] !in ids[1..][..j]
      {
        assert ids[j + 1] !in m && ids[j + 1] !in ids[..j + 1];
      }
    }
    if FreeUpTo(m', ids[1..], k - 1) {
      forall j | 0 <= j < k
        ensures ids[j] !in m && ids[j] !in ids[..j]
      {
        if j > 0 {
          assert ids[1..][j - 1] !in m' && ids[1..][j - 1] !in ids[1..][..j - 1];
        }
      }
    }
  }

  /** Registration succeeds exactly when no id is already registered and no
      id occurs twice in `ids`. */
  lemma {:induction false} RegisterSucceedsIff<K>(m: map<int, K>, ids: seq<int>, cls: K)
    ensures RegisterAll(m, ids, cls).1 == Pass <==> FreeUpTo(m, ids, |ids|)
    decreases |ids|
  {
    if ids != [] && ids[0] !in m {
      RegisterSucceedsIff(m[ids[0] := cls], ids[1..], cls);
      FreeUpToShift(m, ids, cls, |ids|);
    }
  }

  /** When the ids before position `k` are free and `k` is the first clash (or
      the end), registration maps exactly those ids to `cls`, keeps every
      earlier entry, and fails naming `ids[k]` when there is a clash. */
  lemma {:induction false} RegisterStopsAtFirstClash<K>(m: map<int, K>, ids: seq<int>, cls: K, k: int)
    requires 0 <= k <= |ids|
    requires FreeUpTo(m, ids, k)
    requires k < |ids| ==> ids[k] in m || ids[k] in ids[..k]
    ensures RegisterAll(m, ids, cls)
         == (m + Claimed(ids[..k], cls), if k == |ids| then Pass else Fail(RegistrationError(ids[k])))
    decreases |ids|
  {
    if k == 0 {
      assert ids[..0] == [];
      assert m + Claimed(ids[..0], cls) == m;
    } else {
      assert ids[0] !in m && ids[0] !in ids[..0];
      var m' := m[ids[0] := cls];
      FreeUpToShift(m, ids, cls, k);
      if k < |ids| {
        assert ids[..k] == [ids[0]] + ids[1..][..k - 1];
        assert ids[1..][k - 1] == ids[k];
      }
      RegisterStopsAtFirstClash(m', ids[1..], cls, k - 1);
      ClaimedCons(m, ids, cls, k);
    }
  }

  /** Entering the first id and then claiming the next `k - 1` is claiming the first `k`. */
  lemma ClaimedCons<K>(m: map<int, K>, ids: seq<int>, cls: K, k: int)
    requires 1 <= k <= |ids|
    ensures m[ids[0] := cls] + Claimed(ids[1..][..k - 1], cls) == m + Claimed(ids[..k], cls)
  {
    assert ids[..k] == [ids[0]] + ids[1..][..k - 1];
  }

  /** Registration never overwrites an entry, and every entry it adds maps
      one of `ids` to `cls`, whether or not it stops at a clash. */
  lemma {:induction false} RegisterKeepsEntries<K>(m: map<int, K>, ids: seq<int>, cls: K)
    ensures forall k :: k in m ==> k in RegisterAll(m, ids, cls).0 && RegisterAll(m, ids, cls).0[k] == m[k]
    ensures forall k :: k in RegisterAll(m, ids, cls).0 && k !in m ==> k in ids && RegisterAll(m, ids, cls).0[k] == cls
    decreases |ids|
  {
    if ids != [] && ids[0] !in m {
      RegisterKeepsEntries(m[ids[0] := cls], ids[1..], cls);
    }
  }

  /** Registering id 0 twice fails and keeps the first class; registering
      fresh ids maps each of them. */
  lemma RegistrationExamples()
    ensures RegisterAll(map[0x0 := 1], [0x0], 2) == (map[0x0 := 1], Fail(RegistrationError(0x0)))
    ensures RegisterAll(map[0x0 := 1], [0x1, 0x2], 2) == (map[0x0 := 1, 0x1 := 2, 0x2 := 2], Pass)
  {
  }

  /** The registry of the base class, filled in as class statements run. */
  class Registry<K> {
    var entries: map<int, K>

    /** A base class gets an empty registry. */
    constructor ()
      ensures entries == map[]
    {
      entries := map[];
    }

    /** The metaclass hook for a class that declares `ids`. */
    method Register(ids: seq<int>, cls: K) returns (r: Outcome)
      modifies this
      ensures (entries, r) == RegisterAll(old(entries), ids, cls)
    {
      var i := 0;
      while i < |ids|
        invariant 0 <= i <= |ids|
        invariant RegisterAll(old(entries), ids, cls) == RegisterAll(entries, ids[i..], cls)
      {
        if ids[i] in entries {
          return Fail(RegistrationError(ids[i]));
        }
        assert ids[i..][1..] == ids[i + 1..];
        entries := entries[ids[i] := cls];
        i := i + 1;
      }
      return Pass;
    }
  }

  /** The registry once the module's classes are defined. */
  const CARTRIDGE_REGISTRY: map<int, Kind> := map[0x1 := Mbc1Kind, 0x2 := Mbc1Kind, 0x3 := Mbc1Kind]

  lemma DefaultRegistration()
    ensures RegisterAll(map[], MBC1_IDS, Mbc1Kind) == (CARTRIDGE_REGISTRY, Pass)
  {
    RegisterStopsAtFirstClash(map[], MBC1_IDS, Mbc1Kind, 3);
    assert MBC1_IDS[..3] == MBC1_IDS;
    assert map[] + Claimed(MBC1_IDS, Mbc1Kind) == CARTRIDGE_REGISTRY;
  }

  /** Running the class statements in module order: the base class creates
      the registry, the stub declares no ids, MBC1 registers its three ids. */
  method DefineCartridgeClasses() returns (registry: Registry<Kind>, r: Outcome)
    ensures fresh(registry) && r == Pass && registry.entries == CARTRIDGE_REGISTRY
  {
    registry := new Registry();
    r := registry.Register(MBC1_IDS, Mbc1Kind);
    DefaultRegistration();
  }

  // ------------------------------------------------------------------
  // Construction by ROM bytes
  // ------------------------------------------------------------------

  /** The class `Cartridge(romstring)` picks: the stub for empty bytes,
      otherwise the class registered for the type byte at 0x147. The length
      test is `len < 0x147`, so a 0x147-byte image passes it and the read of
      byte 0x147 raises IndexError. */
  function NewKind(registry: map<int, Kind>, romstring: seq<byte>): (r: Result<Kind>)
    ensures r.Ok? ==>
      (|romstring| == 0 && r.value == DummyKind) ||
      (|romstring| > ROM_TYPE_BYTE && romstring[ROM_TYPE_BYTE] in registry
       && r.value == registry[romstring[ROM_TYPE_BYTE]])
    ensures r.Err? ==>
      r.error in {ValueError(RomTooShort), IndexError, ValueError(UnsupportedType)}
  {
    if |romstring| == 0 then Ok(DummyKind)
    else if |romstring| < ROM_TYPE_BYTE then Err(ValueError(RomTooShort))
    else
      var cartType :- PyIndex(romstring, ROM_TYPE_BYTE);
      if cartType in registry then Ok(registry[cartType])
      else Err(ValueError(UnsupportedType))
  }

  /** Construction with the module's registry, case by case. */
  lemma NewKindCases(romstring: seq<byte>)
    ensures |romstring| == 0 ==> NewKind(CARTRIDGE_REGISTRY, romstring) == Ok(DummyKind)
    ensures 0 < |romstring| < ROM_TYPE_BYTE ==>
      NewKind(CARTRIDGE_REGISTRY, romstring) == Err(ValueError(RomTooShort))
    ensures |romstring| == ROM_TYPE_BYTE ==>
      NewKind(CARTRIDGE_REGISTRY, romstring) == Err(IndexError)
    ensures |romstring| > ROM_TYPE_BYTE ==>
      (NewKind(CARTRIDGE_REGISTRY, romstring) == Ok(Mbc1Kind) <==> romstring[ROM_TYPE_BYTE] in {1, 2, 3})
    ensures |romstring| > ROM_TYPE_BYTE && romstring[ROM_TYPE_BYTE] !in {1, 2, 3} ==>
      NewKind(CARTRIDGE_REGISTRY, romstring) == Err(ValueError(UnsupportedType))
  {
  }

  // ------------------------------------------------------------------
  // ROM image and bank layout
  // ------------------------------------------------------------------

  function NumChunks(n: nat): nat
  {
    (n + ROM_BANK_SIZE - 1) / ROM_BANK_SIZE
  }

  /** The image cut into consecutive 16 KiB slices, the last one possibly short. */
  function Chunks(rom: seq<byte>): (cs: seq<seq<byte>>)
    ensures |cs| == NumChunks(|rom|)
    ensures forall k :: 0 <= k < |cs| ==> 0 < |cs[k]| <= ROM_BANK_SIZE
    ensures forall k :: 0 <= k < |cs| - 1 ==> |cs[k]| == ROM_BANK_SIZE
  {
    seq(NumChunks(|rom|), k requires 0 <= k < NumChunks(|rom|) =>
      rom[k * ROM_BANK_SIZE .. Min((k + 1) * ROM_BANK_SIZE, |rom|)])
  }

  function Concat(cs: seq<seq<byte>>): seq<byte>
  {
    if cs == [] then [] else cs[0] + Concat(cs[1..])
  }

  /** Cutting off the first slice leaves the slices of the rest. */
  lemma ChunksCons(rom: seq<byte>)
    requires |rom| > 0
    ensures Chunks(rom) == [rom[..Min(ROM_BANK_SIZE, |rom|)]] + Chunks(rom[Min(ROM_BANK_SIZE, |rom|)..])
  {
    var n := Min(ROM_BANK_SIZE, |rom|);
    var rest := rom[n..];
    var lhs, rhs := Chunks(rom), [rom[..n]] + Chunks(rest);
    assert |lhs| == |rhs|;
    forall k | 0 <= k < |lhs|
      ensures lhs[k] == rhs[k]
    {
      if k > 0 {
        assert n == ROM_BANK_SIZE;
        assert rest[(k - 1) * ROM_BANK_SIZE .. Min(k * ROM_BANK_SIZE, |rest|)]
            == rom[k * ROM_BANK_SIZE .. Min((k + 1) * ROM_BANK_SIZE, |rom|)];
      }
    }
  }

  /** The slices put back together are the image. */
  lemma {:induction false} ChunksRoundTrip(rom: seq<byte>)
    ensures Concat(Chunks(rom)) == rom
    decreases |rom|
  {
    if |rom| == 0 {
      assert Chunks(rom) == [];
    } else {
      var n := Min(ROM_BANK_SIZE, |rom|);
      ChunksCons(rom);
      ChunksRoundTrip(rom[n..]);
      assert Chunks(rom)[1..] == Chunks(rom[n..]);
      assert rom[..n] + rom[n..] == rom;
    }
  }

  /** A padding bank: 16 KiB of zeros. */
  function Zeros(n: nat): (z: seq<byte>)
    ensures |z| == n && forall i :: 0 <= i < n ==> z[i] == 0
  {
    if n == 0 then [] else Zeros(n - 1) + [0]
  }

  const BLANK_BANK: Device := Rom(Zeros(ROM_BANK_SIZE))

  /** The bank built for chunk `k`: the slice itself, or padding past the end. */
  function ChunkBank(rom: seq<byte>, k: nat): Device
  {
    if k < NumChunks(|rom|) then Rom(Chunks(rom)[k]) else BLANK_BANK
  }

  /** The chunk held by ROM-bank slot `s`: slots 0, 32, 64 and 96 hold
      chunk 0; every other slot is shifted down by the aliases before it. */
  function SlotChunk(s: nat): nat
  {
    if s % 32 == 0 && s < 128 then 0 else s - Min(s / 32, 3)
  }

  /** Byte `off` of chunk `k` of the image as a bank read sees it: the image
      byte, IndexError past the end of a short last chunk, 0 in padding. */
  function ImageRead(rom: seq<byte>, k: nat, off: int): Result<byte>
    requires 0 <= off < ROM_BANK_SIZE
  {
    if k >= NumChunks(|rom|) then Ok(0)
    else if k * ROM_BANK_SIZE + off < |rom| then Ok(rom[k * ROM_BANK_SIZE + off])
    else Err(IndexError)
  }

  lemma ChunkBankRead(rom: seq<byte>, k: nat, off: int)
    requires 0 <= off < ROM_BANK_SIZE
    ensures Read(ChunkBank(rom, k), off) == ImageRead(rom, k, off)
  {
    if k < NumChunks(|rom|) {
      var c := Chunks(rom)[k];
      assert c == rom[k * ROM_BANK_SIZE .. Min((k + 1) * ROM_BANK_SIZE, |rom|)];
      if k * ROM_BANK_SIZE + off < |rom| {
        assert c[off] == rom[k * ROM_BANK_SIZE + off];
      }
    }
  }

  /** `list.insert(i, x)` for an index inside the list. */
  function InsertAt<T>(s: seq<T>, i: nat, x: T): (r: seq<T>)
    requires i <= |s|
    ensures |r| == |s| + 1 && r[i] == x
    ensures forall j :: 0 <= j < i ==> r[j] == s[j]
    ensures forall j :: i < j < |r| ==> r[j] == s[j - 1]
  {
    s[..i] + [x] + s[i..]
  }

  /** The sliced banks padded with blank banks are the chunk banks. */
  lemma PaddedBanks(rom: seq<byte>, banks: seq<Device>)
    requires |banks| == Max(NumChunks(|rom|), PADDED_BANK_COUNT)
    requires forall k :: 0 <= k < NumChunks(|rom|) ==> banks[k] == Rom(Chunks(rom)[k])
    requires forall k :: NumChunks(|rom|) <= k < |banks| ==> banks[k] == BLANK_BANK
    ensures forall k :: 0 <= k < |banks| ==> banks[k] == ChunkBank(rom, k)
  {
  }

  /** Inserting bank 0 at 32, 64 and 96 puts chunk `SlotChunk(s)` in slot `s`. */
  lemma AliasLayout(padded: seq<Device>, banks: seq<Device>)
    requires |padded| >= PADDED_BANK_COUNT
    requires banks == InsertAt(InsertAt(InsertAt(padded, 32, padded[0]), 64, padded[0]), 96, padded[0])
    ensures |banks| == |padded| + 3
    ensures forall s :: 0 <= s < |banks| ==> SlotChunk(s) < |padded| && banks[s] == padded[SlotChunk(s)]
  {
    var once := InsertAt(padded, 32, padded[0]);
    var twice := InsertAt(once, 64, padded[0]);
    forall s | 0 <= s < |banks|
      ensures SlotChunk(s) < |padded| && banks[s] == padded[SlotChunk(s)]
    {
      if s >= 97 {
        assert banks[s] == twice[s - 1] == once[s - 2] == padded[s - 3];
      } else if s > 64 && s != 96 {
        assert banks[s] == twice[s] == once[s - 1] == padded[s - 2];
      } else if s > 32 && s != 64 && s != 96 {
        assert banks[s] == twice[s] == once[s] == padded[s - 1];
      }
    }
  }

  // ------------------------------------------------------------------
  // MBC1 registers
  // ------------------------------------------------------------------

  /** The four control registers of the MBC1 controller. */
  datatype Registers = Registers(ramEnable: int, romSelect: int, banksetSelect: int, modeSelect: int)
  {
    /** Each register within its mask, and rom_select never 0. */
    predicate Valid()
    {
      0 <= ramEnable < 0x10 && 1 <= romSelect < 0x20 && 0 <= banksetSelect < 0x4 && 0 <= modeSelect < 0x2
    }
  }

  const INITIAL_REGISTERS := Registers(0, 1, 0, 0)

  /** The `rom_bank` property: `rom_select | (bankset_select << 5)` in ROM
      banking mode (mode 0), `rom_select` alone in RAM banking mode. */
  function RomBank(regs: Registers): (n: nat)
    requires regs.Valid()
    ensures n < 128 && n % 32 == regs.romSelect && n % 32 != 0
    ensures n == regs.romSelect + (if regs.modeSelect == 0 then 32 * regs.banksetSelect else 0)
  {
    if regs.modeSelect == 0 then
      OrIsDisjointSum(regs.romSelect, regs.banksetSelect);
      ((regs.romSelect as bv7) | ((regs.banksetSelect as bv7) << 5)) as nat
    else
      regs.romSelect
  }

  lemma OrIsDisjointSum(low: int, high: int)
    requires 0 <= low < 32 && 0 <= high < 4
    ensures ((low as bv7) | ((high as bv7) << 5)) as nat == low + 32 * high
  {
  }

  /** The `ram_bank` property: `bankset_select` in RAM banking mode, 0 otherwise. */
  function RamBank(regs: Registers): (n: nat)
    requires regs.Valid()
    ensures n < RAM_BANK_COUNT
    ensures regs.modeSelect == 1 ==> n == regs.banksetSelect
    ensures regs.modeSelect == 0 ==> n == 0
  {
    if regs.modeSelect != 0 then regs.banksetSelect else 0
  }

  /** The mode bit decides which bank number the bankset register extends:
      in mode 0 it picks among ROM banks and never moves the RAM bank, in
      mode 1 it picks the RAM bank and never moves the ROM bank. */
  lemma BanksetServesOneWindow(regs: Registers, other: int)
    requires regs.Valid() && 0 <= other < 4
    ensures regs.modeSelect == 0 ==>
      RamBank(regs.(banksetSelect := other)) == RamBank(regs) &&
      (RomBank(regs.(banksetSelect := other)) == RomBank(regs) <==> other == regs.banksetSelect)
    ensures regs.modeSelect == 1 ==>
      RomBank(regs.(banksetSelect := other)) == RomBank(regs) &&
      (RamBank(regs.(banksetSelect := other)) == RamBank(regs) <==> other == regs.banksetSelect)
  {
  }

  /** The register half of `__setitem__`, for 0x0000..0x7FFF. Python's
      `mask & value` with a mask 2^k - 1 is `value % 2^k`, also for a
      negative value. */
  function ControlWrite(regs: Registers, addr: int, value: int): (r: Registers)
    requires 0 <= addr < 0x8000
    ensures regs.Valid() ==> r.Valid()
  {
    if addr < 0x2000 then regs.(ramEnable := value % 0x10)
    else if addr < 0x4000 then regs.(romSelect := if value % 0x20 == 0 then 1 else value % 0x20)
    else if addr < 0x6000 then regs.(banksetSelect := value % 0x4)
    else regs.(modeSelect := value % 0x2)
  }

  /** Each control window sets its own register to the masked value (0
      becoming 1 for rom_select) and leaves the other three as they were. */
  lemma ControlWriteWindows(regs: Registers, addr: int, value: int)
    requires 0 <= addr < 0x8000
    ensures 0x0000 <= addr < 0x2000 ==>
      ControlWrite(regs, addr, value) == Registers(value % 0x10, regs.romSelect, regs.banksetSelect, regs.modeSelect)
    ensures 0x2000 <= addr < 0x4000 ==>
      ControlWrite(regs, addr, value).romSelect == Max(value % 0x20, 1) &&
      ControlWrite(regs, addr, value).(romSelect := regs.romSelect) == regs
    ensures 0x4000 <= addr < 0x6000 ==>
      ControlWrite(regs, addr, value) == Registers(regs.ramEnable, regs.romSelect, value % 0x4, regs.modeSelect)
    ensures 0x6000 <= addr < 0x8000 ==>
      ControlWrite(regs, addr, value) == Registers(regs.ramEnable, regs.romSelect, regs.banksetSelect, value % 0x2)
  {
  }

  /** Writing the same value to the same window twice is writing it once. */
  lemma ControlWriteIdempotent(regs: Registers, addr: int, value: int)
    requires 0 <= addr < 0x8000
    ensures ControlWrite(ControlWrite(regs, addr, value), addr, value) == ControlWrite(regs, addr, value)
  {
  }

  /** Switching to RAM banking mode and back changes no stored selection. */
  lemma ModeSwitchKeepsSelections(regs: Registers, addr1: int, addr2: int)
    requires regs.Valid() && regs.modeSelect == 0
    requires 0x6000 <= addr1 < 0x8000 && 0x6000 <= addr2 < 0x8000
    ensures ControlWrite(ControlWrite(regs, addr1, 1), addr2, 0) == regs
  {
  }

  /** One write to a freshly built controller, for each address and value
      of the register-write table the tests check: all four registers
      afterwards. */
  lemma ControlWriteExamples()
    ensures ControlWrite(INITIAL_REGISTERS, 0x0, 0x10) == Registers(0x0, 0x1, 0x0, 0x0)
    ensures ControlWrite(INITIAL_REGISTERS, 0x0, 0x13) == Registers(0x3, 0x1, 0x0, 0x0)
    ensures ControlWrite(INITIAL_REGISTERS, 0x0, 0xA) == Registers(0xA, 0x1, 0x0, 0x0)
    ensures ControlWrite(INITIAL_REGISTERS, 0x1037, 0xA) == Registers(0xA, 0x1, 0x0, 0x0)
    ensures ControlWrite(INITIAL_REGISTERS, 0x1037, 0x4) == Registers(0x4, 0x1, 0x0, 0x0)
    ensures ControlWrite(INITIAL_REGISTERS, 0x2000, 0x2F) == Registers(0x0, 0xF, 0x0, 0x0)
    ensures ControlWrite(INITIAL_REGISTERS, 0x2000, 0x20) == Registers(0x0, 0x1, 0x0, 0x0)
    ensures ControlWrite(INITIAL_REGISTERS, 0x2000, 0x9) == Registers(0x0, 0x9, 0x0, 0x0)
    ensures ControlWrite(INITIAL_REGISTERS, 0x3498, 0x17) == Registers(0x0, 0x17, 0x0, 0x0)
    ensures ControlWrite(INITIAL_REGISTERS, 0x2000, 0x0) == Registers(0x0, 0x1, 0x0, 0x0)
    ensures ControlWrite(INITIAL_REGISTERS, 0x4000, 0x4) == Registers(0x0, 0x1, 0x0, 0x0)
    ensures ControlWrite(INITIAL_REGISTERS, 0x4000, 0x5) == Registers(0x0, 0x1, 0x1, 0x0)
    ensures ControlWrite(INITIAL_REGISTERS, 0x4000, 0x2) == Registers(0x0, 0x1, 0x2, 0x0)
    ensures ControlWrite(INITIAL_REGISTERS, 0x5836, 0x2) == Registers(0x0, 0x1, 0x2, 0x0)
    ensures ControlWrite(INITIAL_REGISTERS, 0x6000, 0x2) == Registers(0x0, 0x1, 0x0, 0x0)
    ensures ControlWrite(INITIAL_REGISTERS, 0x6000, 0x3) == Registers(0x0, 0x1, 0x0, 0x1)
    ensures ControlWrite(INITIAL_REGISTERS, 0x6000, 0x1) == Registers(0x0, 0x1, 0x0, 0x1)
    ensures ControlWrite(INITIAL_REGISTERS, 0x7836, 0x1) == Registers(0x0, 0x1, 0x0, 0x1)
  {
  }

  /** A write in the RAM window stores its value only when RAM is enabled and
      the value is a byte. */
  predicate RamStores(regs: Registers, addr: int, value: int)
  {
    0x8000 <= addr <= 0x9FFF && regs.ramEnable == 0xA && 0 <= value < 256
  }

  /** How `__setitem__` completes: KeyError outside 0..0x9FFF, ValueError for
      a non-byte stored into enabled RAM, normally otherwise. */
  function WriteOutcome(regs: Registers, addr: int, value: int): (r: Outcome)
    ensures r.Fail? <==> addr < 0 || addr > 0x9FFF || (0x8000 <= addr && regs.ramEnable == 0xA && !(0 <= value < 256))
  {
    if addr < 0 || addr > 0x9FFF then Fail(KeyError)
    else if 0x8000 <= addr && regs.ramEnable == 0xA && !(0 <= value < 256) then Fail(ValueError(ByteOutOfRange))
    else Pass
  }

  // ------------------------------------------------------------------
  // The MBC1 controller
  // ------------------------------------------------------------------

  /** The ROM-bank list of the constructor: the image's 16 KiB slices,
      padded with blank banks to 125, with the fixed bank inserted at 32, 64
      and 96. */
  method BuildRomBanks(rom: seq<byte>) returns (banks: seq<Device>)
    ensures |banks| == Max(NumChunks(|rom|), PADDED_BANK_COUNT) + 3
    ensures forall s :: 0 <= s < |banks| ==> banks[s] == ChunkBank(rom, SlotChunk(s))
  {
    var chunks := Chunks(rom);
    banks := seq(|chunks|, k requires 0 <= k < |chunks| => Rom(chunks[k]));
    if |banks| < PADDED_BANK_COUNT {
      banks := banks + seq(PADDED_BANK_COUNT - |banks|, _ => BLANK_BANK);
    }
    PaddedBanks(rom, banks);
    ghost var padded := banks;
    banks := InsertAt(banks, 32, banks[0]);
    banks := InsertAt(banks, 64, banks[0]);
    banks := InsertAt(banks, 96, banks[0]);
    AliasLayout(padded, banks);
  }

  /** `bytearray(8192)`: a fresh, zeroed RAM bank. */
  method NewRamBank() returns (a: array<byte>)
    ensures fresh(a) && a.Length == RAM_BANK_SIZE
    ensures forall i :: 0 <= i < RAM_BANK_SIZE ==> a[i] == 0
  {
    a := new byte[RAM_BANK_SIZE](_ => 0);
  }

  class Mbc1 {
    var ramEnable: int
    var romSelect: int
    var banksetSelect: int
    var modeSelect: int
    var rombanks: seq<Device>
    var rambanks: seq<array<byte>>

    function Regs(): Registers
      reads this
    {
      Registers(ramEnable, romSelect, banksetSelect, modeSelect)
    }

    /** Registers within their masks; at least 128 ROM slots with slots 32,
        64 and 96 the fixed bank; four distinct 8 KiB RAM banks. */
    ghost predicate Valid()
      reads this
    {
      && Regs().Valid()
      && |rombanks| >= 128
      && rombanks[32] == rombanks[0] && rombanks[64] == rombanks[0] && rombanks[96] == rombanks[0]
      && |rambanks| == RAM_BANK_COUNT
      && (forall b :: 0 <= b < RAM_BANK_COUNT ==> rambanks[b].Length == RAM_BANK_SIZE)
      && (forall b, c :: 0 <= b < c < RAM_BANK_COUNT ==> rambanks[b] != rambanks[c])
    }

    /** The ROM slots are the ones built from image `rom`. */
    ghost predicate HoldsImage(rom: seq<byte>)
      reads this
    {
      && |rombanks| == Max(NumChunks(|rom|), PADDED_BANK_COUNT) + 3
      && forall s :: 0 <= s < |rombanks| ==> rombanks[s] == ChunkBank(rom, SlotChunk(s))
    }

    /** Build the controller: cut the image into banks, pad with blank banks
        to 125, insert the fixed bank at 32, 64 and 96, and allocate four
        zeroed RAM banks. */
    constructor (romstring: seq<byte>)
      ensures Valid() && HoldsImage(romstring)
      ensures Regs() == INITIAL_REGISTERS
      ensures forall b :: 0 <= b < RAM_BANK_COUNT ==> fresh(rambanks[b])
      ensures forall b, i :: 0 <= b < RAM_BANK_COUNT && 0 <= i < RAM_BANK_SIZE ==> rambanks[b][i] == 0
    {
      ramEnable, romSelect, banksetSelect, modeSelect := 0, 1, 0, 0;
      var banks := BuildRomBanks(romstring);
      rombanks := banks;
      var bank0 := NewRamBank();
      var bank1 := NewRamBank();
      var bank2 := NewRamBank();
      var bank3 := NewRamBank();
      rambanks := [bank0, bank1, bank2, bank3];
    }

    /** The `fixedbank` property. */
    function FixedBank(): (b: Device)
      reads this
      requires Valid()
      ensures b == rombanks[32] && b == rombanks[64] && b == rombanks[96]
    {
      rombanks[0]
    }

    /** `cart[addr]`. */
    function Read(addr: int): (r: Result<byte>)
      reads this, rambanks
      requires Valid()
      ensures r == Err(KeyError) <==> addr < 0 || addr > 0x9FFF
      ensures r.Err? ==> r.error in {KeyError, IndexError}
      ensures 0x8000 <= addr <= 0x9FFF ==>
        r == if ramEnable == 0xA then Ok(rambanks[RamBank(Regs())][addr - 0x8000]) else Ok(0)
    {
      if addr < 0 || addr > 0x9FFF then Err(KeyError)
      else if addr < 0x4000 then Mem.Read(FixedBank(), addr)
      else if addr < 0x8000 then Mem.Read(rombanks[RomBank(Regs())], addr - 0x4000)
      else if ramEnable == 0xA then Ok(rambanks[RamBank(Regs())][addr - 0x8000])
      else Ok(0)
    }

    /** `cart[addr] = value`. */
    method Write(addr: int, value: int) returns (r: Outcome)
      requires Valid()
      modifies this, rambanks
      ensures Valid() && rombanks == old(rombanks) && rambanks == old(rambanks)
      ensures r == WriteOutcome(old(Regs()), addr, value)
      ensures Regs() == if 0 <= addr < 0x8000 then ControlWrite(old(Regs()), addr, value) else old(Regs())
      ensures forall b, i :: 0 <= b < RAM_BANK_COUNT && 0 <= i < RAM_BANK_SIZE ==>
        rambanks[b][i] ==
          if RamStores(old(Regs()), addr, value) && b == RamBank(old(Regs())) && i == addr - 0x8000
          then value else old(rambanks[b][i])
    {
      if addr < 0 || addr > 0x9FFF {
        return Fail(KeyError);
      }
      if addr < 0x2000 {
        ramEnable := value % 0x10;
      } else if addr < 0x4000 {
        romSelect := value % 0x20;
        if romSelect == 0 {
          romSelect := 1;
        }
      } else if addr < 0x6000 {
        banksetSelect := value % 0x4;
      } else if addr < 0x8000 {
        modeSelect := value % 0x2;
      } else if ramEnable == 0xA {
        if !(0 <= value < 256) {
          return Fail(ValueError(ByteOutOfRange));
        }
        rambanks[RamBank(Regs())][addr - 0x8000] := value;
      }
      return Pass;
    }
  }

  /** The bank list of a controller built from `rom`: 128 slots when the
      image has at most 125 chunks; slots 0, 32, 64 and 96 the fixed bank;
      every other slot `s` below 128 chunk `s - s/32`. */
  lemma SlotLayout(c: Mbc1, rom: seq<byte>)
    requires c.Valid() && c.HoldsImage(rom)
    ensures NumChunks(|rom|) <= PADDED_BANK_COUNT ==> |c.rombanks| == 128
    ensures c.rombanks[0] == ChunkBank(rom, 0)
    ensures c.rombanks[32] == c.rombanks[64] == c.rombanks[96] == c.rombanks[0]
    ensures forall s :: 0 <= s < 128 && s % 32 != 0 ==> c.rombanks[s] == ChunkBank(rom, s - s / 32)
  {
    forall s | 0 <= s < 128 && s % 32 != 0
      ensures c.rombanks[s] == ChunkBank(rom, s - s / 32)
    {
      assert c.rombanks[s] == ChunkBank(rom, SlotChunk(s));
    }
    assert c.rombanks[0] == ChunkBank(rom, SlotChunk(0));
  }

  /** The fixed window 0x0000..0x3FFF reads chunk 0 of the image. */
  lemma FixedWindowRead(c: Mbc1, rom: seq<byte>, addr: int)
    requires c.Valid() && c.HoldsImage(rom) && 0 <= addr < 0x4000
    ensures c.Read(addr) == ImageRead(rom, 0, addr)
  {
    assert c.rombanks[0] == ChunkBank(rom, SlotChunk(0));
    ChunkBankRead(rom, 0, addr);
  }

  /** The switchable window 0x4000..0x7FFF reads chunk `n - n/32` of the image,
      where n is the selected bank; n is never a multiple of 32, so slots
      32, 64 and 96 are never reached through it. */
  lemma SwitchableWindowRead(c: Mbc1, rom: seq<byte>, addr: int)
    requires c.Valid() && c.HoldsImage(rom) && 0x4000 <= addr < 0x8000
    ensures RomBank(c.Regs()) % 32 != 0
    ensures c.Read(addr) == ImageRead(rom, RomBank(c.Regs()) - RomBank(c.Regs()) / 32, addr - 0x4000)
  {
    var n := RomBank(c.Regs());
    assert c.rombanks[n] == ChunkBank(rom, SlotChunk(n));
    ChunkBankRead(rom, SlotChunk(n), addr - 0x4000);
  }

  // ------------------------------------------------------------------
  // A cartridge as the bus holds it
  // ------------------------------------------------------------------

  datatype Cart = DummyCartridge | Mbc1Cartridge(mbc: Mbc1)

  ghost predicate CartValid(c: Cart)
    reads if c.Mbc1Cartridge? then {c.mbc} else {}
  {
    c.Mbc1Cartridge? ==> c.mbc.Valid()
  }

  /** `cart[addr]`; the stub returns 0 for every address. */
  function CartRead(c: Cart, addr: int): (r: Result<byte>)
    reads if c.Mbc1Cartridge? then {c.mbc} else {}
    reads if c.Mbc1Cartridge? then c.mbc.rambanks else []
    requires CartValid(c)
    ensures c.DummyCartridge? ==> r == Ok(0)
    ensures r == Err(KeyError) ==> c.Mbc1Cartridge? && (addr < 0 || addr > 0x9FFF)
  {
    match c
    case DummyCartridge => Ok(0)
    case Mbc1Cartridge(m) => m.Read(addr)
  }

  /** `cart[addr] = value`; the stub ignores every write. */
  method CartWrite(c: Cart, addr: int, value: int) returns (r: Outcome)
    requires CartValid(c)
    modifies if c.Mbc1Cartridge? then {c.mbc} else {}
    modifies if c.Mbc1Cartridge? then c.mbc.rambanks else []
    ensures CartValid(c)
    ensures c.DummyCartridge? ==> r == Pass
    ensures c.Mbc1Cartridge? ==> r == WriteOutcome(old(c.mbc.Regs()), addr, value)
    ensures c.Mbc1Cartridge? ==> c.mbc.rombanks == old(c.mbc.rombanks) && c.mbc.rambanks == old(c.mbc.rambanks)
    ensures c.Mbc1Cartridge? ==>
      c.mbc.Regs() == if 0 <= addr < 0x8000 then ControlWrite(old(c.mbc.Regs()), addr, value) else old(c.mbc.Regs())
    ensures c.Mbc1Cartridge? ==> forall b, i :: 0 <= b < RAM_BANK_COUNT && 0 <= i < RAM_BANK_SIZE ==>
      c.mbc.rambanks[b][i] ==
        if RamStores(old(c.mbc.Regs()), addr, value) && b == RamBank(old(c.mbc.Regs())) && i == addr - 0x8000
        then value else old(c.mbc.rambanks[b][i])
  {
    match c
    case DummyCartridge =>
      r := Pass;
    case Mbc1Cartridge(m) =>
      r := m.Write(addr, value);
  }

  /** `Cartridge(romstring)`: the stub, a freshly built MBC1 controller, or
      the construction error; no cartridge is built when construction fails. */
  method NewCartridge(romstring: seq<byte>) returns (r: Result<Cart>)
    ensures r.Err? <==> NewKind(CARTRIDGE_REGISTRY, romstring).Err?
    ensures r.Err? ==> r.error == NewKind(CARTRIDGE_REGISTRY, romstring).error
    ensures NewKind(CARTRIDGE_REGISTRY, romstring) == Ok(DummyKind) ==> r == Ok(DummyCartridge)
    ensures NewKind(CARTRIDGE_REGISTRY, romstring) == Ok(Mbc1Kind) ==>
      && r.Ok? && r.value.Mbc1Cartridge? && fresh(r.value.mbc)
      && r.value.mbc.Valid() && r.value.mbc.HoldsImage(romstring)
      && r.value.mbc.Regs() == INITIAL_REGISTERS
      && (forall b :: 0 <= b < RAM_BANK_COUNT ==> fresh(r.value.mbc.rambanks[b]))
      && (forall b, i :: 0 <= b < RAM_BANK_COUNT && 0 <= i < RAM_BANK_SIZE ==> r.value.mbc.rambanks[b][i] == 0)
  {
    var kind :- NewKind(CARTRIDGE_REGISTRY, romstring);
    match kind
    case DummyKind =>
      r := Ok(DummyCartridge);
    case Mbc1Kind =>
      var m := new Mbc1(romstring);
      r := Ok(Mbc1Cartridge(m));
  }
}
