/** The memory bus: translation of a 16-bit address into a device and a
    device address, the boot-overlay flag that translation clears, and bus
    reads through the translation. */
module Mmu {
  import opened Errors
  import opened Mem
  import opened Cartridge

  const WRAM_SIZE := 0xE000 - 0xC000
  const ZRAM_SIZE := 0x10000 - 0xFF80
  const BIOS_END := 0x100

  /** The devices the bus can route an address to. */
  datatype DeviceId = Bios | Vram | Oam | Io | Wram | Zram | Cart

  /** A translated address: which device, and the address within it. */
  datatype Target = Target(device: DeviceId, offset: int)

  /** The range split of `addr_trans` for the given boot flag. `addr & 0xF000`
      and `addr & 0x0F00` are written with `%`, which agrees with the masks
      on 0..0xFFFF. */
  function Translate(addr: int, inBios: bool): (r: Result<Target>)
    ensures r.Err? <==> addr < 0 || addr > 0xFFFF
    ensures r.Err? ==> r.error == KeyError
    ensures inBios && 0 <= addr < BIOS_END ==> r == Ok(Target(Bios, addr))
    ensures !inBios && 0 <= addr < BIOS_END ==> r == Ok(Target(Cart, addr))
    ensures BIOS_END <= addr < 0x8000 ==> r == Ok(Target(Cart, addr))
    ensures 0x8000 <= addr < 0xA000 ==> r == Ok(Target(Vram, addr - 0x8000))
    ensures 0xA000 <= addr < 0xC000 ==> r == Ok(Target(Cart, addr - 0xA000 + 0x8000))
    ensures 0xC000 <= addr < 0xF000 ==> r == Ok(Target(Wram, addr - 0xC000))
    ensures 0xF000 <= addr < 0xFE00 ==> r == Ok(Target(Wram, addr - 0xF000))
    ensures 0xFE00 <= addr < 0xFF00 ==> r == Ok(Target(Oam, addr - 0xFE00))
    ensures 0xFF00 <= addr < 0xFF80 ==> r == Ok(Target(Io, addr - 0xFF00))
    ensures 0xFF80 <= addr <= 0xFFFF ==> r == Ok(Target(Zram, addr - 0xFF80))
  {
    if addr < 0x0000 || addr > 0xFFFF then Err(KeyError)
    else
      var dig1 := addr - addr % 0x1000;
      if dig1 < 0x1000 then
        if inBios && addr < BIOS_END then Ok(Target(Bios, addr)) else Ok(Target(Cart, addr))
      else if dig1 < 0x4000 then Ok(Target(Cart, addr))
      else if dig1 < 0x8000 then Ok(Target(Cart, addr))
      else if dig1 < 0xA000 then Ok(Target(Vram, addr - 0x8000))
      else if dig1 < 0xC000 then Ok(Target(Cart, addr - 0xA000 + 0x8000))
      else if dig1 < 0xF000 then Ok(Target(Wram, addr - 0xC000))
      else
        var dig2 := addr % 0x1000 - addr % 0x100;
        if dig2 < 0xE00 then Ok(Target(Wram, addr - 0xF000))
        else if dig2 == 0xE00 then Ok(Target(Oam, addr - 0xFE00))
        else if addr >= 0xFF80 then Ok(Target(Zram, addr - 0xFF80))
        else Ok(Target(Io, addr - 0xFF00))
  }

  /** The boot flag after translating `addr`: cleared by exactly 0x0100. */
  function BootFlagAfter(addr: int, inBios: bool): (b: bool)
    ensures b == (inBios && addr != BIOS_END)
  {
    if 0 <= addr < 0x1000 && inBios && addr == BIOS_END then false else inBios
  }

  /** The boot flag after translating the addresses in order. */
  function BootFlagAfterAll(addrs: seq<int>, inBios: bool): bool
  {
    if addrs == [] then inBios else BootFlagAfterAll(addrs[1..], BootFlagAfter(addrs[0], inBios))
  }

  /** After any run of translations the overlay is still on exactly when it
      was on to begin with and 0x0100 was never translated; in particular
      nothing turns it back on. */
  lemma {:induction false} BootFlagOverRun(addrs: seq<int>, inBios: bool)
    ensures BootFlagAfterAll(addrs, inBios) == (inBios && BIOS_END !in addrs)
  {
    if addrs != [] {
      BootFlagOverRun(addrs[1..], BootFlagAfter(addrs[0], inBios));
      assert addrs == [addrs[0]] + addrs[1..];
    }
  }

  /** Every translated offset is non-negative and lies inside its device,
      except for the 0xE000..0xEFFF part of the work-RAM mirror, whose
      offsets 0x2000..0x2FFF run past the 0x2000-byte work RAM. Cartridge
      offsets stay inside the cartridge's 0x0000..0x9FFF decode range, and
      the external-RAM window lands in its RAM window 0x8000..0x9FFF. */
  lemma OffsetsFitDevices(addr: int, inBios: bool)
    requires Translate(addr, inBios).Ok?
    ensures var t := Translate(addr, inBios).value;
      && 0 <= t.offset
      && (t.device == Bios ==> t.offset < BIOS_END)
      && (t.device == Vram ==> t.offset < 0x2000)
      && (t.device == Oam ==> t.offset < 0x100)
      && (t.device == Io ==> t.offset < 0x80)
      && (t.device == Zram ==> t.offset < ZRAM_SIZE)
      && (t.device == Wram ==> (t.offset < WRAM_SIZE <==> !(0xE000 <= addr < 0xF000)))
      && (t.device == Cart ==> t.offset <= 0x9FFF)
      && (0xA000 <= addr < 0xC000 ==> t.device == Cart && 0x8000 <= t.offset <= 0x9FFF)
  {
  }

  /** Two addresses inside one window reach the same device; the windows of
      the address map reach the devices below. */
  lemma WindowExamples()
    ensures Translate(0x0, true).value.device == Translate(0xEE, true).value.device == Bios
    ensures Translate(0x100, true).value.device == Cart
    ensures Translate(0x0, false).value.device == Translate(0x3FFF, false).value.device == Cart
    ensures Translate(0x4000, false).value.device == Translate(0x7000, false).value.device == Cart
    ensures Translate(0x8000, false).value.device == Translate(0x9000, false).value.device == Vram
    ensures Translate(0xA000, false).value.device == Translate(0xB000, false).value.device == Cart
    ensures Translate(0xC000, false).value.device == Translate(0xD000, false).value.device == Wram
    ensures Translate(0xE000, false).value.device == Translate(0xF000, false).value.device == Wram
    ensures Translate(0xFE00, false).value.device == Translate(0xFE90, false).value.device == Oam
    ensures Translate(0xFF00, false).value.device == Translate(0xFF7F, false).value.device == Io
    ensures Translate(0xFF80, false).value.device == Translate(0xFFFF, false).value.device == Zram
  {
  }

  class Mmu {
    var wram: array<byte>
    var zram: array<byte>
    var bios: Device
    var vram: Device
    var oam: Device
    var io: Device
    var cartridge: Cart
    var inBios: bool

    /** Work and high RAM of their sizes, and a well-formed cartridge. */
    ghost predicate Valid()
      reads this`wram, this`zram, this`cartridge
      reads if cartridge.Mbc1Cartridge? then {cartridge.mbc} else {}
    {
      wram.Length == WRAM_SIZE && zram.Length == ZRAM_SIZE && CartValid(cartridge)
    }

    /** A bus with the given devices, fresh zeroed work and high RAM, the
        stub cartridge and the boot overlay on. */
    constructor (bios: Device, vram: Device, oam: Device, io: Device)
      ensures Valid() && fresh(wram) && fresh(zram)
      ensures this.bios == bios && this.vram == vram && this.oam == oam && this.io == io
      ensures cartridge == DummyCartridge && inBios
      ensures forall i :: 0 <= i < WRAM_SIZE ==> wram[i] == 0
      ensures forall i :: 0 <= i < ZRAM_SIZE ==> zram[i] == 0
    {
      wram := new byte[WRAM_SIZE](_ => 0);
      zram := new byte[ZRAM_SIZE](_ => 0);
      this.bios, this.vram, this.oam, this.io := bios, vram, oam, io;
      cartridge := DummyCartridge;
      inBios := true;
    }

    /** `device[device_addr]` for a translated address. */
    function ReadTarget(t: Target): (r: Result<byte>)
      reads this`wram, this`zram, this`bios, this`vram, this`oam, this`io, this`cartridge, wram, zram
      reads if cartridge.Mbc1Cartridge? then {cartridge.mbc} else {}
      reads if cartridge.Mbc1Cartridge? then cartridge.mbc.rambanks else []
      requires Valid()
    {
      match t.device
      case Bios => Mem.Read(bios, t.offset)
      case Vram => Mem.Read(vram, t.offset)
      case Oam => Mem.Read(oam, t.offset)
      case Io => Mem.Read(io, t.offset)
      case Wram => PyIndex(wram[..], t.offset)
      case Zram => PyIndex(zram[..], t.offset)
      case Cart => CartRead(cartridge, t.offset)
    }

    /** What `mmu[addr]` returns when the boot flag is `boot`. */
    function ReadAt(addr: int, boot: bool): (r: Result<byte>)
      reads this`wram, this`zram, this`bios, this`vram, this`oam, this`io, this`cartridge, wram, zram
      reads if cartridge.Mbc1Cartridge? then {cartridge.mbc} else {}
      reads if cartridge.Mbc1Cartridge? then cartridge.mbc.rambanks else []
      requires Valid()
      ensures Translate(addr, boot).Err? ==> r == Err(KeyError)
      ensures r.Err? ==> r.error in {KeyError, IndexError}
    {
      match Translate(addr, boot)
      case Err(e) => Err(e)
      case Ok(t) => ReadTarget(t)
    }

    /** `addr_trans`: the translation for the current flag, clearing the
        flag when the address is 0x0100. */
    method AddrTrans(addr: int) returns (r: Result<Target>)
      modifies this`inBios
      ensures r == Translate(addr, old(inBios))
      ensures inBios == BootFlagAfter(addr, old(inBios))
    {
      if addr < 0x0000 || addr > 0xFFFF {
        return Err(KeyError);
      }
      if addr - addr % 0x1000 < 0x1000 && inBios {
        if addr < BIOS_END {
          return Ok(Target(Bios, addr));
        } else if addr == BIOS_END {
          inBios := false;
        }
      }
      r := Translate(addr, false);
    }

    /** `mmu[addr]`. */
    method Read(addr: int) returns (r: Result<byte>)
      requires Valid()
      modifies this`inBios
      ensures Valid()
      ensures r == ReadAt(addr, old(inBios))
      ensures inBios == BootFlagAfter(addr, old(inBios))
    {
      var t :- AddrTrans(addr);
      r := ReadTarget(t);
    }

    /** `load_cartridge`: the bus now routes cartridge addresses to `c`. */
    method LoadCartridge(c: Cart)
      requires CartValid(c)
      modifies this`cartridge
      ensures cartridge == c
    {
      cartridge := c;
    }

    /** `unload_cartridge`: installs a fresh stub; the argument is not used. */
    method UnloadCartridge(ignored: Cart)
      modifies this`cartridge
      ensures cartridge == DummyCartridge
    {
      cartridge := DummyCartridge;
    }
  }

  /** A bus read inside 0..0xFFFF never raises KeyError: every device
      address the translation produces is one the device decodes. */
  lemma NoKeyErrorInsideAddressSpace(m: Mmu, addr: int, boot: bool)
    requires m.Valid() && 0 <= addr <= 0xFFFF
    ensures m.ReadAt(addr, boot) != Err(KeyError)
  {
    OffsetsFitDevices(addr, boot);
    var t := Translate(addr, boot).value;
    if t.device == Cart && m.cartridge.Mbc1Cartridge? {
      assert 0 <= t.offset <= 0x9FFF;
    }
  }

  /** While the overlay is on, 0x0000..0x00FF reads the boot ROM; afterwards
      the same addresses read the cartridge. */
  lemma BiosOverlay(m: Mmu, addr: int)
    requires m.Valid() && 0 <= addr < BIOS_END
    ensures m.ReadAt(addr, true) == Mem.Read(m.bios, addr)
    ensures m.ReadAt(addr, false) == CartRead(m.cartridge, addr)
  {
  }

  /** With the stub cartridge installed, every cartridge address reads 0. */
  lemma StubCartridgeReadsZero(m: Mmu, addr: int, boot: bool)
    requires m.Valid() && m.cartridge == DummyCartridge
    requires (0 <= addr < 0x8000 && !(boot && addr < BIOS_END)) || 0xA000 <= addr < 0xC000
    ensures m.ReadAt(addr, boot) == Ok(0)
  {
  }

  /** Work RAM reads back through both of its windows; the first 0x1000
      bytes of the 0xE000 mirror run past its end and raise IndexError. */
  lemma WorkRamWindows(m: Mmu, addr: int, boot: bool)
    requires m.Valid()
    ensures 0xC000 <= addr < 0xE000 ==> m.ReadAt(addr, boot) == Ok(m.wram[addr - 0xC000])
    ensures 0xE000 <= addr < 0xF000 ==> m.ReadAt(addr, boot) == Err(IndexError)
    ensures 0xF000 <= addr < 0xFE00 ==> m.ReadAt(addr, boot) == Ok(m.wram[addr - 0xF000])
    ensures 0xFF80 <= addr <= 0xFFFF ==> m.ReadAt(addr, boot) == Ok(m.zram[addr - 0xFF80])
  {
  }
}
