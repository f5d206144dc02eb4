/** The device leaf: a stub that reads 0 everywhere and a read-only ROM.
    Devices are values: a `Rom` owns its own copy of the bytes it was built
    from, and nothing can change a device once it exists. */
module Mem {
  import opened Errors

  type byte = x: int | 0 <= x < 256

  datatype Device =
    | DummyMem              // reads 0 at every address
    | Rom(data: seq<byte>)  // the bytes given to the constructor

  /** Python's `s[i]` on a bytearray or a list: a negative index counts
      back from the end, anything else outside the sequence is an IndexError. */
  function PyIndex<T>(s: seq<T>, i: int): (r: Result<T>)
    ensures r.Ok? <==> -|s| <= i < |s|
    ensures r.Err? ==> r.error == IndexError
    ensures r.Ok? ==> r.value == if i >= 0 then s[i] else s[|s| + i]
  {
    if 0 <= i < |s| then Ok(s[i])
    else if -|s| <= i < 0 then Ok(s[|s| + i])
    else Err(IndexError)
  }

  /** `Rom(data)`: the constructor takes the data (there is no default) and
      keeps `bytearray(data)`, a copy. */
  function NewRom(data: seq<byte>): (d: Device)
    ensures d.Rom? && |d.data| == |data|
    ensures forall i :: 0 <= i < |data| ==> d.data[i] == data[i]
  {
    Rom(data)
  }

  /** `device[addr]`. */
  function Read(d: Device, addr: int): (r: Result<byte>)
    ensures d.DummyMem? ==> r == Ok(0)
    ensures d.Rom? ==> (r.Ok? <==> -|d.data| <= addr < |d.data|)
    ensures r.Err? ==> d.Rom? && r.error == IndexError
  {
    match d
    case DummyMem => Ok(0)
    case Rom(data) => PyIndex(data, addr)
  }

  /** `device[addr] = value`: neither class defines `__setitem__` (the stub's
      method is spelled `__setitem`), so item assignment is a TypeError. */
  function Write(d: Device, addr: int, value: int): (r: Outcome)
    ensures r.Fail? && r.error == TypeError
  {
    Fail(TypeError)
  }

  lemma DummyReadsZero(addr: int)
    ensures Read(DummyMem, addr) == Ok(0)
  {
  }

  /** A ROM read succeeds exactly at the indexes Python accepts and returns
      the byte the ROM was built with; reading at `i - |data|` is the same as
      reading at `i`. */
  lemma RomRead(data: seq<byte>, addr: int)
    ensures Read(NewRom(data), addr).Ok? <==> -|data| <= addr < |data|
    ensures 0 <= addr < |data| ==> Read(NewRom(data), addr) == Ok(data[addr])
    ensures 0 <= addr < |data| ==> Read(NewRom(data), addr - |data|) == Read(NewRom(data), addr)
    ensures Read(NewRom(data), addr).Err? ==> Read(NewRom(data), addr).error == IndexError
  {
  }

  /** No device accepts a write, so a device's contents never change. */
  lemma DevicesAreReadOnly(d: Device, addr: int, value: int)
    ensures Write(d, addr, value) == Fail(TypeError)
  {
  }
}
