/** A guest's linear memory: a flat, byte-addressed array whose accesses are
    bounds-checked, with 32-bit values stored little-endian as the
    WebAssembly Core Specification 2.0 (section 4.4.7, memory instructions)
    requires. Out-of-range accesses yield `None`, which the runtime reports
    as an out-of-bounds trap. */
module LinearMemory {
  import opened Words

  /** The range `[addr, addr + len)` lies inside `mem`. */
  predicate InBounds(mem: seq<Byte>, addr: int, len: int) {
    0 <= addr && 0 <= len && addr + len <= |mem|
  }

  /** Two address ranges share no byte. */
  predicate Disjoint(a: int, alen: int, b: int, blen: int) {
    a + alen <= b || b + blen <= a
  }

  /** Writes `data` at `addr`: the bytes there become `data` and every other
      byte keeps its value. */
  function Store(mem: seq<Byte>, addr: int, data: seq<Byte>): (r: Option<seq<Byte>>)
    ensures r.Some? <==> InBounds(mem, addr, |data|)
    ensures r.Some? ==> |r.value| == |mem|
    ensures r.Some? ==> r.value[addr..addr + |data|] == data
    ensures r.Some? ==> forall i :: 0 <= i < |mem| && !(addr <= i < addr + |data|) ==> r.value[i] == mem[i]
  {
    if InBounds(mem, addr, |data|) then
      Some(mem[..addr] + data + mem[addr + |data|..])
    else
      None
  }

  /** Reads `len` bytes starting at `addr`. */
  function Load(mem: seq<Byte>, addr: int, len: int): (r: Option<seq<Byte>>)
    ensures r.Some? <==> InBounds(mem, addr, len)
    ensures r.Some? ==> |r.value| == len
    ensures r.Some? ==> forall i :: 0 <= i < len ==> r.value[i] == mem[addr + i]
  {
    if InBounds(mem, addr, len) then Some(mem[addr..addr + len]) else None
  }

  /** The four little-endian bytes of a 32-bit value. */
  function EncodeLE32(v: U32): (bs: seq<Byte>)
    ensures |bs| == 4
  {
    [(v % 0x100) as Byte, (v / 0x100 % 0x100) as Byte,
     (v / 0x1_0000 % 0x100) as Byte, (v / 0x100_0000) as Byte]
  }

  /** The 32-bit value of four little-endian bytes. */
  function DecodeLE32(bs: seq<Byte>): (v: U32)
    requires |bs| == 4
  {
    bs[0] as int + 0x100 * bs[1] as int + 0x1_0000 * bs[2] as int + 0x100_0000 * bs[3] as int
  }

  lemma {:induction false} DecodeEncodeLE32(v: U32)
    ensures DecodeLE32(EncodeLE32(v)) == v
  {
    var bs := EncodeLE32(v);
    var q1 := v / 0x100;
    var q2 := q1 / 0x100;
    assert v == bs[0] as int + 0x100 * q1;
    assert q1 == bs[1] as int + 0x100 * q2;
    assert q2 / 0x100 == v / 0x100_0000;
    assert q2 == bs[2] as int + 0x100 * bs[3] as int;
  }

  lemma {:induction false} EncodeDecodeLE32(bs: seq<Byte>)
    requires |bs| == 4
    ensures EncodeLE32(DecodeLE32(bs)) == bs
  {
    var v := DecodeLE32(bs);
    var b0, b1, b2, b3 := bs[0] as int, bs[1] as int, bs[2] as int, bs[3] as int;
    var q2 := b2 + 0x100 * b3;
    var q1 := b1 + 0x100 * q2;
    DivModDigit(b0, q1, 0x100);
    DivModDigit(b1, q2, 0x100);
    DivModDigit(b2, b3, 0x100);
    assert v == (b0 + 0x100 * b1) + 0x1_0000 * q2;
    DivModDigit(b0 + 0x100 * b1, q2, 0x1_0000);
    assert v == (b0 + 0x100 * b1 + 0x1_0000 * b2) + 0x100_0000 * b3;
    DivModDigit(b0 + 0x100 * b1 + 0x1_0000 * b2, b3, 0x100_0000);
    var back := EncodeLE32(v);
    assert back[0] == bs[0] && back[1] == bs[1] && back[2] == bs[2] && back[3] == bs[3];
  }

  /** Stores a 32-bit value little-endian (the runtime's `writeI32`). */
  function StoreU32(mem: seq<Byte>, addr: int, v: U32): (r: Option<seq<Byte>>)
    ensures r.Some? <==> InBounds(mem, addr, 4)
    ensures r.Some? ==> |r.value| == |mem| && r.value[addr..addr + 4] == EncodeLE32(v)
  {
    Store(mem, addr, EncodeLE32(v))
  }

  /** Loads a little-endian 32-bit value as unsigned (the runtime's `readU32`). */
  function LoadU32(mem: seq<Byte>, addr: int): (r: Option<U32>)
    ensures r.Some? <==> InBounds(mem, addr, 4)
    ensures r.Some? ==> r.value == mem[addr] as int + 0x100 * mem[addr + 1] as int +
                                   0x1_0000 * mem[addr + 2] as int + 0x100_0000 * mem[addr + 3] as int
  {
    match Load(mem, addr, 4)
    case None => None
    case Some(bs) => Some(DecodeLE32(bs))
  }

  /** Loads a little-endian 32-bit value as signed (the runtime's `readInt`). */
  function LoadI32(mem: seq<Byte>, addr: int): (r: Option<Int32>)
    ensures r.Some? <==> InBounds(mem, addr, 4)
    ensures r.Some? ==> DecodeLE32(mem[addr..addr + 4]) - r.value in {0, TWO_32}
  {
    match LoadU32(mem, addr)
    case None => None
    case Some(u) => Some(ToInt32(u))
  }

  /** What was just written at an address reads back unchanged. */
  lemma LoadAfterStore(mem: seq<Byte>, addr: int, data: seq<Byte>)
    requires Store(mem, addr, data).Some?
    ensures Load(Store(mem, addr, data).value, addr, |data|) == Some(data)
  {
  }

  /** A write leaves every range it does not touch readable as before. */
  lemma {:induction false} LoadOutsideStore(mem: seq<Byte>, addr: int, data: seq<Byte>, at: int, len: int)
    requires Store(mem, addr, data).Some?
    requires Disjoint(addr, |data|, at, len)
    ensures Load(Store(mem, addr, data).value, at, len) == Load(mem, at, len)
  {
    var m := Store(mem, addr, data).value;
    if InBounds(mem, at, len) {
      assert m[at..at + len] == mem[at..at + len] by {
        forall i | at <= i < at + len ensures m[i] == mem[i] {
        }
      }
    }
  }

  /** A range whose bytes did not change reads the same. */
  lemma {:induction false} LoadFrame(mem: seq<Byte>, mem': seq<Byte>, at: int, len: int)
    requires |mem'| == |mem|
    requires forall i :: at <= i < at + len && 0 <= i < |mem| ==> mem'[i] == mem[i]
    ensures Load(mem', at, len) == Load(mem, at, len)
  {
    if InBounds(mem, at, len) {
      assert mem'[at..at + len] == mem[at..at + len] by {
        forall i | at <= i < at + len ensures mem'[i] == mem[i] {
        }
      }
    }
  }

  /** A 32-bit value stored at an address loads back unchanged. */
  lemma {:induction false} LoadU32AfterStoreU32(mem: seq<Byte>, addr: int, v: U32)
    requires StoreU32(mem, addr, v).Some?
    ensures LoadU32(StoreU32(mem, addr, v).value, addr) == Some(v)
  {
    LoadAfterStore(mem, addr, EncodeLE32(v));
    DecodeEncodeLE32(v);
  }

  /** An `int` written with `writeI32` reads back unchanged with `readInt`. */
  lemma {:induction false} LoadI32AfterStoreU32(mem: seq<Byte>, addr: int, v: Int32)
    requires InBounds(mem, addr, 4)
    ensures LoadI32(StoreU32(mem, addr, ToU32(v)).value, addr) == Some(v)
  {
    LoadU32AfterStoreU32(mem, addr, ToU32(v));
    SignedUnsignedRoundTrip(v);
  }

  /** A 32-bit store leaves every range it does not touch readable as before. */
  lemma {:induction false} LoadOutsideStoreU32(mem: seq<Byte>, addr: int, v: U32, at: int, len: int)
    requires StoreU32(mem, addr, v).Some?
    requires Disjoint(addr, 4, at, len)
    ensures Load(StoreU32(mem, addr, v).value, at, len) == Load(mem, at, len)
  {
    LoadOutsideStore(mem, addr, EncodeLE32(v), at, len);
  }

  /** The runtime's memory object: the bytes of one instance's linear memory,
      read and written in place. */
  class Memory {
    var bytes: seq<Byte>

    constructor (initial: seq<Byte>)
      ensures bytes == initial
    {
      bytes := initial;
    }

    /** `write(addr, data)`: fails, changing nothing, when out of range. */
    method Write(addr: int, data: seq<Byte>) returns (ok: bool)
      modifies this
      ensures ok <==> InBounds(old(bytes), addr, |data|)
      ensures bytes == if ok then Store(old(bytes), addr, data).value else old(bytes)
    {
      var r := Store(bytes, addr, data);
      ok := r.Some?;
      if ok {
        bytes := r.value;
      }
    }

    /** `writeI32(addr, v)`: the 32 bits of `v`, little-endian. */
    method WriteI32(addr: int, v: Int32) returns (ok: bool)
      modifies this
      ensures ok <==> InBounds(old(bytes), addr, 4)
      ensures bytes == if ok then StoreU32(old(bytes), addr, ToU32(v)).value else old(bytes)
    {
      ok := Write(addr, EncodeLE32(ToU32(v)));
    }

    /** `readInt(addr)`: a signed little-endian 32-bit load. */
    method ReadInt(addr: int) returns (r: Option<Int32>)
      ensures r.Some? <==> InBounds(bytes, addr, 4)
      ensures r.Some? ==> DecodeLE32(bytes[addr..addr + 4]) - r.value in {0, TWO_32}
      ensures r == LoadI32(bytes, addr)
    {
      r := LoadI32(bytes, addr);
    }

    /** `readU32(addr)`: an unsigned little-endian 32-bit load. */
    method ReadU32(addr: int) returns (r: Option<U32>)
      ensures r.Some? <==> InBounds(bytes, addr, 4)
      ensures r.Some? ==> r.value == DecodeLE32(bytes[addr..addr + 4])
    {
      r := LoadU32(bytes, addr);
    }

    /** `readBytes(addr, len)`: a copy of `len` bytes from `addr`. */
    method ReadBytes(addr: int, len: int) returns (r: Option<seq<Byte>>)
      ensures r.Some? <==> InBounds(bytes, addr, len)
      ensures r.Some? ==> r.value == bytes[addr..addr + len]
    {
      r := Load(bytes, addr, len);
    }
  }
}
