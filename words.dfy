/** Machine words shared by the host (Java) and the guest (WebAssembly):
    bytes, 32- and 64-bit integers, and the casts between them. */
module Words {

  /** The conventional Some/None wrapper, used for bounds-checked accesses. */
  datatype Option<+T> = None | Some(value: T)

  const TWO_8: int := 0x100
  const TWO_32: int := 0x1_0000_0000
  const MIN_INT32: int := -0x8000_0000
  const MAX_INT32: int := 0x7FFF_FFFF

  /** One byte of guest linear memory. */
  newtype Byte = b: int | 0 <= b < 0x100

  /** Java `int` and WebAssembly `i32` read as signed. */
  type Int32 = x: int | -0x8000_0000 <= x < 0x8000_0000

  /** WebAssembly `i32` read as unsigned (Go `uint32`, a 32-bit address). */
  type U32 = x: int | 0 <= x < 0x1_0000_0000

  /** Java `long`, the type in which the runtime passes arguments and results. */
  type Int64 = x: int | -0x8000_0000_0000_0000 <= x < 0x8000_0000_0000_0000

  /** Java's narrowing `(int)` cast and wrapping `int` arithmetic: keep the
      low 32 bits and read them as two's complement. */
  function ToInt32(x: int): (r: Int32)
    ensures (x - r) % TWO_32 == 0
    ensures MIN_INT32 <= x <= MAX_INT32 ==> r == x
  {
    var low := x % TWO_32;
    if low <= MAX_INT32 then low else low - TWO_32
  }

  /** The low 32 bits read as unsigned: how a guest sees an `i32` argument
      it declares as `uint32` or as a pointer. */
  function ToU32(x: int): (r: U32)
    ensures (x - r) % TWO_32 == 0
    ensures 0 <= x < TWO_32 ==> r == x
  {
    x % TWO_32
  }

  /** An unsigned 32-bit value narrowed to `int` is positive exactly when it
      is below 2^31: lengths of 2^31 and more read as negative. */
  lemma PositiveAsInt32(u: U32)
    ensures ToInt32(u) > 0 <==> 0 < u <= MAX_INT32
    ensures u > MAX_INT32 ==> ToInt32(u) == u - TWO_32
  {
  }

  /** Euclidean division by `d` undoes `lo + d * q` when `lo` is a digit. */
  lemma {:induction false} DivModDigit(lo: int, q: int, d: int)
    requires 0 <= lo < d
    ensures (lo + d * q) / d == q && (lo + d * q) % d == lo
  {
    var r := lo + d * q;
    var k := r / d - q;
    assert d * k == lo - r % d;
    if k > 0 {
      assert false;
    } else if k < 0 {
      assert false;
    }
  }

  /** Narrowing keeps exactly the low 32 bits: two values narrow to the same
      `int` iff they agree modulo 2^32. */
  lemma {:induction false} ToInt32Congruent(x: int, y: int)
    ensures ToInt32(x) == ToInt32(y) <==> (x - y) % TWO_32 == 0
  {
    var lx, ly := x % TWO_32, y % TWO_32;
    var qx, qy := x / TWO_32, y / TWO_32;
    assert x - y == (lx - ly) + TWO_32 * (qx - qy);
    if lx >= ly {
      DivModDigit(lx - ly, qx - qy, TWO_32);
    } else {
      assert x - y == (lx - ly + TWO_32) + TWO_32 * (qx - qy - 1);
      DivModDigit(lx - ly + TWO_32, qx - qy - 1, TWO_32);
    }
  }

  /** A signed value and its unsigned reading are the same 32 bits. */
  lemma SignedUnsignedRoundTrip(x: Int32)
    ensures ToInt32(ToU32(x)) == x
    ensures ToU32(ToInt32(x)) == ToU32(x)
  {
  }
}
