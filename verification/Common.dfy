/** Small shared vocabulary: optional values, the C++ unsigned 32-bit integers the
    host hands over, and the byte arithmetic every component repeats. */
module Common {

  datatype Option<+T> = None | Some(value: T)

  /** A raw byte of a host buffer. */
  type byte = bv8

  const TWO_POW_32: int := 0x1_0000_0000

  /** An `unsigned int` of the source. */
  type u32 = x: int | 0 <= x < 0x1_0000_0000

  /** An `int` of the source. */
  type i32 = x: int | -0x8000_0000 <= x < 0x8000_0000

  /** `static_cast<unsigned int>` of an `int`. */
  function ToU32(x: i32): (r: u32)
    ensures x >= 0 ==> r == x
    ensures x < 0 ==> r == x + TWO_POW_32
  {
    if x >= 0 then x else x + TWO_POW_32
  }

  /** `static_cast<size_t>` of an `int` (64-bit `size_t`). */
  function ToU64(x: i32): (r: nat)
    ensures x >= 0 ==> r == x
    ensures x < 0 ==> r >= 0x1_0000_0000_0000_0000 - 0x8000_0000
  {
    if x >= 0 then x else x + 0x1_0000_0000_0000_0000
  }

  function Min(a: int, b: int): (r: int)
    ensures r <= a && r <= b && (r == a || r == b)
  {
    if a < b then a else b
  }

  /** `static_cast<int>` of an unsigned 32-bit value (two's complement reinterpretation). */
  function AsInt32(u: u32): (r: int)
    ensures -0x8000_0000 <= r < 0x8000_0000
    ensures (r + TWO_POW_32) % TWO_POW_32 == u
  {
    if u < 0x8000_0000 then u else u - TWO_POW_32
  }

  /** `static_cast<int>(count - 1)` for an unsigned `count`: the unsigned subtraction
      wraps at zero, and the cast turns 0xFFFF_FFFF into -1. */
  function LastIndex(count: u32): (r: int)
    ensures count == 0 ==> r == -1
    ensures 0 < count <= 0x8000_0000 ==> r == count - 1
  {
    AsInt32((count + TWO_POW_32 - 1) % TWO_POW_32)
  }

  /** `ceil(bitDepth / 8.0)`: the number of whole bytes that hold one sample. */
  function BytesPerSample(bitDepth: int): (r: nat)
    requires bitDepth >= 0
    ensures 8 * r >= bitDepth
    ensures r == 0 || 8 * (r - 1) < bitDepth
  {
    (bitDepth + 7) / 8
  }

  /** Multiplying by a natural number keeps an order. */
  lemma MulLeq(a: nat, b: nat, c: nat)
    requires a <= b
    ensures a * c <= b * c
  {
    assert b * c == a * c + (b - a) * c;
  }

  /** Concatenation regroups. */
  lemma Associative<T>(a: seq<T>, b: seq<T>, c: seq<T>)
    ensures a + b + c == a + (b + c)
  {
  }
}
