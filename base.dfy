/**
 * Value types shared by the whole model: an optional value, the C integer
 * widths the plugin uses, and the two arithmetic conversions the panel
 * performs implicitly (wrap-around into an unsigned width, truncation of a
 * halved value toward zero).
 */
module Base {

  datatype Option<T> = None | Some(value: T)

  const TWO_31: int := 0x8000_0000
  const TWO_32: int := 0x1_0000_0000
  const TWO_63: int := 0x8000_0000_0000_0000
  const TWO_64: int := 0x1_0000_0000_0000_0000

  type int32 = x: int | -0x8000_0000 <= x < 0x8000_0000
  type uint32 = x: int | 0 <= x < 0x1_0000_0000
  type int64 = x: int | -0x8000_0000_0000_0000 <= x < 0x8000_0000_0000_0000
  type uint64 = x: int | 0 <= x < 0x1_0000_0000_0000_0000

  /** C conversion of any integer to `uint32_t`: reduction modulo 2^32. */
  function ToUint32(x: int): (r: uint32)
    ensures (x - r) % TWO_32 == 0
    ensures 0 <= x < TWO_32 ==> r == x
  {
    x % TWO_32
  }

  /** C conversion of any integer to `uint64_t`: reduction modulo 2^64. */
  function ToUint64(x: int): (r: uint64)
    ensures (x - r) % TWO_64 == 0
    ensures 0 <= x < TWO_64 ==> r == x
  {
    x % TWO_64
  }

  /** Two's-complement narrowing to a 32-bit `int`, as `(int) u` does on a `uint64_t`. */
  function ToInt32(x: int): (r: int32)
    ensures (x - r) % TWO_32 == 0
    ensures -TWO_31 <= x < TWO_31 ==> r == x
  {
    var m := x % TWO_32;
    if m < TWO_31 then m else m - TWO_32
  }

  /** Two's-complement narrowing to a signed 64-bit integer, as returning a `uint64_t` as `qint64` does. */
  function ToInt64(x: int): (r: int64)
    ensures (x - r) % TWO_64 == 0
    ensures -TWO_63 <= x < TWO_63 ==> r == x
  {
    var m := x % TWO_64;
    if m < TWO_63 then m else m - TWO_64
  }

  /** `1 << n`, without the width limit of the C shift. */
  function Pow2(n: nat): (r: nat)
    ensures r >= 1
  {
    if n == 0 then 1 else 2 * Pow2(n - 1)
  }

  /** C's integer `x / d`: the quotient truncated toward zero, so the remainder takes the sign of `x`. */
  function TruncDiv(x: int, d: int): (q: int)
    requires d > 0
    ensures x >= 0 ==> 0 <= x - q * d < d
    ensures x < 0 ==> -d < x - q * d <= 0
  {
    if x >= 0 then x / d else -((-x) / d)
  }

  /** `x / 2` computed in floating point and converted back to an integer (truncation toward zero). */
  function HalveTowardZero(x: int): (r: int)
    ensures x >= 0 ==> 0 <= 2 * r <= x < 2 * r + 2
    ensures x < 0 ==> 2 * r - 2 < x <= 2 * r <= 0
  {
    TruncDiv(x, 2)
  }
}
