/**
 * The C# integer operators the monitor relies on: `/` and `%` on `int`
 * truncate toward zero, and `int` / `uint` arithmetic wraps modulo 2^32
 * (the program is compiled without `checked`).
 */
module Int32Arith {

  const TwoTo32: int := 0x1_0000_0000
  const Int32Min: int := -0x8000_0000
  const Int32Max: int := 0x7FFF_FFFF

  /** A value of C#'s 32-bit signed `int`. */
  type i32 = x: int | Int32Min <= x <= Int32Max

  /** A value of C#'s 32-bit unsigned `uint`. */
  type u32 = x: int | 0 <= x < TwoTo32

  /** Result of an unchecked `int` operation whose exact value is `x`. */
  function Wrap32(x: int): (r: i32)
    ensures (r - x) % TwoTo32 == 0
    ensures Int32Min <= x <= Int32Max ==> r == x
  {
    (x - Int32Min) % TwoTo32 + Int32Min
  }

  /** Result of an unchecked `uint` operation whose exact value is `x`. */
  function WrapU32(x: int): (r: u32)
    ensures (r - x) % TwoTo32 == 0
    ensures 0 <= x < TwoTo32 ==> r == x
  {
    x % TwoTo32
  }

  /** C#'s `a / b` for a positive divisor: the quotient rounded toward zero. */
  function Quot(a: int, b: int): int
    requires b > 0
  {
    if a >= 0 then a / b else -((-a) / b)
  }

  /**
   * C#'s `a % b` for a positive divisor. Together with `Quot` it splits `a`
   * into quotient and remainder, the remainder taking the sign of `a`; this
   * pins down the truncating quotient uniquely.
   */
  function Rem(a: int, b: int): (r: int)
    requires b > 0
    ensures a == Quot(a, b) * b + r
    ensures a >= 0 ==> 0 <= r < b
    ensures a < 0 ==> -b < r <= 0
  {
    a - Quot(a, b) * b
  }
}
