/** Java's numeric conversions and operators as used by the weather formatter,
    over exact reals and unbounded integers. IEEE-754 rounding of doubles is
    not modelled: a double is an exact real here. */
module JavaNumerics {

  const IntMin: int := -0x8000_0000
  const IntMax: int := 0x7FFF_FFFF

  predicate InIntRange(n: int) {
    IntMin <= n <= IntMax
  }

  /** Truncation toward zero: the integer part of x, dropping the fraction
      whatever the sign. */
  function Trunc(x: real): (n: int)
    ensures 0.0 <= x ==> n as real <= x < n as real + 1.0
    ensures x < 0.0 ==> n as real - 1.0 < x <= n as real
  {
    if 0.0 <= x then x.Floor else -((-x).Floor)
  }

  /** `Double.intValue()` and the `(int)` cast of a double: truncation toward
      zero, saturating at the bounds of a 32-bit int. */
  function DoubleToInt(x: real): (n: int)
    ensures InIntRange(n)
    ensures InIntRange(Trunc(x)) ==> n == Trunc(x)
    ensures Trunc(x) > IntMax ==> n == IntMax
    ensures Trunc(x) < IntMin ==> n == IntMin
  {
    var t := Trunc(x);
    if t > IntMax then IntMax else if t < IntMin then IntMin else t
  }

  /** The two's-complement value of the low 32 bits of n: what Java's `int`
      addition and the `(int)` cast of a `long` produce. */
  function Wrap32(n: int): (w: int)
    ensures InIntRange(w)
    ensures (w - n) % 0x1_0000_0000 == 0
    ensures InIntRange(n) ==> w == n
  {
    (n - IntMin) % 0x1_0000_0000 + IntMin
  }

  /** Java's `int` division by a positive divisor: the quotient is truncated
      toward zero, so -7 / 2 is -3 and not -4. */
  function IntDiv(a: int, d: int): (q: int)
    requires 0 < d
    ensures 0 <= a ==> q * d <= a < q * d + d
    ensures a < 0 ==> q * d - d < a <= q * d
  {
    if 0 <= a then a / d else -((-a) / d)
  }

  /** Java's `%` on doubles with the divisor 360, the only one the formatter
      uses: the remainder of truncated division, which keeps the sign of the
      dividend. */
  function DoubleRem360(x: real): (r: real)
    ensures 0.0 <= x ==> 0.0 <= r < 360.0
    ensures x < 0.0 ==> -360.0 < r <= 0.0
    ensures -360.0 < x < 360.0 ==> r == x
  {
    x - 360.0 * Trunc(x / 360.0) as real
  }

  /** `Math.round(double)`: the nearest integer, ties going up (toward
      positive infinity), as `floor(x + 0.5)`. */
  function MathRound(x: real): (n: int)
    ensures n as real - 0.5 <= x < n as real + 0.5
  {
    (x + 0.5).Floor
  }

  /** Two bearings of the same sign a full turn apart leave the same
      remainder; with the identity on (-360, 360) this fixes the remainder of
      every bearing. */
  lemma {:induction false} DoubleRem360Periodic(x: real)
    ensures 0.0 <= x ==> DoubleRem360(x + 360.0) == DoubleRem360(x)
    ensures x + 360.0 <= 0.0 ==> DoubleRem360(x) == DoubleRem360(x + 360.0)
  {
    assert (x + 360.0) / 360.0 == x / 360.0 + 1.0;
    if 0.0 <= x {
      assert Trunc((x + 360.0) / 360.0) == Trunc(x / 360.0) + 1;
    } else if x + 360.0 <= 0.0 {
      assert Trunc((x + 360.0) / 360.0) == Trunc(x / 360.0) + 1;
    }
  }
}
