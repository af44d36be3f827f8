/** Scalar helpers shared by the model: the C macros of mc_type.h and C's conversions. */
module Numeric {

  function Abs(x: real): real {
    if x > 0.0 then x else -x
  }

  function Min(x: real, y: real): real {
    if x < y then x else y
  }

  function Max(x: real, y: real): real {
    if x > y then x else y
  }

  /** `CLAMP`: the upper bound wins when the bounds cross. */
  function Clamp(x: real, lo: real, hi: real): real {
    Min(hi, Max(x, lo))
  }

  /** `utils_truncate_number`. */
  function Truncate(x: real, lo: real, hi: real): real {
    if x > hi then hi else if x < lo then lo else x
  }

  function TruncateInt(x: int, lo: int, hi: int): int {
    if x > hi then hi else if x < lo then lo else x
  }

  function Sq(x: real): real {
    x * x
  }

  /** Multiplication by a factor, named so that proofs can keep the product folded. */
  function Scale(k: real, x: real): real {
    k * x
  }

  function AtLeastOne(n: int): int {
    if n < 1 then 1 else n
  }

  /** C's conversion from a floating value to an integer, toward zero. */
  function Trunc(x: real): int {
    if x >= 0.0 then x.Floor else -((-x).Floor)
  }

  /** Conversion to an unsigned 16-bit value. */
  function ToU16(x: int): int {
    x % 0x1_0000
  }

  function ToU32(x: int): int {
    x % 0x1_0000_0000
  }

  /** C's `%` on integers: the remainder takes the sign of the dividend. */
  function CRem(a: int, b: int): int
    requires b > 0
  {
    if a >= 0 then a % b else -((-a) % b)
  }

  /** `sqrt` behaves as the square root on the non-negative reals. */
  ghost predicate IsSqrt(sqrt: real -> real) {
    forall x :: x >= 0.0 ==> sqrt(x) >= 0.0 && Sq(sqrt(x)) == x
  }

  lemma NonNegativeProduct(a: real, b: real)
    requires a >= 0.0 && b >= 0.0
    ensures a * b >= 0.0
  {
  }

  lemma PositiveProduct(a: real, b: real)
    ensures a > 0.0 && b > 0.0 ==> Scale(a, b) > 0.0
  {
  }

  lemma DifferenceOfSquares(x: real, m: real)
    ensures Scale(x - m, x + m) == Sq(x) - Sq(m)
    ensures Scale(-m - x, m - x) == Sq(x) - Sq(m)
  {
  }

  lemma SquareOrder(x: real, m: real)
    requires m >= 0.0 && Sq(x) <= Sq(m)
    ensures -m <= x <= m
  {
    hide Sq, Scale;
    DifferenceOfSquares(x, m);
    PositiveProduct(x - m, x + m);
    PositiveProduct(-m - x, m - x);
  }

  lemma SquareMonotone(x: real, m: real)
    requires -m <= x <= m
    ensures Sq(x) <= Sq(m)
  {
    assert (m - x) * (m + x) >= 0.0;
    assert (m - x) * (m + x) == m * m - x * x;
  }

  lemma SquareNonNegative(x: real)
    ensures Sq(x) >= 0.0
  {
  }

  lemma MulOrder(a: real, b: real, k: real)
    requires a <= b && k >= 0.0
    ensures a * k <= b * k
  {
    assert (b - a) * k >= 0.0;
  }

  lemma ScaleOrder(k: real, x: real, y: real)
    requires k >= 0.0 && x <= y
    ensures Scale(k, x) <= Scale(k, y)
  {
    assert k * (y - x) >= 0.0;
  }

  lemma ScaleStrict(k: real, x: real, y: real)
    requires k > 0.0
    ensures x < y <==> Scale(k, x) < Scale(k, y)
  {
    assert k * y - k * x == k * (y - x);
    assert x < y ==> k * (y - x) > 0.0;
    assert y <= x ==> k * (x - y) >= 0.0;
  }

  lemma OneLess(x: real, a: real)
    requires a > 0.0
    ensures (x - a) / a == x / a - 1.0
  {
    assert (x - a) / a == x / a - a / a;
  }

  lemma QuotientAtLeastOne(x: real, a: real)
    requires a > 0.0
    ensures x >= a <==> x / a >= 1.0
  {
    var q := x / a;
    assert q * a == x;
    if q >= 1.0 {
      assert (q - 1.0) * a >= 0.0;
    } else {
      assert (1.0 - q) * a > 0.0;
    }
  }

  lemma ScaleNext(n: nat, x: real)
    ensures Scale((n + 1) as real, x) == Scale(n as real, x) + x
    ensures Scale(0.0, x) == 0.0
  {
  }

  lemma QuotientMonotone(x: real, y: real, a: real)
    requires a > 0.0 && x <= y
    ensures x / a <= y / a
  {
    assert Scale(a, x / a) == x && Scale(a, y / a) == y;
    ScaleStrict(a, y / a, x / a);
    hide Scale;
  }
}
