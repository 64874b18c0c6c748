/** The two routines of Python's `math` module that the scorer calls, `erf`
    and `sqrt`, cannot be computed exactly over the reals. The model takes
    them as function values and relies only on the properties that `Valid`
    states about them: the error function is non-decreasing, bounded by
    [-1, 1] and zero at zero; the square root is the non-negative root of
    every non-negative real. Exact real arithmetic stands in for IEEE-754
    doubles throughout.
 */
module Numerics {

  /** The library routines `math.erf` and `math.sqrt`. */
  datatype MathLib = MathLib(erf: real -> real, sqrt: real -> real)

  ghost predicate ErfLike(erf: real -> real)
  {
    && (forall x :: -1.0 <= erf(x) <= 1.0)
    && (forall x, y :: x <= y ==> erf(x) <= erf(y))
    && erf(0.0) == 0.0
  }

  ghost predicate SqrtLike(sqrt: real -> real)
  {
    forall x :: 0.0 <= x ==> 0.0 <= sqrt(x) && sqrt(x) * sqrt(x) == x
  }

  ghost predicate Valid(lib: MathLib)
  {
    ErfLike(lib.erf) && SqrtLike(lib.sqrt)
  }

  /** The square root of two is a positive divisor. */
  lemma SqrtTwoPositive(lib: MathLib)
    requires Valid(lib)
    ensures lib.sqrt(2.0) > 0.0
  {
    var r := lib.sqrt(2.0);
    assert 0.0 <= r && r * r == 2.0;
  }

  lemma DivideMonotone(a: real, b: real, c: real)
    requires a <= b && c > 0.0
    ensures a / c <= b / c
  {
    assert b / c - a / c == (b - a) / c;
  }

  /** The standard normal cumulative distribution function, written the way
      the scorer writes it: 0.5 * (1 + erf(z / sqrt(2))). */
  function Phi(lib: MathLib, z: real): (p: real)
    requires Valid(lib)
    ensures 0.0 <= p <= 1.0
  {
    SqrtTwoPositive(lib);
    0.5 * (1.0 + lib.erf(z / lib.sqrt(2.0)))
  }

  lemma PhiMonotone(lib: MathLib, a: real, b: real)
    requires Valid(lib) && a <= b
    ensures Phi(lib, a) <= Phi(lib, b)
  {
    SqrtTwoPositive(lib);
    DivideMonotone(a, b, lib.sqrt(2.0));
  }

  /** A z-score of zero sits exactly at the median of the distribution. */
  lemma PhiAtZero(lib: MathLib)
    requires Valid(lib)
    ensures Phi(lib, 0.0) == 0.5
  {
    SqrtTwoPositive(lib);
    assert 0.0 / lib.sqrt(2.0) == 0.0;
  }

  /** Python's `max(0, min(100, x))`, used by both the per-instrument score
      and the composite. */
  function Clamp(x: real): (r: real)
    ensures 0.0 <= r <= 100.0
    ensures 0.0 <= x <= 100.0 ==> r == x
    ensures x < 0.0 ==> r == 0.0
    ensures x > 100.0 ==> r == 100.0
  {
    var upper := if 100.0 < x then 100.0 else x;
    if 0.0 < upper then upper else 0.0
  }

  lemma ClampMonotone(x: real, y: real)
    requires x <= y
    ensures Clamp(x) <= Clamp(y)
  {
  }
}
