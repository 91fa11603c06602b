/** The scalar helpers of Maths.cs, with doubles idealised as reals. */
module Maths {

  /** `Tolerance` is declared as a double initialised from the float literal
      0.00000001f, so its value is that float's exact value, not 1e-8. */
  const Tolerance: real := 0.00000000999999993922529029077850282192230224609375

  function Abs(v: real): (r: real)
    ensures r >= 0.0 && (r == v || r == -v)
  {
    if v < 0.0 then -v else v
  }

  /** Math.Round on a double: the nearest integer; a value exactly halfway
      between two integers goes to the even one. */
  function Round(v: real): (n: int)
    ensures -0.5 <= v - n as real <= 0.5
    ensures (v - n as real == 0.5 || v - n as real == -0.5) ==> n % 2 == 0
  {
    var f := v.Floor;
    var d := v - f as real;
    if d < 0.5 then f
    else if d > 0.5 then f + 1
    else if f % 2 == 0 then f
    else f + 1
  }

  /** Snaps a value that lies within Tolerance of an integer onto that integer. */
  function Clamp(value: real): (r: real)
    ensures r == value || r == Round(value) as real
    ensures Abs(r - value) < Tolerance
  {
    if Abs(value - Round(value) as real) < Tolerance then Round(value) as real else value
  }

  predicate Equal(x: real, y: real) {
    Abs(x - y) < Tolerance
  }

  /** The float Tolerance lies just below the decimal 1e-8: a difference of
      1e-8 is not Equal, one of 0.99e-8 is. */
  lemma ToleranceValue(x: real, y: real)
    ensures 0.0 < Tolerance < 0.00000001
    ensures Abs(x - y) >= 0.00000001 ==> !Equal(x, y)
    ensures Abs(x - y) <= 0.0000000099 ==> Equal(x, y)
  {
  }

  /** Rounding an integer gives it back. */
  lemma RoundInteger(n: int)
    ensures Round(n as real) == n
  {
  }

  /** Round is determined by its two postconditions: any integer within one
      half of `v` that is even on a tie is Round(v). */
  lemma RoundUnique(v: real, m: int)
    requires -0.5 <= v - m as real <= 0.5
    requires (v - m as real == 0.5 || v - m as real == -0.5) ==> m % 2 == 0
    ensures m == Round(v)
  {
  }

  lemma ClampInteger(n: int)
    ensures Clamp(n as real) == n as real
  {
    RoundInteger(n);
  }

  lemma ClampIdempotent(v: real)
    ensures Clamp(Clamp(v)) == Clamp(v)
  {
    if Abs(v - Round(v) as real) < Tolerance {
      ClampInteger(Round(v));
    }
  }

  lemma EqualReflexive(x: real)
    ensures Equal(x, x)
  {
  }

  lemma EqualSymmetric(x: real, y: real)
    ensures Equal(x, y) <==> Equal(y, x)
  {
  }

  /** A product, with the sign facts that the rest of the model relies on. */
  function Product(a: real, b: real): (r: real)
    ensures a > 0.0 && b > 0.0 ==> r > 0.0
    ensures a < 0.0 && b < 0.0 ==> r > 0.0
    ensures a == 0.0 || b == 0.0 ==> r == 0.0
  {
    a * b
  }

  /** A square: never negative, and zero only at zero. */
  function Square(a: real): (r: real)
    ensures r >= 0.0
    ensures a != 0.0 ==> r > 0.0
  {
    Product(a, a)
  }

  /** MathF.Cos and MathF.Sin, described by the values at zero and the
      Pythagorean identity. */
  ghost predicate IsTrig(cos: real -> real, sin: real -> real) {
    && cos(0.0) == 1.0 && sin(0.0) == 0.0
    && forall t :: Square(cos(t)) + Square(sin(t)) == 1.0
  }

  /** The square root the library takes from MathF.Sqrt, described by what it
      returns on the non-negative reals. */
  ghost predicate IsSqrt(sqrt: real -> real) {
    && sqrt(0.0) == 0.0
    && forall r :: 0.0 <= r ==> 0.0 <= sqrt(r) && Square(sqrt(r)) == r
  }

  /** The root of a positive number is positive. */
  lemma SqrtPositive(sqrt: real -> real, r: real)
    requires IsSqrt(sqrt) && r > 0.0
    ensures sqrt(r) > 0.0
  {
    assert Square(sqrt(r)) == r;
  }

  /** The root is zero exactly at zero. */
  lemma SqrtZero(sqrt: real -> real, r: real)
    requires IsSqrt(sqrt) && r >= 0.0
    ensures sqrt(r) == 0.0 <==> r == 0.0
  {
    if r > 0.0 {
      SqrtPositive(sqrt, r);
    }
  }

  lemma ProductPositive(a: real, b: real)
    requires a > 0.0 && b > 0.0
    ensures a * b > 0.0
  {
  }

  /** A positive factor cancels: c * x == y with y == c forces x == 1. */
  lemma CancelFactor(c: real, x: real, y: real)
    requires c > 0.0 && c * x == y && y == c
    ensures x == 1.0
  {
  }

  /** b*b - a*a = (b - a)(b + a). */
  lemma SquareDifference(a: real, b: real)
    ensures Square(b) - Square(a) == Product(b - a, b + a)
  {
  }

  /** Squaring is monotone on the non-negative reals. */
  lemma SquareMonotone(a: real, b: real)
    requires 0.0 <= a <= b
    ensures Square(a) <= Square(b)
  {
    SquareDifference(a, b);
  }

  /** Squaring is strictly monotone on the non-negative reals. */
  lemma SquareStrictlyMonotone(a: real, b: real)
    requires 0.0 <= a < b
    ensures Square(a) < Square(b)
  {
    SquareDifference(a, b);
  }

  /** For a non-negative bound k, sqrt(r) <= k exactly when r <= k*k. */
  lemma SqrtAtMost(sqrt: real -> real, r: real, k: real)
    requires IsSqrt(sqrt) && 0.0 <= r && 0.0 <= k
    ensures sqrt(r) <= k <==> r <= Square(k)
  {
    var s := sqrt(r);
    assert 0.0 <= s && Square(s) == r;
    if s <= k {
      SquareMonotone(s, k);
    } else {
      SquareStrictlyMonotone(k, s);
    }
  }
}
