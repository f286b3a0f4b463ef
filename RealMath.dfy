/** Real-number facts shared by the planar and the spatial simulation.

    `double` is modelled as `real`. The library square root `std::sqrt` is not
    part of this model: every operation that needs it takes it as a parameter
    `sqrt: real -> real` and requires `IsSqrt(sqrt)`, the property that
    defines the non-negative square root on non-negative arguments.
 */
module RealMath {

  /** The identity. It is a solver aid only: `Sq` multiplies by it so that
      every square reaches the solver as a product of two distinct terms,
      because a literal `x * x` over reals can leave the nonlinear arithmetic
      undecided. */
  function Id(x: real): real { x }

  /** `x` squared, the `x * x` of the C++ norm computations. */
  function Sq(x: real): real { x * Id(x) }

  /** `sqrt` returns the non-negative square root of every non-negative real. */
  ghost predicate IsSqrt(sqrt: real -> real) {
    forall x :: 0.0 <= x ==> 0.0 <= sqrt(x) && Sq(sqrt(x)) == x
  }

  /** The square root of a square is the absolute value of the base: `IsSqrt`
      pins `sqrt` down completely. */
  lemma SqrtOfSquare(sqrt: real -> real, s: real)
    requires IsSqrt(sqrt)
    ensures sqrt(Sq(s)) == if s < 0.0 then -s else s
  {
    SquareNonNegative(s);
    var r := sqrt(Sq(s));
    var a := if s < 0.0 then -s else s;
    assert Sq(a) == Sq(s);
    assert 0.0 <= r && Sq(r) == Sq(a);
    if r < a {
      SquareLess(r, a);
    } else if a < r {
      SquareLess(a, r);
    }
  }

  /** The root of a positive number is positive, so dividing by it is defined. */
  lemma SqrtPositive(sqrt: real -> real, x: real)
    requires IsSqrt(sqrt)
    requires 0.0 < x
    ensures 0.0 < sqrt(x)
  {
    assert Sq(sqrt(x)) == x;
  }

  /** A strict comparison of a root with a bound can be made on squares:
      `sqrt(x) < bound` exactly when the bound is positive and `x < Sq(bound)`.
      In particular a root equal to the bound is not below it. */
  lemma SqrtBelow(sqrt: real -> real, x: real, bound: real)
    requires IsSqrt(sqrt)
    requires 0.0 <= x
    ensures sqrt(x) < bound <==> 0.0 < bound && x < Sq(bound)
  {
    var r := sqrt(x);
    assert 0.0 <= r && Sq(r) == x;
    if r < bound {
      SquareLess(r, bound);
    } else if 0.0 < bound {
      SquareMonotone(bound, r);
    }
  }

  /** Squaring is strictly increasing on the non-negative reals. */
  lemma SquareLess(a: real, b: real)
    requires 0.0 <= a < b
    ensures Sq(a) < Sq(b)
  {
    assert Sq(a) <= a * b;
    assert a * b < Sq(b);
  }

  /** Squaring is increasing on the non-negative reals. */
  lemma SquareMonotone(a: real, b: real)
    requires 0.0 <= a <= b
    ensures Sq(a) <= Sq(b)
  {
    assert Sq(a) <= a * b;
    assert a * b <= Sq(b);
  }

  /** The square of a non-zero real is positive. */
  lemma SquarePositive(x: real)
    requires x != 0.0
    ensures 0.0 < Sq(x)
  {
  }

  lemma SquareNonNegative(x: real)
    ensures 0.0 <= Sq(x)
  {
  }

  lemma SquareOfProduct(a: real, b: real)
    ensures Sq(a * b) == Sq(a) * Sq(b)
  {
  }

  lemma SquareOfDifference(a: real, b: real)
    ensures Sq(a - b) == Sq(a) - 2.0 * (a * b) + Sq(b)
  {
  }
}
