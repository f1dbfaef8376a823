/**
 Products of reals under a name, with the few laws the geometry needs. Naming them keeps nonlinear
 terms apart: the proofs use these laws instead of the solver's nonlinear arithmetic.
 */
module Reals {

  function Times(a: real, b: real): real {
    a * b
  }

  function Abs(x: real): real {
    if x < 0.0 then -x else x
  }

  lemma QuotientTimes(gap: real, travel: real)
    requires travel != 0.0
    ensures Times(gap / travel, travel) == gap
  {
  }

  lemma QuotientIsUnique(f: real, gap: real, travel: real)
    requires travel != 0.0 && Times(f, travel) == gap
    ensures gap / travel == f
  {
  }

  lemma PositiveQuotient(a: real, b: real)
    requires a > 0.0 && b > 0.0
    ensures a / b > 0.0
  {
  }

  // The solver rewrites a * a > 0 away, so the product is a parameter of its own here.
  lemma PositiveProduct(a: real, b: real, product: real)
    requires a > 0.0 && b > 0.0 && product == a * b
    ensures product > 0.0
  {
  }

  lemma NonNegativeProduct(a: real, b: real, product: real)
    requires a >= 0.0 && b >= 0.0 && product == a * b
    ensures product >= 0.0
  {
  }

  lemma TimesSign(a: real, b: real)
    requires b > 0.0
    ensures Times(a, b) > 0.0 <==> a > 0.0
    ensures Times(a, b) < 0.0 <==> a < 0.0
  {
    if a > 0.0 {
      PositiveProduct(a, b, Times(a, b));
    } else if a < 0.0 {
      PositiveProduct(-a, b, -Times(a, b));
    }
  }

  lemma TimesMonotone(a: real, b: real, s: real)
    requires a <= b && s >= 0.0
    ensures Times(a, s) <= Times(b, s)
  {
    NonNegativeProduct(b - a, s, Times(b, s) - Times(a, s));
  }

  lemma TimesStrictlyMonotone(a: real, b: real, s: real)
    requires a < b && s > 0.0
    ensures Times(a, s) < Times(b, s)
  {
    PositiveProduct(b - a, s, Times(b, s) - Times(a, s));
  }

  lemma TimesAbs(a: real, b: real)
    requires b > 0.0
    ensures Abs(Times(a, b)) == Times(Abs(a), b)
  {
    TimesSign(a, b);
  }

  lemma TimesCommutes(a: real, b: real)
    ensures Times(a, b) == Times(b, a)
  {
  }

  lemma TimesAdds(a: real, b: real, s: real)
    ensures Times(a + b, s) == Times(a, s) + Times(b, s)
  {
  }

  lemma TimesOne(a: real)
    ensures Times(a, 1.0) == a && Times(1.0, a) == a && Times(0.0, a) == 0.0 && Times(a, 0.0) == 0.0
  {
  }

  function Square(a: real): real {
    a * a
  }

  lemma SquareSign(a: real)
    ensures Square(a) >= 0.0 && (a != 0.0 ==> Square(a) > 0.0)
  {
    if a > 0.0 {
      PositiveProduct(a, a, Square(a));
    } else if a < 0.0 {
      PositiveProduct(-a, -a, Square(a));
    }
  }

  lemma SquareIsMonotone(h: real, m: real)
    requires 0.0 <= h < m
    ensures Square(h) < Square(m)
  {
    PositiveProduct(m - h, m, m * m - h * m);
    NonNegativeProduct(h, m - h, h * m - h * h);
  }

  lemma RootIsMonotone(x: real, h: real)
    requires h >= 0.0 && Square(x) <= Square(h)
    ensures Abs(x) <= h
  {
    assert Square(Abs(x)) == Square(x);
    if h < Abs(x) {
      SquareIsMonotone(h, Abs(x));
    }
  }

  lemma RootOfPositive(h: real)
    requires h >= 0.0 && Square(h) > 0.0
    ensures h > 0.0
  {
  }

  lemma SquareOfTimes(a: real, k: real)
    ensures Square(Times(a, k)) == Times(Square(a), Square(k))
  {
    var ak := a * k;
    assert ak * a == (a * a) * k;
    assert (ak * a) * k == ((a * a) * k) * k;
  }

  /** Scaling both legs of a right triangle scales the third side. */
  lemma ScaledSquares(x: real, y: real, h: real, k: real)
    requires Square(h) == Square(x) + Square(y)
    ensures Square(Times(h, k)) == Square(Times(x, k)) + Square(Times(y, k))
  {
    SquareOfTimes(h, k);
    SquareOfTimes(x, k);
    SquareOfTimes(y, k);
    TimesAdds(Square(x), Square(y), Square(k));
  }

  /** A real number with no fractional part. */
  predicate IsWhole(r: real) {
    r.Floor as real == r
  }

  lemma SameWhole(a: real, b: real)
    requires IsWhole(a) && a == b
    ensures IsWhole(b)
  {
  }
}
