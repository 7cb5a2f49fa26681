/** Small facts of real arithmetic that the solver does not find unaided. */
module RealArith {

  function Abs(x: real): real { if x < 0.0 then -x else x }

  lemma MulLeft(x: real, a: real, b: real)
    requires 0.0 <= x && a <= b
    ensures x * a <= x * b
  {
  }

  lemma MulPositive(x: real, y: real)
    requires 0.0 < x && 0.0 < y
    ensures 0.0 < x * y
  {
  }

  lemma MulLeftStrict(x: real, a: real, b: real)
    requires 0.0 < x && a < b
    ensures x * a < x * b
  {
    MulPositive(x, b - a);
    assert x * (b - a) == x * b - x * a;
  }

  lemma SquareLess(a: real, b: real)
    requires 0.0 <= a < b
    ensures a * a < b * b
  {
    MulPositive(b - a, b + a);
    assert (b - a) * (b + a) == b * b - a * a;
  }

  lemma SquareLe(a: real, b: real)
    requires 0.0 <= a <= b
    ensures a * a <= b * b
  {
    if a < b { SquareLess(a, b); }
  }

  lemma SquareNonNegative(a: real)
    ensures 0.0 <= a * a
  {
    if a != 0.0 { SquarePositive(a); }
  }

  lemma SquarePositive(a: real)
    requires a != 0.0
    ensures 0.0 < a * a
  {
    if a < 0.0 {
      MulPositive(-a, -a);
      assert (-a) * (-a) == a * a;
    } else {
      MulPositive(a, a);
    }
  }

  /** A product other than zero has no zero factor. */
  lemma NonZeroFactor(a: real, b: real)
    requires a * b != 0.0
    ensures a != 0.0
  {
  }

  /** Two positive multiples of the same unit vector (c, s) are parallel and point the same way. */
  lemma SameRay(radius: real, h: real, c: real, s: real)
    requires 0.0 < radius && 0.0 < h && c * c + s * s == 1.0
    ensures (radius * c) * (h * s) == (radius * s) * (h * c)
    ensures 0.0 < (radius * c) * (h * c) + (radius * s) * (h * s)
  {
    assert (radius * c) * (h * c) + (radius * s) * (h * s) == (radius * h) * (c * c + s * s);
    MulPositive(radius, h);
  }

  lemma AbsSquare(a: real)
    ensures Abs(a) * Abs(a) == a * a
  {
  }

  /** The only non-negative square root of a square. */
  lemma SquareRootUnique(a: real, b: real)
    requires 0.0 <= a && 0.0 <= b && a * a == b * b
    ensures a == b
  {
    if a < b {
      SquareLess(a, b);
    } else if b < a {
      SquareLess(b, a);
    }
  }

  /** Squaring is monotone on magnitudes. */
  lemma SquareBelow(a: real, b: real)
    requires Abs(a) < b
    ensures a * a < b * b
  {
    AbsSquare(a);
    SquareLess(Abs(a), b);
  }

  /** A quotient by a positive number keeps the bounds of the numerator. */
  lemma QuotientBetween(n: real, w: real, lo: real, hi: real)
    requires 0.0 < w && w * lo <= n <= w * hi
    ensures lo <= n / w <= hi
  {
    var q := n / w;
    assert w * q == n;
    if q < lo { MulLeftStrict(w, q, lo); }
    if hi < q { MulLeftStrict(w, hi, q); }
  }
}
