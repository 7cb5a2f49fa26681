/** util.go: angle conversion, clamping, point arithmetic and the c-space clamp. */
module Util {
  import opened RealArith
  import opened Trigonometry
  import opened Points

  /** Pixels per metre in the GUI. */
  const PixelToMeters: real := 500.0

  function Min(a: real, b: real): real { if a <= b then a else b }
  function Max(a: real, b: real): real { if a <= b then b else a }

  /** Radians to degrees: the result is to 180 what `n` is to pi. */
  function ToDegrees(n: real): (d: real)
    ensures d * Pi == n * 180.0
  {
    (n * 180.0) / Pi
  }

  /** Degrees to radians: the result is to pi what `n` is to 180. */
  function ToRadians(n: real): (r: real)
    ensures r * 180.0 == n * Pi
  {
    (n * Pi) / 180.0
  }

  lemma DegreesRadiansRoundTrip(n: real)
    ensures ToRadians(ToDegrees(n)) == n
    ensures ToDegrees(ToRadians(n)) == n
  {
  }

  /**
   * Clamps by the sign of `n`: a negative value is only bounded below and a
   * non-negative one only above (`math.Signbit`; reals have no -0).
   */
  function OutputClamp(n: real, min: real, max: real): (r: real)
    ensures min <= n <= max ==> r == n
    ensures min <= 0.0 <= max ==> min <= r <= max
    ensures n < 0.0 ==> r == n || r == min
    ensures 0.0 <= n ==> r == n || r == max
    ensures n < 0.0 ==> min <= r && n <= r
    ensures 0.0 <= n ==> r <= max && r <= n
  {
    if n < 0.0 then Max(n, min) else Min(n, max)
  }

  /** The mean of `a` and `b` weighted by `wa` and `wb`. */
  function WeightedMean(a: real, wa: real, b: real, wb: real): real
    requires wa + wb != 0.0
  {
    (wa * a + wb * b) / (wa + wb)
  }

  /** The centre of mass of two point masses. */
  function CenterOfMass(p1: Point, m1: real, p2: Point, m2: real): (r: Point)
    requires m1 + m2 != 0.0
    ensures m1 == m2 ==> r == Point((p1.x + p2.x) / 2.0, (p1.y + p2.y) / 2.0)
  {
    Point(WeightedMean(p1.x, m1, p2.x, m2), WeightedMean(p1.y, m1, p2.y, m2))
  }

  predicate Between(v: real, a: real, b: real) {
    Min(a, b) <= v <= Max(a, b)
  }

  lemma WeightedMeanBetween(a: real, wa: real, b: real, wb: real)
    requires 0.0 < wa && 0.0 < wb
    ensures Between(WeightedMean(a, wa, b, wb), a, b)
  {
    var n, w := wa * a + wb * b, wa + wb;
    if a <= b {
      MulLeft(wb, a, b);
      MulLeft(wa, a, b);
      assert w * a <= n <= w * b;
      QuotientBetween(n, w, a, b);
    } else {
      MulLeft(wa, b, a);
      MulLeft(wb, b, a);
      assert w * b <= n <= w * a;
      QuotientBetween(n, w, b, a);
    }
  }

  /** With positive masses each coordinate lies between the two inputs'. */
  lemma CenterOfMassBetween(p1: Point, m1: real, p2: Point, m2: real)
    requires 0.0 < m1 && 0.0 < m2
    ensures Between(CenterOfMass(p1, m1, p2, m2).x, p1.x, p2.x)
    ensures Between(CenterOfMass(p1, m1, p2, m2).y, p1.y, p2.y)
  {
    WeightedMeanBetween(p1.x, m1, p2.x, m2);
    WeightedMeanBetween(p1.y, m1, p2.y, m2);
  }

  /** The Euclidean distance between two points (`math.Hypot`). */
  function PointDistance(t: Trig, p1: Point, p2: Point): (d: real)
  {
    t.hypot(p2.x - p1.x, p2.y - p1.y)
  }

  /** The distance is non-negative and its square is the sum of the squared gaps. */
  lemma PointDistanceNorm(t: Trig, p1: Point, p2: Point)
    requires Lawful(t)
    ensures 0.0 <= PointDistance(t, p1, p2)
    ensures PointDistance(t, p1, p2) * PointDistance(t, p1, p2) == SquaredGap(p2, p1)
  {
    HypotNorm(t, p2.x - p1.x, p2.y - p1.y);
  }

  lemma PointDistanceSymmetric(t: Trig, p1: Point, p2: Point)
    requires Lawful(t)
    ensures PointDistance(t, p1, p2) == PointDistance(t, p2, p1)
  {
    PointDistanceNorm(t, p1, p2);
    PointDistanceNorm(t, p2, p1);
    assert SquaredGap(p2, p1) == SquaredGap(p1, p2);
    SquareRootUnique(PointDistance(t, p1, p2), PointDistance(t, p2, p1));
  }

  lemma PointDistanceToSelf(t: Trig, p: Point)
    requires Lawful(t)
    ensures PointDistance(t, p, p) == 0.0
  {
    assert PointDistance(t, p, p) == t.hypot(0.0, 0.0);
    HypotNorm(t, 0.0, 0.0);
    SquareRootUnique(t.hypot(0.0, 0.0), 0.0);
  }

  /**
   * The angle between the sides `a` and `b` of a triangle whose third side,
   * opposite that angle, is `c`.
   */
  function CosLawAngle(t: Trig, a: real, b: real, c: real): (gamma: real)
    requires a != 0.0 && b != 0.0
  {
    t.acos((a * a + b * b - c * c) / (2.0 * a * b))
  }

  /** The angle satisfies the law of cosines whenever the acos argument is in range. */
  lemma CosLawAngleSolvesLawOfCosines(t: Trig, a: real, b: real, c: real)
    requires Lawful(t) && a != 0.0 && b != 0.0
    requires -1.0 <= (a * a + b * b - c * c) / (2.0 * a * b) <= 1.0
    ensures 0.0 <= CosLawAngle(t, a, b, c)
    ensures c * c == a * a + b * b - 2.0 * a * b * t.cos(CosLawAngle(t, a, b, c))
  {
    var k := (a * a + b * b - c * c) / (2.0 * a * b);
    Acos(t, k);
    assert k * (2.0 * a * b) == a * a + b * b - c * c;
  }

  /** An axis-aligned square test: both coordinate gaps below the tolerance. */
  function WithinBounds(target: Point, current: Point, tolerance: real): bool {
    var xDiff := Abs(target.x - current.x);
    var yDiff := Abs(target.y - current.y);
    xDiff < tolerance && yDiff < tolerance
  }

  function SquaredGap(p: Point, q: Point): real {
    (p.x - q.x) * (p.x - q.x) + (p.y - q.y) * (p.y - q.y)
  }

  /**
   * The square contains the circle of radius `tolerance` and lies inside the
   * circle of radius `tolerance * sqrt 2`.
   */
  lemma WithinBoundsSquare(target: Point, current: Point, tolerance: real)
    ensures SquaredGap(target, current) < tolerance * tolerance && 0.0 <= tolerance ==>
              WithinBounds(target, current, tolerance)
    ensures WithinBounds(target, current, tolerance) ==>
              SquaredGap(target, current) < 2.0 * tolerance * tolerance
  {
    var dx, dy := target.x - current.x, target.y - current.y;
    SquareNonNegative(dx);
    SquareNonNegative(dy);
    if SquaredGap(target, current) < tolerance * tolerance && 0.0 <= tolerance {
      if tolerance <= Abs(dx) {
        SquareLe(tolerance, Abs(dx));
        AbsSquare(dx);
      }
      if tolerance <= Abs(dy) {
        SquareLe(tolerance, Abs(dy));
        AbsSquare(dy);
      }
    }
    if WithinBounds(target, current, tolerance) {
      SquareBelow(dx, tolerance);
      SquareBelow(dy, tolerance);
    }
  }

  /** A point inside the square but outside the circle: the test is not a circle. */
  lemma WithinBoundsIsNotACircle()
    ensures WithinBounds(Point(0.0, 0.0), Point(0.9, 0.9), 1.0)
    ensures SquaredGap(Point(0.0, 0.0), Point(0.9, 0.9)) > 1.0 * 1.0
  {
  }

  function ScalePoint(p: Point, scale: real): (r: Point)
    ensures scale == 1.0 ==> r == p
    ensures scale == 0.0 ==> r == Point(0.0, 0.0)
  {
    Point(p.x * scale, p.y * scale)
  }

  lemma ScalePointCompose(p: Point, a: real, b: real)
    ensures ScalePoint(ScalePoint(p, a), b) == ScalePoint(p, a * b)
  {
  }

  /** The open annulus a two-link arm with lengths l1 and l2 reaches. */
  predicate InBand(p: Point, l1: real, l2: real) {
    var val := p.x * p.x + p.y * p.y;
    (l1 - l2) * (l1 - l2) < val < (l1 + l2) * (l1 + l2)
  }

  /**
   * The radius a point outside the annulus is moved to: 1.001 times the
   * inner radius when it lies strictly inside the inner circle, 0.999 times
   * the outer radius otherwise (which includes a point exactly on the inner
   * circle).
   */
  function ClampTargetRadius(p: Point, l1: real, l2: real): real {
    if p.x * p.x + p.y * p.y < (l1 - l2) * (l1 - l2) then (l1 - l2) * 1.001 else (l1 + l2) * 0.999
  }

  /**
   * Keeps a goal in the arm's configuration space: a point strictly inside
   * the annulus is returned as it is; any other point is moved along its
   * polar angle to `ClampTargetRadius`.
   */
  function ClampToCSpace(t: Trig, p: Point, l1: real, l2: real): (r: Point)
    ensures InBand(p, l1, l2) ==> r == p
  {
    var val := p.x * p.x + p.y * p.y;
    var inner := (l1 - l2) * (l1 - l2);
    var outer := (l1 + l2) * (l1 + l2);
    if val > inner && val < outer then p
    else
      var theta := t.atan2(p.y, p.x);
      var r := if val < inner then (l1 - l2) * 1.001 else (l1 + l2) * 0.999;
      Point(r * t.cos(theta), r * t.sin(theta))
  }

  /** Outside the annulus the clamp gives the point at the target radius on the polar angle of `p`. */
  lemma ClampPolar(t: Trig, p: Point, l1: real, l2: real)
    requires !InBand(p, l1, l2)
    ensures var theta := t.atan2(p.y, p.x);
      var radius := ClampTargetRadius(p, l1, l2);
      ClampToCSpace(t, p, l1, l2) == Point(radius * t.cos(theta), radius * t.sin(theta))
  {
  }

  /** Outside the annulus the clamped point lies on the circle of the target radius. */
  lemma ClampRadius(t: Trig, p: Point, l1: real, l2: real)
    requires Lawful(t) && !InBand(p, l1, l2)
    ensures var r := ClampToCSpace(t, p, l1, l2);
      r.x * r.x + r.y * r.y == ClampTargetRadius(p, l1, l2) * ClampTargetRadius(p, l1, l2)
  {
    ClampPolar(t, p, l1, l2);
    PolarNorm(t, ClampTargetRadius(p, l1, l2), t.atan2(p.y, p.x));
  }

  /** The clamp leaves a point alone exactly when it is strictly inside the annulus. */
  lemma ClampUnchangedIff(t: Trig, p: Point, l1: real, l2: real)
    requires Lawful(t) && ClampableLengths(l1, l2)
    ensures ClampToCSpace(t, p, l1, l2) == p <==> InBand(p, l1, l2)
  {
    ClampLandsInBand(t, p, l1, l2);
  }

  /**
   * Outside the annulus the clamp keeps the direction of the point: the
   * result is a positive multiple of `p` (the inner radius is positive when
   * l1 > l2).
   */
  lemma ClampKeepsDirection(t: Trig, p: Point, l1: real, l2: real)
    requires Lawful(t) && !InBand(p, l1, l2) && p != Point(0.0, 0.0)
    requires 0.0 < l2 < l1
    ensures var r := ClampToCSpace(t, p, l1, l2);
      r.x * p.y == r.y * p.x && 0.0 < r.x * p.x + r.y * p.y
  {
    var theta := t.atan2(p.y, p.x);
    ClampPolar(t, p, l1, l2);
    Polar(t, p.y, p.x);
    HypotPositive(t, p);
    Pythagoras(t, theta);
    SameRay(ClampTargetRadius(p, l1, l2), t.hypot(p.x, p.y), t.cos(theta), t.sin(theta));
  }

  /** The norm of a point other than the origin is positive. */
  lemma HypotPositive(t: Trig, p: Point)
    requires Lawful(t) && p != Point(0.0, 0.0)
    ensures 0.0 < t.hypot(p.x, p.y)
  {
    var theta := t.atan2(p.y, p.x);
    HypotNorm(t, p.x, p.y);
    Polar(t, p.y, p.x);
    if p.x != 0.0 {
      NonZeroFactor(t.hypot(p.x, p.y), t.cos(theta));
    } else {
      NonZeroFactor(t.hypot(p.x, p.y), t.sin(theta));
    }
  }

  /** Lengths for which both clamp radii fall strictly inside the annulus. */
  predicate ClampableLengths(l1: real, l2: real) {
    0.0 < l2 < l1 < 1999.0 * l2
  }

  /** Every clamped point lies strictly inside the annulus. */
  lemma ClampLandsInBand(t: Trig, p: Point, l1: real, l2: real)
    requires Lawful(t) && ClampableLengths(l1, l2)
    ensures InBand(ClampToCSpace(t, p, l1, l2), l1, l2)
  {
    if !InBand(p, l1, l2) {
      var radius := ClampTargetRadius(p, l1, l2);
      ClampRadius(t, p, l1, l2);
      assert l1 - l2 < radius < l1 + l2;
      SquareLess(l1 - l2, radius);
      SquareLess(radius, l1 + l2);
    }
  }

  /** A point exactly on the inner circle is moved to the outer edge. */
  lemma ClampInnerCircleGoesOuter(t: Trig, p: Point, l1: real, l2: real)
    requires Lawful(t) && p.x * p.x + p.y * p.y == (l1 - l2) * (l1 - l2)
    ensures var r := ClampToCSpace(t, p, l1, l2);
      r.x * r.x + r.y * r.y == ((l1 + l2) * 0.999) * ((l1 + l2) * 0.999)
  {
    ClampRadius(t, p, l1, l2);
  }
}
