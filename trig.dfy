/**
 * The part of Go's `math` package the simulator relies on, over the reals.
 *
 * The transcendental functions cannot be defined in Dafny, so every member
 * that needs them takes a `Trig` value holding them.  `Lawful` states the
 * facts about them that the proofs use; each fact holds of the real
 * functions.  Every fact is attached to a small wrapper function, so that it
 * is only brought into a proof by the lemma named after it (the lemmas at
 * the end of the module); this keeps the solver away from facts it does
 * not need.
 */
module Trigonometry {

  /** `math.Pi` as a float64 value. */
  const Pi: real := 3.141592653589793

  datatype Trig = Trig(
    cos: real -> real,
    sin: real -> real,
    atan: real -> real,
    atan2: (real, real) -> real,  // atan2(y, x), as in Go
    acos: real -> real,
    hypot: (real, real) -> real)

  /** `math.Atan(y / x)`. */
  function AtanOfRatio(t: Trig, y: real, x: real): real
    requires x != 0.0
  {
    t.atan(y / x)
  }

  // Wrappers that carry the facts of `Lawful`.
  function UnitCircle(t: Trig, a: real): real { t.cos(a) * t.cos(a) + t.sin(a) * t.sin(a) }
  function CosOfSum(t: Trig, a: real, b: real): real { t.cos(a + b) }
  function SinOfSum(t: Trig, a: real, b: real): real { t.sin(a + b) }
  function CosOfNeg(t: Trig, a: real): real { t.cos(-a) }
  function SinOfNeg(t: Trig, a: real): real { t.sin(-a) }
  function HypotOf(t: Trig, x: real, y: real): real { t.hypot(x, y) }
  function Atan2Of(t: Trig, y: real, x: real): real { t.atan2(y, x) }
  function AcosOf(t: Trig, c: real): real { t.acos(c) }

  /** The facts about the trigonometric functions that the model uses. */
  ghost predicate Lawful(t: Trig) {
    && (forall a {:trigger UnitCircle(t, a)} :: UnitCircle(t, a) == 1.0)
    && (forall a, b {:trigger CosOfSum(t, a, b)} ::
          CosOfSum(t, a, b) == t.cos(a) * t.cos(b) - t.sin(a) * t.sin(b))
    && (forall a, b {:trigger SinOfSum(t, a, b)} ::
          SinOfSum(t, a, b) == t.sin(a) * t.cos(b) + t.cos(a) * t.sin(b))
    && (forall a {:trigger CosOfNeg(t, a)} :: CosOfNeg(t, a) == t.cos(a))
    && (forall a {:trigger SinOfNeg(t, a)} :: SinOfNeg(t, a) == -t.sin(a))
    // hypot is the Euclidean norm
    && (forall x, y {:trigger HypotOf(t, x, y)} ::
          0.0 <= HypotOf(t, x, y) && HypotOf(t, x, y) * HypotOf(t, x, y) == x * x + y * y)
    // atan2 gives the polar angle: (x, y) = hypot(x, y) * (cos, sin)(atan2(y, x))
    && (forall y, x {:trigger Atan2Of(t, y, x)} ::
          && x == t.hypot(x, y) * t.cos(Atan2Of(t, y, x))
          && y == t.hypot(x, y) * t.sin(Atan2Of(t, y, x))
          && (0.0 <= y ==> 0.0 <= Atan2Of(t, y, x)))
    // acos on [-1, 1] is a non-negative angle with that cosine and a non-negative sine
    && (forall c {:trigger AcosOf(t, c)} ::
          -1.0 <= c <= 1.0 ==>
            0.0 <= AcosOf(t, c) && t.cos(AcosOf(t, c)) == c && 0.0 <= t.sin(AcosOf(t, c)))
    // for a positive denominator, atan of the quotient is atan2
    && (forall y, x {:trigger AtanOfRatio(t, y, x)} ::
          0.0 < x ==> AtanOfRatio(t, y, x) == t.atan2(y, x))
  }

  lemma Pythagoras(t: Trig, a: real)
    requires Lawful(t)
    ensures t.cos(a) * t.cos(a) + t.sin(a) * t.sin(a) == 1.0
  {
    assert UnitCircle(t, a) == 1.0;
  }

  lemma CosAdd(t: Trig, a: real, b: real)
    requires Lawful(t)
    ensures t.cos(a + b) == t.cos(a) * t.cos(b) - t.sin(a) * t.sin(b)
  {
    assert CosOfSum(t, a, b) == t.cos(a + b);
  }

  lemma SinAdd(t: Trig, a: real, b: real)
    requires Lawful(t)
    ensures t.sin(a + b) == t.sin(a) * t.cos(b) + t.cos(a) * t.sin(b)
  {
    assert SinOfSum(t, a, b) == t.sin(a + b);
  }

  lemma Negate(t: Trig, a: real)
    requires Lawful(t)
    ensures t.cos(-a) == t.cos(a) && t.sin(-a) == -t.sin(a)
  {
    assert CosOfNeg(t, a) == t.cos(-a);
    assert SinOfNeg(t, a) == t.sin(-a);
  }

  lemma HypotNorm(t: Trig, x: real, y: real)
    requires Lawful(t)
    ensures 0.0 <= t.hypot(x, y) && t.hypot(x, y) * t.hypot(x, y) == x * x + y * y
  {
    assert HypotOf(t, x, y) == t.hypot(x, y);
  }

  lemma Polar(t: Trig, y: real, x: real)
    requires Lawful(t)
    ensures x == t.hypot(x, y) * t.cos(t.atan2(y, x))
    ensures y == t.hypot(x, y) * t.sin(t.atan2(y, x))
    ensures 0.0 <= y ==> 0.0 <= t.atan2(y, x)
  {
    assert Atan2Of(t, y, x) == t.atan2(y, x);
  }

  lemma Acos(t: Trig, c: real)
    requires Lawful(t) && -1.0 <= c <= 1.0
    ensures 0.0 <= t.acos(c) && t.cos(t.acos(c)) == c && 0.0 <= t.sin(t.acos(c))
  {
    assert AcosOf(t, c) == t.acos(c);
  }

  lemma AtanRatio(t: Trig, y: real, x: real)
    requires Lawful(t) && 0.0 < x
    ensures AtanOfRatio(t, y, x) == t.atan2(y, x)
  {
  }

  /** A point given by a radius and an angle is at that radius. */
  lemma PolarNorm(t: Trig, radius: real, theta: real)
    requires Lawful(t)
    ensures (radius * t.cos(theta)) * (radius * t.cos(theta)) + (radius * t.sin(theta)) * (radius * t.sin(theta))
            == radius * radius
  {
    var c, s := t.cos(theta), t.sin(theta);
    Pythagoras(t, theta);
    assert (radius * c) * (radius * c) + (radius * s) * (radius * s) == (radius * radius) * (c * c + s * s);
  }
}
