/**
 * arm2.go: a two-joint arm (shoulder `arm1`, elbow `arm2`) and its
 * inverse kinematics.
 *
 * The joints are shared, mutable objects (`*Arm` in Go); the `Arm2` value
 * holding the two pointers is copied freely, so it is a datatype whose
 * methods modify the joints it refers to.  The joints' own physics
 * (`movePIDFF`, the voltage-driven `update`, `calcColor`) is not part of
 * this model: each such call takes its outcome as a parameter.
 */
module TwoJoint {
  import opened RealArith
  import opened Trigonometry
  import opened Points
  import opened Colors
  import opened Util
  import SingleArm

  /** One feedback-plus-feedforward drive request: setpoint, current value and tolerance. */
  datatype Command = Command(setpoint: real, current: real, epsilon: real)

  /** The outcome of one physics step of a joint. */
  datatype Motion = Motion(angle: real, vel: real, acc: real, stopped: bool)

  /** Every field of a joint other than its length, for "nothing else changes" statements. */
  datatype JointState = JointState(
    start: Point, angle: real, vel: real, acc: real, voltage: real,
    parentAngle: real, stopped: bool, color: Rgb)

  /** One joint of the two-joint arm. */
  class Joint {
    var start: Point
    const length: real
    var angle: real
    var vel: real
    var acc: real
    var voltage: real
    var parentAngle: real
    var stopped: bool
    var color: Rgb
    /** The drive requests this joint has received, oldest first. */
    ghost var commands: seq<Command>

    constructor (length0: real, angle0: real)
      ensures length == length0 && angle == angle0 && commands == []
      ensures start == Point(0.0, 0.0) && vel == 0.0 && acc == 0.0 && voltage == 0.0
      ensures parentAngle == 0.0 && !stopped && color == Red
    {
      length, angle := length0, angle0;
      start, vel, acc, voltage, parentAngle := Point(0.0, 0.0), 0.0, 0.0, 0.0, 0.0;
      stopped, color, commands := false, Red, [];
    }

    function Snapshot(): JointState
      reads this
    {
      JointState(start, angle, vel, acc, voltage, parentAngle, stopped, color)
    }

    /** The end point in pixels: the base plus the pixel length along the angle. */
    function GetEndPtPxl(t: Trig): Point
      reads this
    {
      SingleArm.PixelEndPoint(t, start, length, angle)
    }

    /** `setStartPt`: moves the base. */
    method SetStartPt(p: Point)
      modifies this
      ensures Snapshot() == old(Snapshot()).(start := p)
      ensures commands == old(commands)
    {
      start := p;
    }

    /**
     * `movePIDFF`: one drive step towards `setpoint`; the request is
     * recorded, the joint is driven with the voltage `volts` the controller
     * and feedforward computed, and it takes the motion `m` the physics
     * produced.
     */
    method MovePIDFF(setpoint: real, current: real, epsilon: real, volts: real, m: Motion)
      modifies this
      ensures commands == old(commands) + [Command(setpoint, current, epsilon)]
      ensures Snapshot() == old(Snapshot()).(
        voltage := volts, angle := m.angle, vel := m.vel, acc := m.acc, stopped := m.stopped)
    {
      commands := commands + [Command(setpoint, current, epsilon)];
      voltage := volts;
      angle, vel, acc, stopped := m.angle, m.vel, m.acc, m.stopped;
    }

    /** The voltage-driven `update`: the joint takes the motion `m` the physics produced. */
    method Integrate(m: Motion)
      modifies this
      ensures commands == old(commands)
      ensures Snapshot() == old(Snapshot()).(angle := m.angle, vel := m.vel, acc := m.acc, stopped := m.stopped)
    {
      angle, vel, acc, stopped := m.angle, m.vel, m.acc, m.stopped;
    }
  }

  /** The assembly: a value holding the two shared joints. */
  datatype Arm2 = Arm2(arm1: Joint, arm2: Joint) {

    predicate Valid() {
      arm1 != arm2
    }

    /**
     * `update`: the elbow's base moves to the shoulder's pixel end point, the
     * elbow's parent angle becomes the shoulder's angle and the shoulder's
     * parent angle becomes 0.
     */
    method Update(t: Trig)
      requires Valid()
      modifies arm1, arm2
      ensures arm2.Snapshot() == old(arm2.Snapshot()).(start := old(arm1.GetEndPtPxl(t)), parentAngle := old(arm1.angle))
      ensures arm1.Snapshot() == old(arm1.Snapshot()).(parentAngle := 0.0)
      ensures arm2.start == arm1.GetEndPtPxl(t) && arm2.parentAngle == arm1.angle
      ensures arm1.commands == old(arm1.commands) && arm2.commands == old(arm2.commands)
    {
      arm2.SetStartPt(arm1.GetEndPtPxl(t));
      arm2.parentAngle := arm1.angle;
      arm1.parentAngle := 0.0;
    }

    /**
     * `rest`: re-syncs the elbow, then lets each joint run one physics step
     * with zero voltage, shoulder first (`m1` and `m2` are those steps).
     */
    method Rest(t: Trig, m1: Motion, m2: Motion)
      requires Valid()
      modifies arm1, arm2
      ensures arm1.Snapshot() == old(arm1.Snapshot()).(
        parentAngle := 0.0, voltage := 0.0, angle := m1.angle, vel := m1.vel, acc := m1.acc, stopped := m1.stopped)
      ensures arm2.Snapshot() == old(arm2.Snapshot()).(
        start := old(arm1.GetEndPtPxl(t)), parentAngle := old(arm1.angle),
        voltage := 0.0, angle := m2.angle, vel := m2.vel, acc := m2.acc, stopped := m2.stopped)
      ensures arm1.commands == old(arm1.commands) && arm2.commands == old(arm2.commands)
    {
      Update(t);
      arm1.voltage := 0.0;
      arm1.Integrate(m1);
      arm2.voltage := 0.0;
      arm2.Integrate(m2);
    }

    /** `setArmColors`: both joints take colour `c`; nothing else changes. */
    method SetArmColors(c: Rgb)
      requires Valid()
      modifies arm1, arm2
      ensures arm1.Snapshot() == old(arm1.Snapshot()).(color := c)
      ensures arm2.Snapshot() == old(arm2.Snapshot()).(color := c)
      ensures arm1.commands == old(arm1.commands) && arm2.commands == old(arm2.commands)
    {
      arm1.color := c;
      arm2.color := c;
    }

    /** `isStopped`: both joints report stopped. */
    predicate IsStopped()
      reads arm1, arm2
    {
      arm1.stopped && arm2.stopped
    }

    /** `setJointAccelerations`: only the two accelerations change. */
    method SetJointAccelerations(acc1: real, acc2: real)
      requires Valid()
      modifies arm1, arm2
      ensures arm1.Snapshot() == old(arm1.Snapshot()).(acc := acc1)
      ensures arm2.Snapshot() == old(arm2.Snapshot()).(acc := acc2)
      ensures arm1.commands == old(arm1.commands) && arm2.commands == old(arm2.commands)
    {
      arm1.acc := acc1;
      arm2.acc := acc2;
    }
  }

  // ---------------------------------------------------------------------
  // Inverse and forward kinematics

  datatype JointAngles = JointAngles(q1: real, q2: real)

  /** The distance from the origin to the goal. */
  function GoalRadius(t: Trig, p: Point): real {
    PointDistance(t, Point(0.0, 0.0), p)
  }

  /** The polar angle of the goal. */
  function GoalAngle(t: Trig, p: Point): real {
    t.atan2(p.y, p.x)
  }

  /** The law-of-cosines argument of the elbow angle. */
  function ElbowCosine(r: real, l1: real, l2: real): real
    requires l1 != 0.0 && l2 != 0.0
  {
    (r * r - l1 * l1 - l2 * l2) / (2.0 * l1 * l2)
  }

  /**
   * The elbow triangle for law-of-cosines argument `k`: its reach along the
   * upper arm, l1 + l2 cos q2, and its rise across it, l2 sin q2, for the
   * elbow angle q2 = acos(k).
   */
  function ElbowReach(t: Trig, k: real, l1: real, l2: real): real {
    l1 + l2 * t.cos(t.acos(k))
  }

  function ElbowRise(t: Trig, k: real, l2: real): real {
    l2 * t.sin(t.acos(k))
  }

  /**
   * When the solver is defined over the reals: non-zero lengths, a
   * law-of-cosines argument in [-1, 1] (outside it `math.Acos` gives NaN)
   * and a non-zero denominator under the shoulder's arctangent.
   */
  predicate IkDefined(t: Trig, p: Point, l1: real, l2: real) {
    && l1 != 0.0 && l2 != 0.0
    && -1.0 <= ElbowCosine(GoalRadius(t, p), l1, l2) <= 1.0
    && ElbowReach(t, ElbowCosine(GoalRadius(t, p), l1, l2), l1, l2) != 0.0
  }

  /** The shoulder's offset from the goal's polar angle: the arctangent of the elbow triangle's slope. */
  function ShoulderOffset(t: Trig, k: real, l1: real, l2: real): real
    requires ElbowReach(t, k, l1, l2) != 0.0
  {
    AtanOfRatio(t, ElbowRise(t, k, l2), ElbowReach(t, k, l1, l2))
  }

  /** The two candidate solutions the solver computes. */
  datatype IkCandidates = IkCandidates(q1a: real, q2a: real, q1b: real, q2b: real)

  /**
   * Elbow angle plus or minus the acos of the law-of-cosines argument; the
   * shoulder angle is the goal's polar angle minus (resp. plus) the absolute
   * arctangent offset computed from the first elbow angle.  So the elbow
   * candidates are opposite and the shoulder candidates lie symmetrically
   * around the polar angle.
   */
  function ElbowSolutions(t: Trig, p: Point, l1: real, l2: real): (c: IkCandidates)
    requires IkDefined(t, p, l1, l2)
    ensures c.q2b == -c.q2a
    ensures c.q1a <= GoalAngle(t, p) <= c.q1b
    ensures c.q1a + c.q1b == 2.0 * GoalAngle(t, p)
  {
    var theta := GoalAngle(t, p);
    var k := ElbowCosine(GoalRadius(t, p), l1, l2);
    var q2a := t.acos(k);
    var q1a := theta - Abs(ShoulderOffset(t, k, l1, l2));
    var q2b := -t.acos(k);
    var q1b := theta + Abs(ShoulderOffset(t, k, l1, l2));
    IkCandidates(q1a, q2a, q1b, q2b)
  }

  /** Whether the goal's polar angle lies strictly inside the first quadrant. */
  predicate FirstQuadrant(t: Trig, p: Point) {
    0.0 < GoalAngle(t, p) < Pi / 2.0
  }

  /**
   * `InverseKinematics`: the second candidate (negative elbow, shoulder at
   * or beyond the polar angle) strictly inside the first quadrant, the first
   * candidate (positive elbow, shoulder at or before the polar angle)
   * everywhere else.  The current angles are not used.
   */
  function InverseKinematics(t: Trig, p: Point, ang1: real, ang2: real, l1: real, l2: real): (q: JointAngles)
    requires IkDefined(t, p, l1, l2)
    ensures FirstQuadrant(t, p) ==>
      q == JointAngles(ElbowSolutions(t, p, l1, l2).q1b, ElbowSolutions(t, p, l1, l2).q2b)
    ensures !FirstQuadrant(t, p) ==>
      q == JointAngles(ElbowSolutions(t, p, l1, l2).q1a, ElbowSolutions(t, p, l1, l2).q2a)
    ensures FirstQuadrant(t, p) ==>
      q.q2 == -t.acos(ElbowCosine(GoalRadius(t, p), l1, l2)) && GoalAngle(t, p) <= q.q1
    ensures !FirstQuadrant(t, p) ==>
      q.q2 == t.acos(ElbowCosine(GoalRadius(t, p), l1, l2)) && q.q1 <= GoalAngle(t, p)
  {
    var c := ElbowSolutions(t, p, l1, l2);
    if 0.0 < GoalAngle(t, p) && GoalAngle(t, p) < Pi / 2.0 then
      JointAngles(c.q1b, c.q2b)
    else
      JointAngles(c.q1a, c.q2a)
  }

  /** The solver's answer does not depend on the current joint angles. */
  lemma IkIgnoresCurrentAngles(t: Trig, p: Point, ang1: real, ang2: real, other1: real, other2: real, l1: real, l2: real)
    requires IkDefined(t, p, l1, l2)
    ensures InverseKinematics(t, p, ang1, ang2, l1, l2) == InverseKinematics(t, p, other1, other2, l1, l2)
  {
  }

  /** With a lawful acos the chosen elbow bends down (q2 <= 0) in the first quadrant and up elsewhere. */
  lemma IkElbowSign(t: Trig, p: Point, ang1: real, ang2: real, l1: real, l2: real)
    requires Lawful(t) && IkDefined(t, p, l1, l2)
    ensures var q := InverseKinematics(t, p, ang1, ang2, l1, l2);
      (FirstQuadrant(t, p) ==> q.q2 <= 0.0) && (!FirstQuadrant(t, p) ==> 0.0 <= q.q2)
  {
    Acos(t, ElbowCosine(GoalRadius(t, p), l1, l2));
  }

  /** The end point of the two-link chain (main_test.go's `forwardKinematics`). */
  function ForwardKinematics(t: Trig, l1: real, l2: real, q: JointAngles): Point {
    var p1 := Point(l1 * t.cos(q.q1), l1 * t.sin(q.q1));
    Point(p1.x + l2 * t.cos(q.q1 + q.q2), p1.y + l2 * t.sin(q.q1 + q.q2))
  }

  /** The elbow lies at distance l1 from the origin and the end at distance l2 from the elbow. */
  lemma ForwardKinematicsLinkLengths(t: Trig, l1: real, l2: real, q: JointAngles)
    requires Lawful(t)
    ensures var e := ForwardKinematics(t, l1, l2, q);
      var elbow := Point(l1 * t.cos(q.q1), l1 * t.sin(q.q1));
      && elbow.x * elbow.x + elbow.y * elbow.y == l1 * l1
      && (e.x - elbow.x) * (e.x - elbow.x) + (e.y - elbow.y) * (e.y - elbow.y) == l2 * l2
  {
    PolarNorm(t, l1, q.q1);
    PolarNorm(t, l2, q.q1 + q.q2);
  }

  // Steps of the round trip.

  /** On the closed annulus the law-of-cosines argument is in [-1, 1]. */
  lemma ElbowCosineInRange(r: real, l1: real, l2: real)
    requires 0.0 < l1 && 0.0 < l2
    requires (l1 - l2) * (l1 - l2) <= r * r <= (l1 + l2) * (l1 + l2)
    ensures -1.0 <= ElbowCosine(r, l1, l2) <= 1.0
    ensures ElbowCosine(r, l1, l2) * (2.0 * l1 * l2) == r * r - l1 * l1 - l2 * l2
  {
    var w := 2.0 * l1 * l2;
    var n := r * r - l1 * l1 - l2 * l2;
    MulPositive(l1, l2);
    assert (l1 - l2) * (l1 - l2) == l1 * l1 - w + l2 * l2;
    assert (l1 + l2) * (l1 + l2) == l1 * l1 + w + l2 * l2;
    QuotientBetween(n, w, -1.0, 1.0);
  }

  /**
   * The elbow triangle for elbow angle acos(k): the vector
   * (l1 + l2 cos, l2 sin) has a positive first and a non-negative second
   * coordinate, and squared length l1^2 + l2^2 + 2 l1 l2 k.
   */
  lemma ElbowTriangle(t: Trig, l1: real, l2: real, k: real)
    requires Lawful(t) && 0.0 < l2 < l1 && -1.0 <= k <= 1.0
    ensures 0.0 < ElbowReach(t, k, l1, l2) && 0.0 <= ElbowRise(t, k, l2)
    ensures ElbowReach(t, k, l1, l2) * ElbowReach(t, k, l1, l2) + ElbowRise(t, k, l2) * ElbowRise(t, k, l2)
         == l1 * l1 + l2 * l2 + 2.0 * l1 * l2 * k
  {
    var phi := t.acos(k);
    Acos(t, k);
    Pythagoras(t, phi);
    TriangleAlgebra(l1, l2, k, t.cos(phi), t.sin(phi));
  }

  /** The law of cosines for the elbow triangle, over plain numbers. */
  lemma TriangleAlgebra(l1: real, l2: real, k: real, c: real, s: real)
    requires 0.0 < l2 < l1 && c == k && -1.0 <= k && 0.0 <= s && c * c + s * s == 1.0
    ensures 0.0 < l1 + l2 * c && 0.0 <= l2 * s
    ensures (l1 + l2 * c) * (l1 + l2 * c) + (l2 * s) * (l2 * s) == l1 * l1 + l2 * l2 + 2.0 * l1 * l2 * k
  {
    MulLeft(l2, -1.0, k);
    MulLeft(l2, 0.0, s);
    assert (l1 + l2 * c) * (l1 + l2 * c) + (l2 * s) * (l2 * s)
        == l1 * l1 + 2.0 * l1 * l2 * c + (l2 * l2) * (c * c + s * s);
  }

  /**
   * A vector (a, b) with positive a, non-negative b and length r is r times
   * the cosine and sine of atan(b / a), which is at least 0.
   */
  lemma RightOfOriginPolar(t: Trig, a: real, b: real, r: real)
    requires Lawful(t) && 0.0 < a && 0.0 <= b && 0.0 <= r && a * a + b * b == r * r
    ensures 0.0 <= AtanOfRatio(t, b, a)
    ensures a == r * t.cos(AtanOfRatio(t, b, a)) && b == r * t.sin(AtanOfRatio(t, b, a))
  {
    AtanRatio(t, b, a);
    Polar(t, b, a);
    HypotNorm(t, a, b);
    SquareRootUnique(t.hypot(a, b), r);
  }

  /**
   * Rotating the elbow triangle by the shoulder angle (cosine c1, sine s1),
   * the algebra of the first solution: the end point is r times the
   * direction of shoulder plus offset.
   */
  lemma RotateBack(l1: real, l2: real, r: real, c1: real, s1: real, cphi: real, sphi: real,
                   cpsi: real, spsi: real, cq: real, sq: real, ct: real, st: real)
    requires l1 + l2 * cphi == r * cpsi && l2 * sphi == r * spsi
    requires cq == c1 * cphi - s1 * sphi && sq == s1 * cphi + c1 * sphi
    requires ct == c1 * cpsi - s1 * spsi && st == s1 * cpsi + c1 * spsi
    ensures l1 * c1 + l2 * cq == r * ct && l1 * s1 + l2 * sq == r * st
  {
    assert l1 * c1 + l2 * cq == c1 * (l1 + l2 * cphi) - s1 * (l2 * sphi);
    assert l1 * s1 + l2 * sq == s1 * (l1 + l2 * cphi) + c1 * (l2 * sphi);
  }

  /** The same algebra for the second solution, which turns the elbow and the offset the other way. */
  lemma RotateForward(l1: real, l2: real, r: real, c1: real, s1: real, cphi: real, sphi: real,
                      cpsi: real, spsi: real, cq: real, sq: real, ct: real, st: real)
    requires l1 + l2 * cphi == r * cpsi && l2 * sphi == r * spsi
    requires cq == c1 * cphi + s1 * sphi && sq == s1 * cphi - c1 * sphi
    requires ct == c1 * cpsi + s1 * spsi && st == s1 * cpsi - c1 * spsi
    ensures l1 * c1 + l2 * cq == r * ct && l1 * s1 + l2 * sq == r * st
  {
    assert l1 * c1 + l2 * cq == c1 * (l1 + l2 * cphi) + s1 * (l2 * sphi);
    assert l1 * s1 + l2 * sq == s1 * (l1 + l2 * cphi) - c1 * (l2 * sphi);
  }

  /** The cosine and sine of a difference of angles. */
  lemma AngleDifference(t: Trig, a: real, b: real)
    requires Lawful(t)
    ensures t.cos(a + -b) == t.cos(a) * t.cos(b) + t.sin(a) * t.sin(b)
    ensures t.sin(a + -b) == t.sin(a) * t.cos(b) - t.cos(a) * t.sin(b)
  {
    CosAdd(t, a, -b);
    SinAdd(t, a, -b);
    Negate(t, b);
  }

  /** The first solution (shoulder theta - psi, elbow phi) reaches the point at radius r and angle theta. */
  lemma ForwardOfFirstSolution(t: Trig, l1: real, l2: real, r: real, theta: real, psi: real, phi: real)
    requires Lawful(t)
    requires l1 + l2 * t.cos(phi) == r * t.cos(psi) && l2 * t.sin(phi) == r * t.sin(psi)
    ensures ForwardKinematics(t, l1, l2, JointAngles(theta - psi, phi)) == Point(r * t.cos(theta), r * t.sin(theta))
  {
    var q1 := theta - psi;
    CosAdd(t, q1, phi);
    SinAdd(t, q1, phi);
    CosAdd(t, q1, psi);
    SinAdd(t, q1, psi);
    assert q1 + psi == theta;
    RotateBack(l1, l2, r, t.cos(q1), t.sin(q1), t.cos(phi), t.sin(phi), t.cos(psi), t.sin(psi),
               t.cos(q1 + phi), t.sin(q1 + phi), t.cos(theta), t.sin(theta));
  }

  /** The second solution (shoulder theta + psi, elbow -phi) reaches the same point. */
  lemma ForwardOfSecondSolution(t: Trig, l1: real, l2: real, r: real, theta: real, psi: real, phi: real)
    requires Lawful(t)
    requires l1 + l2 * t.cos(phi) == r * t.cos(psi) && l2 * t.sin(phi) == r * t.sin(psi)
    ensures ForwardKinematics(t, l1, l2, JointAngles(theta + psi, -phi)) == Point(r * t.cos(theta), r * t.sin(theta))
  {
    var q1 := theta + psi;
    AngleDifference(t, q1, phi);
    AngleDifference(t, q1, psi);
    assert q1 + -psi == theta;
    RotateForward(l1, l2, r, t.cos(q1), t.sin(q1), t.cos(phi), t.sin(phi), t.cos(psi), t.sin(psi),
                  t.cos(q1 + -phi), t.sin(q1 + -phi), t.cos(theta), t.sin(theta));
  }

  /**
   * The elbow triangle for elbow angle acos(k), whose squared length is r^2,
   * has a positive first coordinate, and the shoulder offset is its polar
   * angle, at least 0, with length r.
   */
  lemma ElbowTrianglePolar(t: Trig, l1: real, l2: real, k: real, r: real)
    requires Lawful(t) && 0.0 < l2 < l1 && -1.0 <= k <= 1.0 && 0.0 <= r
    requires r * r == l1 * l1 + l2 * l2 + 2.0 * l1 * l2 * k
    ensures 0.0 < ElbowReach(t, k, l1, l2)
    ensures 0.0 <= ShoulderOffset(t, k, l1, l2)
    ensures ElbowReach(t, k, l1, l2) == r * t.cos(ShoulderOffset(t, k, l1, l2))
    ensures ElbowRise(t, k, l2) == r * t.sin(ShoulderOffset(t, k, l1, l2))
  {
    ElbowTriangle(t, l1, l2, k);
    RightOfOriginPolar(t, ElbowReach(t, k, l1, l2), ElbowRise(t, k, l2), r);
  }

  /** On the closed annulus the law-of-cosines argument is in range and the radius squares to it. */
  lemma GoalOnAnnulus(t: Trig, p: Point, l1: real, l2: real)
    requires Lawful(t) && 0.0 < l2 < l1
    requires (l1 - l2) * (l1 - l2) <= p.x * p.x + p.y * p.y <= (l1 + l2) * (l1 + l2)
    ensures 0.0 <= GoalRadius(t, p)
    ensures -1.0 <= ElbowCosine(GoalRadius(t, p), l1, l2) <= 1.0
    ensures GoalRadius(t, p) * GoalRadius(t, p) == l1 * l1 + l2 * l2 + 2.0 * l1 * l2 * ElbowCosine(GoalRadius(t, p), l1, l2)
  {
    var r := GoalRadius(t, p);
    assert r == t.hypot(p.x, p.y);
    HypotNorm(t, p.x, p.y);
    ElbowCosineInRange(r, l1, l2);
  }

  /** The goal in polar form: radius times the cosine and sine of its polar angle. */
  lemma GoalPolar(t: Trig, p: Point)
    requires Lawful(t)
    ensures p == Point(GoalRadius(t, p) * t.cos(GoalAngle(t, p)), GoalRadius(t, p) * t.sin(GoalAngle(t, p)))
  {
    assert GoalRadius(t, p) == t.hypot(p.x, p.y);
    Polar(t, p.y, p.x);
  }

  /**
   * Round trip: for link lengths 0 < l2 < l1 and any goal on the closed
   * annulus the arm reaches, the solver is defined and forward kinematics
   * of its answer is the goal, whichever branch it chooses and whatever the
   * current angles.
   */
  lemma IkRoundTrip(t: Trig, p: Point, ang1: real, ang2: real, l1: real, l2: real)
    requires Lawful(t) && 0.0 < l2 < l1
    requires (l1 - l2) * (l1 - l2) <= p.x * p.x + p.y * p.y <= (l1 + l2) * (l1 + l2)
    ensures IkDefined(t, p, l1, l2)
    ensures ForwardKinematics(t, l1, l2, InverseKinematics(t, p, ang1, ang2, l1, l2)) == p
  {
    GoalOnAnnulus(t, p, l1, l2);
    var r, theta := GoalRadius(t, p), GoalAngle(t, p);
    var k := ElbowCosine(r, l1, l2);
    ElbowTrianglePolar(t, l1, l2, k, r);
    GoalPolar(t, p);
    var phi, psi := t.acos(k), ShoulderOffset(t, k, l1, l2);
    var c := ElbowSolutions(t, p, l1, l2);
    if FirstQuadrant(t, p) {
      assert c.q1b == theta + psi && c.q2b == -phi;
      ForwardOfSecondSolution(t, l1, l2, r, theta, psi, phi);
    } else {
      assert c.q1a == theta - psi && c.q2a == phi;
      ForwardOfFirstSolution(t, l1, l2, r, theta, psi, phi);
    }
  }

  /**
   * Every goal strictly inside the annulus (every point `ClampToCSpace` can
   * return) is solvable, and the solution reaches it.
   */
  lemma InBandIsSolvable(t: Trig, p: Point, ang1: real, ang2: real, l1: real, l2: real)
    requires Lawful(t) && 0.0 < l2 < l1 && InBand(p, l1, l2)
    ensures IkDefined(t, p, l1, l2)
    ensures ForwardKinematics(t, l1, l2, InverseKinematics(t, p, ang1, ang2, l1, l2)) == p
  {
    IkRoundTrip(t, p, ang1, ang2, l1, l2);
  }

  /**
   * The unit test's goal (0.375, 1.0) with lengths 1.0 and 0.8: forward
   * kinematics of the solution lies within 1.0 of the goal on each axis
   * (it is the goal itself).
   */
  lemma TestIK(t: Trig)
    requires Lawful(t)
    ensures var target := Point(0.375, 1.0);
      && IkDefined(t, target, 1.0, 0.8)
      && WithinBounds(target, ForwardKinematics(t, 1.0, 0.8, InverseKinematics(t, target, 0.0, 0.0, 1.0, 0.8)), 1.0)
  {
    var target := Point(0.375, 1.0);
    IkRoundTrip(t, target, 0.0, 0.0, 1.0, 0.8);
  }
}
