/**
 * arm.go: a single-jointed arm driven by angular-velocity commands.  Each
 * motion command sets the velocity (in degrees per second) and steps the
 * angle forward by one animation frame.
 */
module SingleArm {
  import opened RealArith
  import opened Trigonometry
  import opened Points
  import opened Colors
  import opened Util
  import opened Pid

  /** Pixels per inch in the GUI. */
  const PixelToInches: real := 30.0

  /** Frames per second of the animation (main.go). */
  const Fps: int := 50

  /**
   * The angle after one frame at `angVel` degrees per second:
   * `angle + ToRadians(angVel * (1 / fps))`.
   */
  function AngleAfterFrame(angle: real, angVel: real): (r: real)
    ensures (r - angle) * 180.0 * (Fps as real) == angVel * Pi
    ensures 0.0 < angVel <==> angle < r
    ensures angVel == 0.0 <==> r == angle
  {
    angle + ToRadians(angVel * (1.0 / Fps as real))
  }

  /** The end point in pixels of a link of `length` inches based at `start` and turned by `angle`. */
  function PixelEndPoint(t: Trig, start: Point, length: real, angle: real): Point {
    Point(length * PixelToInches * t.cos(angle) + start.x, length * PixelToInches * t.sin(angle) + start.y)
  }

  /** Truncation toward zero, as Go's `int(x)` on a float. */
  function TruncateToInt(x: real): (n: int)
    ensures 0.0 <= x ==> n as real <= x < n as real + 1.0
    ensures x < 0.0 ==> n as real - 1.0 < x <= n as real
  {
    if 0.0 <= x then x.Floor else -((-x).Floor)
  }

  class Arm {
    var start: Point      // base of the arm, in pixels
    var length: real      // length of the arm
    var angle: real       // radians, counter-clockwise from the horizontal
    var vel: real         // degrees per second
    var topSpeed: real    // degrees per second
    const pid: PidController

    constructor (start0: Point, length0: real, angle0: real, topSpeed0: real, gains: PidController)
      ensures start == start0 && length == length0 && angle == angle0
      ensures vel == 0.0 && topSpeed == topSpeed0 && fresh(pid)
      ensures pid.Valid() && pid.kP == gains.kP && pid.kI == gains.kI && pid.kD == gains.kD
      ensures pid.epsilon == gains.epsilon && pid.errorSum == 0.0 && pid.lastError == 0.0 && !pid.atTarget
    {
      start, length, angle, vel, topSpeed := start0, length0, angle0, 0.0, topSpeed0;
      pid := new PidController(gains.kP, gains.kI, gains.kD, gains.epsilon);
    }

    /** `setPIDController`: the arm's controller becomes a copy of `p`. */
    method SetPIDController(p: PidController)
      modifies pid
      ensures pid.kP == p.kP && pid.kI == p.kI && pid.kD == p.kD
      ensures pid.errorSum == p.errorSum && pid.lastError == p.lastError
      ensures pid.epsilon == p.epsilon && pid.atTarget == p.atTarget
      ensures pid.Valid()
    {
      pid.CopyFrom(p);
    }

    function GetLengthPxl(): real
      reads this
    {
      length * PixelToInches
    }

    /** `getEndPtPxl`: the base plus the pixel length along the angle. */
    function GetEndPtPxl(t: Trig): Point
      reads this
    {
      PixelEndPoint(t, start, length, angle)
    }

    /** `getEndPtIn`: the end point relative to the base, in inches. */
    function GetEndPtIn(t: Trig): Point
      reads this
    {
      Point(length * t.cos(angle), length * t.sin(angle))
    }

    /** `getStartPtIn`: the base in inches is always the origin. */
    function GetStartPtIn(): (p: Point)
      ensures p.x == 0.0 && p.y == 0.0
    {
      Point(0.0, 0.0)
    }

    /** `getAngleDeg`: the angle in degrees. */
    function GetAngleDeg(): (d: real)
      reads this
      ensures ToRadians(d) == angle
    {
      ToDegrees(angle)
    }

    /**
     * `getColor`: red for a stopped arm, otherwise green scaled by the
     * fraction of top speed.  Go divides by a zero top speed into an
     * infinity whose integer conversion is not defined; the model gives 0.
     */
    function GetColor(): (c: Rgb)
      reads this
      ensures c == Red <==> vel == 0.0
      ensures vel != 0.0 ==> c.r == 0 && c.b == 0
      ensures vel != 0.0 && 0.0 < topSpeed && Abs(vel) <= topSpeed ==> 0 <= c.g <= 254
      ensures 0.0 < vel && vel <= topSpeed ==> 127 <= c.g
      ensures vel < 0.0 && 0.0 < topSpeed && -topSpeed <= vel ==> c.g <= 127
    {
      if vel == 0.0 then Red
      else
        var g := if topSpeed == 0.0 then 0 else TruncateToInt((vel / topSpeed) * 127.0 + 127.0);
        Rgb(0, g, 0)
    }

    /** `moveArm`: only the angle changes, by one frame at `angVel`. */
    method MoveArm(angVel: real)
      modifies this
      ensures angle == AngleAfterFrame(old(angle), angVel)
      ensures vel == old(vel) && start == old(start) && length == old(length) && topSpeed == old(topSpeed)
    {
      var dtheta := angVel * (1.0 / Fps as real);
      angle := angle + ToRadians(dtheta);
    }

    /** `update`: one frame at the current velocity. */
    method Update()
      modifies this
      ensures angle == AngleAfterFrame(old(angle), old(vel))
      ensures vel == old(vel) && start == old(start) && length == old(length) && topSpeed == old(topSpeed)
    {
      MoveArm(vel);
    }

    /** `setVelDPS`: sets the velocity and steps one frame at it. */
    method SetVelDPS(newVel: real)
      modifies this
      ensures vel == newVel && angle == AngleAfterFrame(old(angle), newVel)
      ensures start == old(start) && length == old(length) && topSpeed == old(topSpeed)
    {
      vel := newVel;
      Update();
    }

    /** `setOutput`: velocity as a fraction of top speed, then one frame. */
    method SetOutput(percent: real)
      modifies this
      ensures vel == percent * topSpeed && angle == AngleAfterFrame(old(angle), vel)
      ensures -1.0 <= percent <= 1.0 && 0.0 <= topSpeed ==> Abs(vel) <= topSpeed
      ensures start == old(start) && length == old(length) && topSpeed == old(topSpeed)
    {
      vel := percent * topSpeed;
      if -1.0 <= percent <= 1.0 && 0.0 <= topSpeed {
        VelocityWithinTopSpeed(percent, topSpeed);
      }
      Update();
    }

    /**
     * `movePID`: while the flag of `robotArm` (the global arm, which may be
     * this one) says the target is not reached, the PID output clamped to
     * plus or minus top speed becomes the velocity; otherwise the velocity is
     * zero and the controller is not consulted.  Either way one frame
     * follows.
     */
    method MovePID(robotArm: Arm, setpoint: real, current: real, epsilon: real)
      requires pid.Valid()
      modifies this, pid
      ensures pid.Valid()
      ensures old(robotArm.pid.atTarget) ==> vel == 0.0 && angle == old(angle)
      ensures old(robotArm.pid.atTarget) ==> unchanged(pid)
      ensures pid.kP == old(pid.kP) && pid.kI == old(pid.kI) && pid.kD == old(pid.kD)
      ensures pid.epsilon == old(pid.epsilon) && pid.lastError == old(pid.lastError)
      ensures !old(robotArm.pid.atTarget) ==>
        && vel == OutputClamp(old(pid.Response(setpoint, current)), -topSpeed, topSpeed)
        && pid.errorSum == old(pid.errorSum) + (setpoint - current)
        && (pid.atTarget <==> Abs(setpoint - current) <= epsilon)
      ensures 0.0 <= topSpeed ==> -topSpeed <= vel <= topSpeed
      ensures angle == AngleAfterFrame(old(angle), vel)
      ensures start == old(start) && length == old(length) && topSpeed == old(topSpeed)
    {
      if !robotArm.pid.atTarget {
        var out := pid.CalcPID(setpoint, current, epsilon);
        vel := OutputClamp(out, -topSpeed, topSpeed);
      } else {
        vel := 0.0;
      }
      Update();
    }

    /** `stop`: zero velocity, angle kept. */
    method Stop()
      modifies this
      ensures vel == 0.0 && angle == old(angle)
      ensures start == old(start) && length == old(length) && topSpeed == old(topSpeed)
    {
      vel := 0.0;
    }
  }

  /** A fraction of at most one of a non-negative top speed stays within it. */
  lemma VelocityWithinTopSpeed(percent: real, topSpeed: real)
    requires -1.0 <= percent <= 1.0 && 0.0 <= topSpeed
    ensures Abs(percent * topSpeed) <= topSpeed
  {
    MulLeft(topSpeed, percent, 1.0);
    MulLeft(topSpeed, -1.0, percent);
  }

  /** The pixel end point is the base plus the inch end point scaled by pixels per inch. */
  lemma EndPointPixelsAreScaledInches(t: Trig, a: Arm)
    ensures a.GetEndPtPxl(t) ==
      Point(a.start.x + ScalePoint(a.GetEndPtIn(t), PixelToInches).x,
            a.start.y + ScalePoint(a.GetEndPtIn(t), PixelToInches).y)
  {
    var c, s := t.cos(a.angle), t.sin(a.angle);
    assert (a.length * PixelToInches) * c == (a.length * c) * PixelToInches;
    assert (a.length * PixelToInches) * s == (a.length * s) * PixelToInches;
  }

  /** The pixel end point lies at the pixel length from the base. */
  lemma EndPointAtArmLength(t: Trig, a: Arm)
    requires Lawful(t)
    ensures var e := a.GetEndPtPxl(t);
      (e.x - a.start.x) * (e.x - a.start.x) + (e.y - a.start.y) * (e.y - a.start.y)
        == a.GetLengthPxl() * a.GetLengthPxl()
  {
    PolarNorm(t, a.GetLengthPxl(), a.angle);
  }

  /**
   * The inch end point lies at the arm's length from the origin, and the
   * pixel length is 30 times that distance.
   */
  lemma PixelLengthIsScaledInchLength(t: Trig, a: Arm)
    requires Lawful(t)
    ensures var i := a.GetEndPtIn(t);
      i.x * i.x + i.y * i.y == a.length * a.length
    ensures var i := a.GetEndPtIn(t);
      a.GetLengthPxl() * a.GetLengthPxl() == (PixelToInches * PixelToInches) * (i.x * i.x + i.y * i.y)
  {
    PolarNorm(t, a.length, a.angle);
  }
}
