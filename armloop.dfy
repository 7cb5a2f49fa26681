/**
 * armloop.go: the state machine that drives the two-joint arm towards a
 * goal point.  The package variables `calculated`, `a1` and `a2` (the
 * inverse-kinematics latch and its cached joint angles) belong to the one
 * loop of the program, so they are fields of `ArmLoop` here.
 */
module ArmLoops {
  import opened Trigonometry
  import opened Points
  import opened Colors
  import opened Util
  import opened TwoJoint

  datatype Option<T> = None | Some(value: T)

  /** The four states, numbered from 0 in declaration order as Go's `iota` numbers them. */
  datatype State = Waiting | GoalTracking | Finished | Testing

  /** The integer a state is in Go. */
  function Ordinal(s: State): (n: int)
    ensures 0 <= n < |StateNames|
  {
    match s
    case Waiting => 0
    case GoalTracking => 1
    case Finished => 2
    case Testing => 3
  }

  /** The state a Go `State` integer stands for; integers outside 0..3 name none. */
  function OfOrdinal(n: int): (s: Option<State>)
    ensures s.Some? <==> 0 <= n < |StateNames|
  {
    if n == 0 then Some(Waiting)
    else if n == 1 then Some(GoalTracking)
    else if n == 2 then Some(Finished)
    else if n == 3 then Some(Testing)
    else None
  }

  /** The name table indexed by `String`. */
  const StateNames: seq<string> := ["waiting", "goalTracking", "finished", "testing"]

  /**
   * `String`: the entry of the name table at the state's integer; an
   * integer outside the table makes Go's index expression panic (None).
   */
  function String(n: int): (r: Option<string>)
    ensures r.Some? <==> OfOrdinal(n).Some?
  {
    if 0 <= n < |StateNames| then Some(StateNames[n]) else None
  }

  /** The integers and the states correspond one to one. */
  lemma OrdinalRoundTrip(s: State, n: int)
    ensures OfOrdinal(Ordinal(s)) == Some(s)
    ensures OfOrdinal(n).Some? ==> Ordinal(OfOrdinal(n).value) == n
  {
  }

  /** Each state has its own name, and it is the one in its declaration. */
  lemma StateNamesDistinct(s1: State, s2: State)
    ensures String(Ordinal(s1)).Some? && String(Ordinal(s2)).Some?
    ensures s1 != s2 ==> String(Ordinal(s1)) != String(Ordinal(s2))
    ensures String(Ordinal(Waiting)) == Some("waiting") && String(Ordinal(GoalTracking)) == Some("goalTracking")
    ensures String(Ordinal(Finished)) == Some("finished") && String(Ordinal(Testing)) == Some("testing")
  {
    assert StateNames[0] != StateNames[1] && StateNames[0] != StateNames[2] && StateNames[0] != StateNames[3];
    assert StateNames[1] != StateNames[2] && StateNames[1] != StateNames[3] && StateNames[2] != StateNames[3];
  }

  /**
   * What the joints' physics does during one tick: the colours `calcColor`
   * gives each joint, the voltage `movePIDFF` drives each joint with while
   * tracking, and the motion each joint then makes (by `movePIDFF` while
   * tracking, by the zero-voltage `update` while testing).
   */
  datatype Tick = Tick(color1: Rgb, color2: Rgb, voltage1: real, voltage2: real, motion1: Motion, motion2: Motion)

  /** The tolerance the joints are driven with: one degree. */
  function JointTolerance(): (e: real)
    ensures e * 180.0 == Pi
  {
    ToRadians(1.0)
  }

  class ArmLoop {
    const arm2: Arm2
    var goal: Point
    var state: State
    /** Whether the joint angles for the current goal have been solved. */
    var calculated: bool
    /** The solved shoulder and elbow angles. */
    var a1: real
    var a2: real

    /** `ArmLoop{arm2: robotArm2, state: waiting}` with the package variables at their zero values. */
    constructor (arm: Arm2)
      ensures arm2 == arm && goal == Point(0.0, 0.0) && state == Waiting
      ensures !calculated && a1 == 0.0 && a2 == 0.0
    {
      arm2, goal, state := arm, Point(0.0, 0.0), Waiting;
      calculated, a1, a2 := false, 0.0, 0.0;
    }

    /** `setState`: only the state changes. */
    method SetState(s: State)
      modifies this
      ensures state == s
      ensures goal == old(goal) && calculated == old(calculated) && a1 == old(a1) && a2 == old(a2)
    {
      state := s;
    }

    /**
     * `setGoal`: the new goal is tracked from whatever state the loop was in,
     * and both joints stop reporting stopped.  The latch is left alone, so
     * the new goal is solved afresh only if a finished tick cleared it.
     */
    method SetGoal(p: Point)
      requires arm2.Valid()
      modifies this, arm2.arm1, arm2.arm2
      ensures goal == p && state == GoalTracking
      ensures calculated == old(calculated) && a1 == old(a1) && a2 == old(a2)
      ensures arm2.arm1.Snapshot() == old(arm2.arm1.Snapshot()).(stopped := false)
      ensures arm2.arm2.Snapshot() == old(arm2.arm2.Snapshot()).(stopped := false)
      ensures arm2.arm1.commands == old(arm2.arm1.commands) && arm2.arm2.commands == old(arm2.arm2.commands)
      ensures !arm2.IsStopped()
    {
      goal := p;
      state := GoalTracking;
      arm2.arm1.stopped := false;
      arm2.arm2.stopped := false;
    }

    /**
     * `onLoop`: one tick of the state machine.  It never changes the state.
     * Waiting: yellow.  Finished: blue, and the latch is cleared.  Testing:
     * white, then a zero-voltage step.  Goal tracking: each joint takes its
     * computed colour; the goal is solved if the latch is clear, and the
     * latch is set; both joints are driven towards the cached angles from
     * their current angles with a tolerance of one degree; then the elbow is
     * re-synced to the shoulder.
     */
    method OnLoop(t: Trig, tick: Tick)
      requires arm2.Valid()
      requires state == GoalTracking && !calculated ==> IkDefined(t, goal, arm2.arm1.length, arm2.arm2.length)
      modifies this, arm2.arm1, arm2.arm2
      ensures state == old(state) && goal == old(goal)
      ensures old(state) != GoalTracking ==> a1 == old(a1) && a2 == old(a2)
      ensures old(state) != GoalTracking ==>
        arm2.arm1.commands == old(arm2.arm1.commands) && arm2.arm2.commands == old(arm2.arm2.commands)
      ensures old(state) == Waiting ==>
        && calculated == old(calculated)
        && arm2.arm1.Snapshot() == old(arm2.arm1.Snapshot()).(color := Yellow)
        && arm2.arm2.Snapshot() == old(arm2.arm2.Snapshot()).(color := Yellow)
      ensures old(state) == Finished ==>
        && !calculated
        && arm2.arm1.Snapshot() == old(arm2.arm1.Snapshot()).(color := Blue)
        && arm2.arm2.Snapshot() == old(arm2.arm2.Snapshot()).(color := Blue)
      ensures old(state) == Testing ==>
        && calculated == old(calculated)
        && arm2.arm1.Snapshot() == old(arm2.arm1.Snapshot()).(
             color := White, parentAngle := 0.0, voltage := 0.0, angle := tick.motion1.angle,
             vel := tick.motion1.vel, acc := tick.motion1.acc, stopped := tick.motion1.stopped)
        && arm2.arm2.Snapshot() == old(arm2.arm2.Snapshot()).(
             color := White, start := old(arm2.arm1.GetEndPtPxl(t)), parentAngle := old(arm2.arm1.angle),
             voltage := 0.0, angle := tick.motion2.angle,
             vel := tick.motion2.vel, acc := tick.motion2.acc, stopped := tick.motion2.stopped)
      ensures old(state) == GoalTracking ==>
        && calculated
        && (old(calculated) ==> a1 == old(a1) && a2 == old(a2))
        && (!old(calculated) ==> JointAngles(a1, a2) == InverseKinematics(
              t, goal, old(arm2.arm1.angle), old(arm2.arm2.angle), arm2.arm1.length, arm2.arm2.length))
        && arm2.arm1.commands == old(arm2.arm1.commands) + [Command(a1, old(arm2.arm1.angle), JointTolerance())]
        && arm2.arm2.commands == old(arm2.arm2.commands) + [Command(a2, old(arm2.arm2.angle), JointTolerance())]
        && arm2.arm1.Snapshot() == old(arm2.arm1.Snapshot()).(
             color := tick.color1, parentAngle := 0.0, voltage := tick.voltage1, angle := tick.motion1.angle,
             vel := tick.motion1.vel, acc := tick.motion1.acc, stopped := tick.motion1.stopped)
        && arm2.arm2.Snapshot() == old(arm2.arm2.Snapshot()).(
             color := tick.color2, start := arm2.arm1.GetEndPtPxl(t), parentAngle := arm2.arm1.angle,
             voltage := tick.voltage2, angle := tick.motion2.angle, vel := tick.motion2.vel, acc := tick.motion2.acc,
             stopped := tick.motion2.stopped)
    {
      match state
      case Waiting =>
        arm2.SetArmColors(Yellow);
      case GoalTracking =>
        arm2.arm1.color := tick.color1;
        arm2.arm2.color := tick.color2;
        if !calculated {
          var q := InverseKinematics(t, goal, arm2.arm1.angle, arm2.arm2.angle, arm2.arm1.length, arm2.arm2.length);
          a1, a2 := q.q1, q.q2;
          calculated := true;
        }
        arm2.arm1.MovePIDFF(a1, arm2.arm1.angle, JointTolerance(), tick.voltage1, tick.motion1);
        arm2.arm2.MovePIDFF(a2, arm2.arm2.angle, JointTolerance(), tick.voltage2, tick.motion2);
        arm2.Update(t);
      case Finished =>
        arm2.SetArmColors(Blue);
        calculated := false;
      case Testing =>
        arm2.SetArmColors(White);
        arm2.Rest(t, tick.motion1, tick.motion2);
    }
  }

  /**
   * Two tracking ticks in a row solve the goal at most once: the second tick
   * drives the joints towards the same angles as the first.
   */
  method TrackTwice(loop: ArmLoop, t: Trig, first: Tick, second: Tick)
    requires loop.arm2.Valid() && loop.state == GoalTracking
    requires !loop.calculated ==> IkDefined(t, loop.goal, loop.arm2.arm1.length, loop.arm2.arm2.length)
    modifies loop, loop.arm2.arm1, loop.arm2.arm2
    ensures loop.calculated && loop.state == GoalTracking
    ensures |loop.arm2.arm1.commands| == |old(loop.arm2.arm1.commands)| + 2
    ensures |loop.arm2.arm2.commands| == |old(loop.arm2.arm2.commands)| + 2
    ensures loop.arm2.arm1.commands[|loop.arm2.arm1.commands| - 1].setpoint
         == loop.arm2.arm1.commands[|loop.arm2.arm1.commands| - 2].setpoint == loop.a1
    ensures loop.arm2.arm2.commands[|loop.arm2.arm2.commands| - 1].setpoint
         == loop.arm2.arm2.commands[|loop.arm2.arm2.commands| - 2].setpoint == loop.a2
  {
    loop.OnLoop(t, first);
    ghost var c1, c2 := loop.arm2.arm1.commands, loop.arm2.arm2.commands;
    loop.OnLoop(t, second);
    assert loop.arm2.arm1.commands == c1 + [Command(loop.a1, loop.arm2.arm1.commands[|c1|].current, JointTolerance())];
  }
}
