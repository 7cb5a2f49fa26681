/**
 * main.go, `updateGoal` and `updateModel`: the per-frame driver that turns
 * cursor clicks into a queue of reachable goals and feeds them to the state
 * machine one at a time, advancing when both joints have stopped.
 *
 * The package variables the two functions share (`pts`, `pointIndex`,
 * `canAdd`, the ghost point, `robotArm2`, `armloop`) are the fields of one
 * `Sim` object.  The cursor comes in as a point and a "dragged" flag; the
 * timer goroutine that re-enables adding points is the separate method
 * `ReleaseDebounce`.
 */
module Simulation {
  import opened Trigonometry
  import opened Points
  import opened Colors
  import opened Util
  import opened TwoJoint
  import opened ArmLoops

  /** Width of the window in pixels. */
  const Width: int := 1920

  /**
   * The goal queue index is 0 for an empty queue and a valid index
   * otherwise, i.e. 0 <= i <= max(0, n - 1).
   */
  predicate IndexInRange(i: int, n: int) {
    if n == 0 then i == 0 else 0 <= i < n
  }

  /**
   * The queue index after one `updateModel` with `n` queued goals: it moves
   * on by one when both joints have stopped and a further goal is queued.
   */
  function AdvanceIndex(stopped: bool, i: int, n: int): (j: int)
    ensures i <= j <= i + 1
    ensures j == i + 1 <==> stopped && n - 1 > i
    ensures IndexInRange(i, n) ==> IndexInRange(j, n)
  {
    if stopped && n - 1 > i then i + 1 else i
  }

  /** What `updateModel` sees in one frame: whether both joints stopped, and how many goals are queued. */
  datatype Frame = Frame(stopped: bool, queued: int)

  /** The queue index after a run of frames. */
  function IndexAfter(i: int, frames: seq<Frame>): int
    decreases |frames|
  {
    if |frames| == 0 then i
    else IndexAfter(AdvanceIndex(frames[0].stopped, i, frames[0].queued), frames[1..])
  }

  /** The queue only grows: each frame sees at least as many goals as the one before, starting from `n`. */
  predicate Growing(n: int, frames: seq<Frame>) {
    && (|frames| != 0 ==> n <= frames[0].queued)
    && (forall k :: 0 < k < |frames| ==> frames[k - 1].queued <= frames[k].queued)
  }

  /** The queue length in the last frame of a run (`n` for an empty run). */
  function LastQueued(n: int, frames: seq<Frame>): int {
    if |frames| == 0 then n else frames[|frames| - 1].queued
  }

  /**
   * Over any run in which the queue only grows, the index never decreases
   * and stays at most max(0, len(pts) - 1); in particular it never exceeds
   * len(pts), the condition of `updateModel`'s second branch.
   */
  lemma {:induction false} IndexNeverPassesQueue(i: int, n: int, frames: seq<Frame>)
    requires IndexInRange(i, n) && Growing(n, frames)
    ensures i <= IndexAfter(i, frames)
    ensures IndexInRange(IndexAfter(i, frames), LastQueued(n, frames))
    ensures IndexAfter(i, frames) <= LastQueued(n, frames)
    decreases |frames|
  {
    if |frames| != 0 {
      var m := frames[0].queued;
      assert IndexInRange(i, m);
      var j := AdvanceIndex(frames[0].stopped, i, m);
      assert Growing(m, frames[1..]) by {
        forall k | 0 < k < |frames[1..]|
          ensures frames[1..][k - 1].queued <= frames[1..][k].queued
        {
          assert frames[1..][k - 1] == frames[k] && frames[1..][k] == frames[k + 1];
        }
      }
      IndexNeverPassesQueue(j, m, frames[1..]);
      assert LastQueued(m, frames[1..]) == LastQueued(n, frames);
    }
  }

  class Sim {
    const trig: Trig
    const robotArm2: Arm2
    const armloop: ArmLoop
    /** The goals clicked so far, in order. */
    var pts: seq<Point>
    /** The goal currently (or next) being tracked. */
    var pointIndex: int
    /** Whether a click may add a goal (cleared by a click, set again by the timer). */
    var canAdd: bool
    /** The clamped cursor point drawn under the mouse. */
    var ghostPoint: Point

    ghost predicate Valid()
      reads this, armloop
    {
      && Lawful(trig)
      && robotArm2.Valid()
      && armloop.arm2 == robotArm2
      && ClampableLengths(robotArm2.arm1.length, robotArm2.arm2.length)
      && IndexInRange(pointIndex, |pts|)
      && (forall i :: 0 <= i < |pts| ==> InBand(pts[i], robotArm2.arm1.length, robotArm2.arm2.length))
      && (armloop.state == GoalTracking ==> InBand(armloop.goal, robotArm2.arm1.length, robotArm2.arm2.length))
    }

    /**
     * `createArm2` and the start of `main`: a shoulder of length 1.0 and an
     * elbow of length 0.8 based at the shoulder's end point, a waiting state
     * machine over the same two joints, an empty queue, and adding enabled.
     */
    constructor (t: Trig, angle1: real, angle2: real)
      requires Lawful(t)
      ensures Valid()
      ensures trig == t && robotArm2.arm1.length == 1.0 && robotArm2.arm2.length == 0.8
      ensures robotArm2.arm2.start == robotArm2.arm1.GetEndPtPxl(t)
      ensures armloop.state == Waiting && !armloop.calculated
      ensures pts == [] && pointIndex == 0 && canAdd
      ensures fresh(armloop) && fresh(robotArm2.arm1) && fresh(robotArm2.arm2)
      ensures armloop.goal == Point(0.0, 0.0) && armloop.a1 == 0.0 && armloop.a2 == 0.0
      ensures robotArm2.arm1.angle == angle1 && robotArm2.arm2.angle == angle2
      ensures !robotArm2.arm1.stopped && !robotArm2.arm2.stopped
      ensures robotArm2.arm1.commands == [] && robotArm2.arm2.commands == []
    {
      var j1 := new Joint(1.0, angle1);
      var j2 := new Joint(0.8, angle2);
      j2.SetStartPt(j1.GetEndPtPxl(t));
      var loop := new ArmLoop(Arm2(j1, j2));
      trig, robotArm2, armloop := t, Arm2(j1, j2), loop;
      pts, pointIndex, canAdd, ghostPoint := [], 0, true, Point(0.0, 0.0);
    }

    /**
     * `updateGoal`: the cursor, shifted so that x = 0 is the middle of the
     * window and scaled from pixels to metres, is clamped into the reachable
     * annulus.  A drag while adding is enabled appends it to the queue and
     * disables adding.  Then, if the queue is not empty, its current entry
     * differs from the loop's goal and the loop is not tracking, that entry
     * becomes the goal.
     */
    method UpdateGoal(cursor: Point, dragged: bool)
      requires Valid()
      modifies this, armloop, robotArm2.arm1, robotArm2.arm2
      ensures Valid()
      ensures ghostPoint == ClampToCSpace(trig,
        ScalePoint(Point(cursor.x - (Width as real) / 2.0, cursor.y), 1.0 / PixelToMeters),
        robotArm2.arm1.length, robotArm2.arm2.length)
      ensures InBand(ghostPoint, robotArm2.arm1.length, robotArm2.arm2.length)
      ensures old(canAdd) && dragged ==> pts == old(pts) + [ghostPoint] && !canAdd
      ensures !(old(canAdd) && dragged) ==> pts == old(pts) && canAdd == old(canAdd)
      ensures pointIndex == old(pointIndex)
      ensures |pts| != 0 && pts[pointIndex] != old(armloop.goal) && old(armloop.state) != GoalTracking ==>
        && armloop.goal == pts[pointIndex] && armloop.state == GoalTracking
        && robotArm2.arm1.Snapshot() == old(robotArm2.arm1.Snapshot()).(stopped := false)
        && robotArm2.arm2.Snapshot() == old(robotArm2.arm2.Snapshot()).(stopped := false)
      ensures !(|pts| != 0 && pts[pointIndex] != old(armloop.goal) && old(armloop.state) != GoalTracking) ==>
        && armloop.goal == old(armloop.goal) && armloop.state == old(armloop.state)
        && robotArm2.arm1.Snapshot() == old(robotArm2.arm1.Snapshot())
        && robotArm2.arm2.Snapshot() == old(robotArm2.arm2.Snapshot())
      ensures armloop.calculated == old(armloop.calculated)
      ensures armloop.a1 == old(armloop.a1) && armloop.a2 == old(armloop.a2)
      ensures robotArm2.arm1.commands == old(robotArm2.arm1.commands)
      ensures robotArm2.arm2.commands == old(robotArm2.arm2.commands)
    {
      var l1, l2 := robotArm2.arm1.length, robotArm2.arm2.length;
      var scaled := ScalePoint(Point(cursor.x - (Width as real) / 2.0, cursor.y), 1.0 / PixelToMeters);
      ghostPoint := ClampToCSpace(trig, scaled, l1, l2);
      ClampLandsInBand(trig, scaled, l1, l2);
      if canAdd {
        if dragged {
          pts := pts + [ghostPoint];
          canAdd := false;
        }
      }
      if |pts| != 0 {
        if pts[pointIndex] != armloop.goal && armloop.state != GoalTracking {
          armloop.SetGoal(pts[pointIndex]);
        }
      }
    }

    /** The debounce timer firing: adding goals is enabled again; nothing else changes. */
    method ReleaseDebounce()
      requires Valid()
      modifies this
      ensures Valid() && canAdd
      ensures pts == old(pts) && pointIndex == old(pointIndex) && ghostPoint == old(ghostPoint)
    {
      canAdd := true;
    }

    /**
     * `updateModel`: when both joints have stopped the loop is finished and
     * the queue index moves on if there is a further goal; then the state
     * machine runs one tick (`tick` is what the joints' physics does in it).
     * The source's other branch, which starts tracking when the index is
     * past the end of the queue, cannot be taken: the index never gets
     * there.
     */
    method UpdateModel(tick: Tick)
      requires Valid()
      modifies this, armloop, robotArm2.arm1, robotArm2.arm2
      ensures Valid()
      ensures pts == old(pts) && canAdd == old(canAdd) && ghostPoint == old(ghostPoint)
      ensures pointIndex == AdvanceIndex(old(robotArm2.IsStopped()), old(pointIndex), |pts|)
      ensures armloop.goal == old(armloop.goal)
      ensures old(robotArm2.IsStopped()) ==>
        && armloop.state == Finished && !armloop.calculated
        && armloop.a1 == old(armloop.a1) && armloop.a2 == old(armloop.a2)
        && robotArm2.arm1.Snapshot() == old(robotArm2.arm1.Snapshot()).(color := Blue)
        && robotArm2.arm2.Snapshot() == old(robotArm2.arm2.Snapshot()).(color := Blue)
      ensures !old(robotArm2.IsStopped()) ==> armloop.state == old(armloop.state)
      ensures !old(robotArm2.IsStopped()) && old(armloop.state) != GoalTracking ==>
        armloop.a1 == old(armloop.a1) && armloop.a2 == old(armloop.a2)
      ensures !old(robotArm2.IsStopped()) && old(armloop.state) == Waiting ==>
        && armloop.calculated == old(armloop.calculated)
        && robotArm2.arm1.Snapshot() == old(robotArm2.arm1.Snapshot()).(color := Yellow)
        && robotArm2.arm2.Snapshot() == old(robotArm2.arm2.Snapshot()).(color := Yellow)
      ensures !old(robotArm2.IsStopped()) && old(armloop.state) == Finished ==>
        && !armloop.calculated
        && robotArm2.arm1.Snapshot() == old(robotArm2.arm1.Snapshot()).(color := Blue)
        && robotArm2.arm2.Snapshot() == old(robotArm2.arm2.Snapshot()).(color := Blue)
      ensures !old(robotArm2.IsStopped()) && old(armloop.state) == Testing ==>
        && armloop.calculated == old(armloop.calculated)
        && robotArm2.arm1.Snapshot() == old(robotArm2.arm1.Snapshot()).(
             color := White, parentAngle := 0.0, voltage := 0.0, angle := tick.motion1.angle,
             vel := tick.motion1.vel, acc := tick.motion1.acc, stopped := tick.motion1.stopped)
        && robotArm2.arm2.Snapshot() == old(robotArm2.arm2.Snapshot()).(
             color := White, start := old(robotArm2.arm1.GetEndPtPxl(trig)), parentAngle := old(robotArm2.arm1.angle),
             voltage := 0.0, angle := tick.motion2.angle,
             vel := tick.motion2.vel, acc := tick.motion2.acc, stopped := tick.motion2.stopped)
      ensures !old(robotArm2.IsStopped()) && old(armloop.state) == GoalTracking ==>
        && armloop.calculated
        && (old(armloop.calculated) ==> armloop.a1 == old(armloop.a1) && armloop.a2 == old(armloop.a2))
        && (!old(armloop.calculated) ==>
              && IkDefined(trig, armloop.goal, robotArm2.arm1.length, robotArm2.arm2.length)
              && JointAngles(armloop.a1, armloop.a2) == InverseKinematics(trig, armloop.goal,
              old(robotArm2.arm1.angle), old(robotArm2.arm2.angle), robotArm2.arm1.length, robotArm2.arm2.length))
        && robotArm2.arm1.commands == old(robotArm2.arm1.commands) + [Command(armloop.a1, old(robotArm2.arm1.angle), JointTolerance())]
        && robotArm2.arm2.commands == old(robotArm2.arm2.commands) + [Command(armloop.a2, old(robotArm2.arm2.angle), JointTolerance())]
        && robotArm2.arm1.Snapshot() == old(robotArm2.arm1.Snapshot()).(
             color := tick.color1, parentAngle := 0.0, voltage := tick.voltage1, angle := tick.motion1.angle,
             vel := tick.motion1.vel, acc := tick.motion1.acc, stopped := tick.motion1.stopped)
        && robotArm2.arm2.Snapshot() == old(robotArm2.arm2.Snapshot()).(
             color := tick.color2, start := robotArm2.arm1.GetEndPtPxl(trig), parentAngle := robotArm2.arm1.angle,
             voltage := tick.voltage2, angle := tick.motion2.angle, vel := tick.motion2.vel, acc := tick.motion2.acc,
             stopped := tick.motion2.stopped)
      ensures old(robotArm2.IsStopped()) || old(armloop.state) != GoalTracking ==>
        && robotArm2.arm1.commands == old(robotArm2.arm1.commands)
        && robotArm2.arm2.commands == old(robotArm2.arm2.commands)
    {
      if robotArm2.IsStopped() {
        armloop.SetState(Finished);
        if |pts| - 1 > pointIndex {
          pointIndex := pointIndex + 1;
        }
      } else if pointIndex > |pts| {
        assert false;
      }
      if armloop.state == GoalTracking && !armloop.calculated {
        InBandIsSolvable(trig, armloop.goal, 0.0, 0.0, robotArm2.arm1.length, robotArm2.arm2.length);
      }
      armloop.OnLoop(trig, tick);
    }
  }
}
