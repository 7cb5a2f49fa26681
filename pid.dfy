/**
 * pidcontroller.go: a discrete PID controller that assumes a fixed loop
 * period.  `calcPID` updates the accumulated error and the at-target flag
 * in place, so the controller is a class.
 *
 * The ghost history `errors` records the error of every call since the
 * controller was configured; `Valid` ties the running sum to it.
 */
module Pid {
  import opened RealArith

  /** The sum of a sequence of errors, first to last. */
  function Sum(s: seq<real>): real {
    if |s| == 0 then 0.0 else s[0] + Sum(s[1..])
  }

  /** Adding one more error adds it to the sum. */
  lemma {:induction false} SumAppend(s: seq<real>, e: real)
    ensures Sum(s + [e]) == Sum(s) + e
  {
    if |s| == 0 {
      assert s + [e] == [e];
    } else {
      assert (s + [e])[1..] == s[1..] + [e];
      SumAppend(s[1..], e);
    }
  }

  class PidController {
    var kP: real        // proportional gain
    var kI: real        // integral gain
    var kD: real        // derivative gain
    var errorSum: real  // sum of all errors so far
    var lastError: real // previous error, for the derivative term
    var epsilon: real   // stored tolerance
    var atTarget: bool  // whether the last error was within tolerance

    ghost var initialErrorSum: real
    ghost var initialLastError: real
    ghost var errors: seq<real>

    ghost predicate Valid()
      reads this
    {
      errorSum == initialErrorSum + Sum(errors) && lastError == initialLastError
    }

    /** A controller with the given gains and tolerance and nothing accumulated. */
    constructor (p: real, i: real, d: real, eps: real)
      ensures Valid() && errors == []
      ensures kP == p && kI == i && kD == d && epsilon == eps
      ensures errorSum == 0.0 && lastError == 0.0 && !atTarget
    {
      kP, kI, kD, epsilon := p, i, d, eps;
      errorSum, lastError, atTarget := 0.0, 0.0, false;
      initialErrorSum, initialLastError, errors := 0.0, 0.0, [];
    }

    /** What `calcPID(setpoint, current, _)` returns from the current state. */
    function Response(setpoint: real, current: real): real
      reads this
    {
      var e := setpoint - current;
      kP * e + kI * (errorSum + e) + kD * (e - lastError)
    }

    /**
     * `calcPID`: the error is the setpoint minus the current value; the flag
     * records whether it is within the tolerance argument; the error is added
     * to the running sum; the output is P on the error, I on the updated sum
     * and D on the change from `lastError`, which is never written.
     */
    method CalcPID(setpoint: real, current: real, tolerance: real) returns (out: real)
      requires Valid()
      modifies this
      ensures Valid()
      ensures atTarget <==> Abs(setpoint - current) <= tolerance
      ensures IsDone() <==> Abs(setpoint - current) <= tolerance
      ensures errorSum == old(errorSum) + (setpoint - current)
      ensures errors == old(errors) + [setpoint - current]
      ensures out == old(Response(setpoint, current))
      ensures out == kP * (setpoint - current) + kI * errorSum + kD * ((setpoint - current) - initialLastError)
      ensures kP == old(kP) && kI == old(kI) && kD == old(kD)
      ensures lastError == old(lastError) && epsilon == old(epsilon)
      ensures initialErrorSum == old(initialErrorSum) && initialLastError == old(initialLastError)
    {
      var error := setpoint - current;
      atTarget := Abs(error) <= tolerance;
      var pOut := kP * error;
      errorSum := errorSum + error;
      SumAppend(errors, error);
      errors := errors + [error];
      var iOut := kI * errorSum;
      var dError := error - lastError;
      var dOut := kD * dError;
      out := pOut + iOut + dOut;
    }

    /** `isDone`: the flag left by the most recent `calcPID`. */
    function IsDone(): bool
      reads this
    {
      atTarget
    }

    /** Copies every field of `other` (the struct assignment in `setPIDController`). */
    method CopyFrom(other: PidController)
      modifies this
      ensures kP == other.kP && kI == other.kI && kD == other.kD
      ensures errorSum == other.errorSum && lastError == other.lastError
      ensures epsilon == other.epsilon && atTarget == other.atTarget
      ensures Valid() && errors == []
    {
      kP, kI, kD := other.kP, other.kI, other.kD;
      errorSum, lastError := other.errorSum, other.lastError;
      epsilon, atTarget := other.epsilon, other.atTarget;
      initialErrorSum, initialLastError, errors := other.errorSum, other.lastError, [];
    }
  }

  /**
   * Two calls in a row: the flag reflects only the second error, the sum
   * grows by both errors and both derivative terms use the same `lastError`.
   */
  method CalcPIDTwice(pid: PidController, sp1: real, cur1: real, sp2: real, cur2: real, tolerance: real)
    returns (out1: real, out2: real)
    requires pid.Valid()
    modifies pid
    ensures pid.Valid()
    ensures pid.errorSum == old(pid.errorSum) + (sp1 - cur1) + (sp2 - cur2)
    ensures pid.IsDone() <==> Abs(sp2 - cur2) <= tolerance
    ensures out1 - pid.kP * (sp1 - cur1) - pid.kI * (old(pid.errorSum) + (sp1 - cur1))
         == pid.kD * ((sp1 - cur1) - old(pid.lastError))
    ensures out2 - pid.kP * (sp2 - cur2) - pid.kI * pid.errorSum
         == pid.kD * ((sp2 - cur2) - old(pid.lastError))
  {
    out1 := pid.CalcPID(sp1, cur1, tolerance);
    out2 := pid.CalcPID(sp2, cur2, tolerance);
  }
}
