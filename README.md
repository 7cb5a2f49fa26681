# GoArmSim core in Dafny

A model of the control and goal-sequencing core of GoArmSim. GoArmSim is a planar robot-arm simulator in which a two-link arm (shoulder and elbow) is driven towards goal points the operator clicks. The model covers:

- the point value and its setters (`point.go`);
- the utility arithmetic (`util.go`): angle conversion, the sign-dependent output clamp, the axis-aligned tolerance test, point scaling, centre of mass, point distance, the law-of-cosines angle, and the clamp that keeps a goal inside the annulus the arm reaches;
- the DC-motor catalog (`motor.go`);
- the discrete PID controller (`pidcontroller.go`);
- the single-joint arm driven by velocity commands (`arm.go`);
- the two-joint assembly and its inverse-kinematics solver (`arm2.go`);
- the goal-tracking state machine (`armloop.go`);
- the per-frame goal queue of `main.go`: `updateGoal` and `updateModel`, with the arm built by `createArm2`.

Go's `float64` becomes `real`. `cos`, `sin`, `atan`, `atan2`, `acos` and `hypot` are the fields of a `Trig` value passed to every member that uses them. The predicate `Trigonometry.Lawful` lists the facts about them that the proofs rely on: Pythagoras, the addition and negation formulas, hypot as the Euclidean norm, atan2 as the polar angle, acos on [-1, 1], and atan(y/x) = atan2(y, x) for x > 0. `math.Pi` is its float64 value.

Modules, one per source file:

| file | module | Go source |
|---|---|---|
| `arith.dfy` | `RealArith` | (real-number helper lemmas) |
| `trig.dfy` | `Trigonometry` | `math` |
| `point.dfy` | `Points` | point.go |
| `colors.dfy` | `Colors` | the colour literals of arm.go and armloop.go |
| `util.dfy` | `Util` | util.go |
| `motor.dfy` | `Motors` | motor.go |
| `pid.dfy` | `Pid` | pidcontroller.go |
| `arm.dfy` | `SingleArm` | arm.go |
| `arm2.dfy` | `TwoJoint` | arm2.go, the forward kinematics of main_test.go |
| `armloop.dfy` | `ArmLoops` | armloop.go |
| `main.dfy` | `Simulation` | main.go (`createArm2`, `updateGoal`, `updateModel`) |

Stateful Go code keeps its form:

- `pidcontroller`, the arm of arm.go, the joints, the state machine and main.go's package variables are classes with `modifies` clauses.
- `Arm2` holds two shared joint pointers and is copied by value in Go, so it is a datatype whose methods modify the two joints.
- armloop.go's package variables `calculated`, `a1` and `a2` are fields of `ArmLoop`.
- main.go's `pts`, `pointIndex`, `canAdd`, `ghost`, `robotArm2` and `armloop` are fields of `Simulation.Sim`.

Two behaviours of the code that differ from the usual textbook formulations:

- **Inverse kinematics.** The textbook two-link solver takes the shoulder offset as `atan2(l2 sin q2, l1 + l2 cos q2)`. arm2.go takes `math.Abs(math.Atan(ratio))` of that ratio, computed from the first elbow candidate for both solutions. It chooses the branch by quadrant: the second solution strictly inside the first quadrant, the first elsewhere. The current angles `ang1` and `ang2` are not used.
- **PID `lastError`.** A PID controller usually stores each error for the next derivative term. pidcontroller.go never writes `lastError`, so every derivative term is taken against its initial value.

## Model

| member | source | states |
|---|---|---|
| Points.PointVar.constructor | point.go:9-12 | the new variable holds the given point |
| Points.PointVar.SetX | point.go:16-18 | x becomes `newX`; y is unchanged |
| Points.PointVar.SetY | point.go:22-24 | y becomes `newY`; x is unchanged |
| Points.SetXThenY | point.go:16-24 | `setX(a)` then `setY(b)` yields (a, b) from any starting point |
| Points.SetYThenX | point.go:16-24 | the other order yields the same point, so the setters commute |
| Util.ToDegrees | util.go:21-23 | the result is to 180 what the argument is to pi |
| Util.ToRadians | util.go:28-30 | the result is to pi what the argument is to 180 |
| Util.DegreesRadiansRoundTrip | util.go:21-30 | the two conversions are inverse to each other in both orders |
| Util.OutputClamp | util.go:36-41 | a negative input gives max(n, min): the result is n or min, at least both; a non-negative input gives min(n, max): the result is n or max, at most both; an input within [min, max] is returned unchanged; with min <= 0 <= max the result lies in [min, max] |
| Util.CenterOfMass | util.go:48-52 | with equal masses the centre of mass is the midpoint |
| Util.WeightedMeanBetween | util.go:49-50 | with positive weights the weighted mean lies between the two values |
| Util.CenterOfMassBetween | util.go:48-52 | with positive masses each coordinate lies between the inputs' coordinates |
| Util.PointDistanceNorm | util.go:57-59 | the distance is non-negative and squares to the sum of the squared coordinate gaps |
| Util.PointDistanceSymmetric | util.go:57-59 | the distance from p1 to p2 equals the distance from p2 to p1 |
| Util.PointDistanceToSelf | util.go:57-59 | a point is at distance 0 from itself |
| Util.CosLawAngleSolvesLawOfCosines | util.go:65-67 | when the acos argument is in range, the angle is non-negative and c^2 = a^2 + b^2 - 2ab cos(angle) |
| Util.WithinBoundsSquare | util.go:73-81 | the test accepts every point strictly inside the circle of radius tolerance, and only points inside the circle of radius tolerance times sqrt 2 |
| Util.WithinBoundsIsNotACircle | util.go:69-81 | (0.9, 0.9) passes the test with tolerance 1 although it lies outside the unit circle: the test is a square, not the circle its comment describes |
| Util.ScalePoint | util.go:87-89 | scale 1 is the identity and scale 0 gives the origin |
| Util.ScalePointCompose | util.go:87-89 | scaling by a and then by b is scaling by a*b |
| Util.ClampToCSpace | util.go:101-108 | a point strictly inside the annulus is returned unchanged |
| Util.ClampRadius | util.go:110-122 | outside the annulus the result lies on the circle of the target radius: 1.001(l1-l2) strictly inside the inner circle, 0.999(l1+l2) otherwise |
| Util.ClampUnchangedIff | util.go:101-108 | for lengths 0 < l2 < l1 < 1999 l2, the clamp returns p unchanged exactly when (l1-l2)^2 < x^2+y^2 < (l1+l2)^2 |
| Util.ClampKeepsDirection | util.go:110-122 | outside the annulus the result (for l1 > l2 > 0 and p not the origin) is a positive multiple of p, so its direction is kept |
| Util.ClampLandsInBand | util.go:101-122 | for lengths 0 < l2 < l1 < 1999 l2 every clamped point lies strictly inside the annulus |
| Util.ClampInnerCircleGoesOuter | util.go:113-119 | a point exactly on the inner circle is moved to the outer radius 0.999(l1+l2) |
| Motors.NewMotor | motor.go:33-47 | "cim" in any letter case gets stall torque 2.42, stall current 133, free speed 5330, free current 2.7, resistance 12/133 and the kV that satisfies the kV relation; any other name gives the all-zero motor |
| Motors.MakeMotor | motor.go:51-58 | "cim" in any case gets the same four catalog constants and resistance * stall current = 12; any other name gives the all-zero motor |
| Motors.MakeMotorCorrected | motor.go:51-58 | the same catalog entry with kV computed as in `NewMotor`, satisfying both relations |
| Motors.CimBackVoltagePositive | motor.go:43 | the kV denominator 12 - (12/133) * 2.7 is positive |
| Motors.MakeMotorKvTruncated | motor.go:43-54 | `MakeMotor`'s CIM motor differs from the consistent one only in kV, which is strictly smaller and breaks the kV relation |
| Motors.CimLookupExamples | motor.go:36 | "CIM", "Cim" and "cim" are the catalog motor; "cim ", "775pro" and "" are not |
| Pid.SumAppend | pidcontroller.go:41 | appending one error to the history adds it to the accumulated sum |
| Pid.PidController.constructor | pidcontroller.go:13-24 | the given gains and tolerance, zero error sum and last error, flag clear |
| Pid.PidController.CalcPID | pidcontroller.go:30-54 | atTarget, and so `isDone`, holds iff the error is at most the tolerance argument; errorSum grows by exactly the error; the output is kP·e + kI·(updated sum) + kD·(e - lastError); lastError keeps its initial value; gains and the stored epsilon are unchanged |
| Pid.PidController.CopyFrom | arm.go:33-35 | every field of the controller becomes the argument's (copying a controller onto itself included) |
| Pid.CalcPIDTwice | pidcontroller.go:30-54 | over two calls the flag reflects only the second error, the sum grows by both errors, and both derivative terms use the same original lastError |
| SingleArm.AngleAfterFrame | arm.go:107-110 | one frame at angVel degrees per second turns the angle by angVel·pi/(180·50); it grows exactly when angVel is positive and stays put exactly when angVel is 0 |
| SingleArm.TruncateToInt | arm.go:124 | conversion to int truncates toward zero |
| SingleArm.Arm.constructor | arm.go:17-27 | the configured fields, velocity 0, and a fresh controller with the given gains and tolerance, zero error sum and last error, flag clear |
| SingleArm.Arm.SetPIDController | arm.go:33-35 | the arm's controller takes every field of the argument |
| SingleArm.Arm.GetStartPtIn | arm.go:55-57 | the base in inches is always the origin |
| SingleArm.Arm.GetAngleDeg | arm.go:60-62 | converting the result back to radians gives the angle |
| SingleArm.Arm.GetColor | arm.go:120-127 | red exactly when vel is 0; otherwise pure green, at least 127 when moving forward within top speed, at most 127 when moving backward, within 0..254 when within top speed |
| SingleArm.Arm.MoveArm | arm.go:107-110 | only the angle changes, by one frame at the given velocity |
| SingleArm.Arm.Update | arm.go:101-103 | one frame at the current velocity; nothing else changes |
| SingleArm.Arm.SetVelDPS | arm.go:73-76 | vel becomes the argument and the angle advances one frame at it |
| SingleArm.Arm.SetOutput | arm.go:80-83 | vel becomes percent·topSpeed, within top speed for a percent in [-1, 1], and the angle advances one frame at it |
| SingleArm.Arm.MovePID | arm.go:86-96 | if the global arm's flag is clear, vel is the PID output clamped to ±topSpeed and the controller is updated; if it is set, vel is 0, the angle stays and the controller is untouched; then one frame; the controller's gains, stored epsilon and lastError are unchanged either way |
| SingleArm.Arm.Stop | arm.go:113-115 | vel becomes 0 and the angle is unchanged |
| SingleArm.VelocityWithinTopSpeed | arm.go:80-81 | a fraction in [-1, 1] of a non-negative top speed has magnitude at most top speed |
| SingleArm.EndPointPixelsAreScaledInches | arm.go:38-51 | the pixel end point is the base plus 30 times the inch end point |
| SingleArm.EndPointAtArmLength | arm.go:38-43 | the pixel end point lies at the pixel length from the base |
| SingleArm.PixelLengthIsScaledInchLength | arm.go:46-67 | the inch end point lies at the arm's length from the origin, and the pixel length is 30 times that distance |
| TwoJoint.Joint.constructor | main.go:91-92 | a joint of the given length and angle, at rest, not stopped, no drive requests |
| TwoJoint.Joint.SetStartPt | arm2.go:22 | only the base moves |
| TwoJoint.Joint.MovePIDFF | armloop.go:68-69 | the drive request is recorded, the joint takes the drive voltage and the motion its physics produced; nothing else changes |
| TwoJoint.Joint.Integrate | arm2.go:31-33 | the joint takes the motion of one physics step; no request is recorded |
| TwoJoint.Arm2.Update | arm2.go:21-25 | the elbow's base becomes the shoulder's pixel end point and its parent angle the shoulder's angle; the shoulder's parent angle becomes 0; nothing else changes |
| TwoJoint.Arm2.Rest | arm2.go:28-34 | the elbow re-sync, then both voltages 0 and one physics step per joint, shoulder first |
| TwoJoint.Arm2.SetArmColors | arm2.go:38-41 | both joints take the colour; nothing else changes |
| TwoJoint.Arm2.SetJointAccelerations | arm2.go:77-80 | only the two accelerations change |
| TwoJoint.ElbowSolutions | arm2.go:57-64 | the elbow candidates are opposite (q2b = -q2a); the shoulder candidates satisfy q1a <= theta <= q1b and q1a + q1b = 2·theta around the goal's polar angle theta |
| TwoJoint.InverseKinematics | arm2.go:56-72 | strictly inside the first quadrant the answer is the candidate pair (q1b, q2b), with elbow -acos(k) and shoulder at or past theta; elsewhere it is (q1a, q2a), with elbow acos(k) and shoulder at or before theta |
| TwoJoint.IkIgnoresCurrentAngles | arm2.go:56-72 | the answer does not depend on the current joint angles |
| TwoJoint.IkElbowSign | arm2.go:66-71 | the elbow bends down (q2 <= 0) in the first quadrant and up (q2 >= 0) elsewhere |
| TwoJoint.ForwardKinematicsLinkLengths | main_test.go:31-36 | the elbow is at distance l1 from the origin and the end at distance l2 from the elbow |
| TwoJoint.ElbowCosineInRange | arm2.go:60 | for a goal on the closed annulus the acos argument is in [-1, 1] |
| TwoJoint.ElbowTriangle | arm2.go:61 | the shoulder arctangent's denominator l1 + l2 cos q2a is positive, and the triangle's squared length is l1^2 + l2^2 + 2 l1 l2 k |
| TwoJoint.RightOfOriginPolar | arm2.go:61 | for a vector with positive first coordinate, atan of its slope is its polar angle |
| TwoJoint.ForwardOfFirstSolution | arm2.go:60-61 | the first candidate reaches the goal |
| TwoJoint.ForwardOfSecondSolution | arm2.go:63-64 | the second candidate reaches the goal |
| TwoJoint.ElbowTrianglePolar | arm2.go:60-64 | the shoulder offset is non-negative and is the polar angle of the elbow triangle |
| TwoJoint.GoalOnAnnulus | arm2.go:57-60 | on the closed annulus the goal radius squares to l1^2 + l2^2 + 2 l1 l2 k |
| TwoJoint.GoalPolar | arm2.go:57-58 | the goal is its radius times the cosine and sine of its polar angle |
| TwoJoint.IkRoundTrip | arm2.go:56-72 | for 0 < l2 < l1 and every goal on the closed annulus, the solver is defined and forward kinematics of its answer is exactly the goal, whatever the current angles |
| TwoJoint.InBandIsSolvable | arm2.go:56-72 | for 0 < l2 < l1, every goal strictly inside the annulus is solvable and reached; with 0 < l2 < l1 < 1999 l2 this covers every output of the clamp |
| TwoJoint.TestIK | main_test.go:14-24 | for goal (0.375, 1.0) and lengths 1.0 and 0.8, forward kinematics of the solution is within 1.0 of the goal on each axis |
| ArmLoops.Ordinal | armloop.go:20-25 | each state's integer indexes the name table |
| ArmLoops.OfOrdinal | armloop.go:20-25 | an integer names a state exactly when it is in 0..3 |
| ArmLoops.String | armloop.go:35-37 | a name exists exactly for the integers of the four states; any other integer panics |
| ArmLoops.OrdinalRoundTrip | armloop.go:20-25 | states and their integers correspond one to one |
| ArmLoops.StateNamesDistinct | armloop.go:35-37 | 0..3 map to "waiting", "goalTracking", "finished", "testing", all distinct |
| ArmLoops.JointTolerance | armloop.go:68-69 | the drive tolerance is one degree in radians |
| ArmLoops.ArmLoop.constructor | main.go:100 | the loop over the given arm waits, with the origin as goal and the latch clear |
| ArmLoops.ArmLoop.SetState | armloop.go:41-43 | only the state changes |
| ArmLoops.ArmLoop.SetGoal | armloop.go:90-95 | goal becomes p and the state becomes goalTracking from any state; both joints' stopped flags are cleared; the latch and the cached angles are unchanged; so the assembly is no longer stopped (`isStopped` is false) |
| ArmLoops.ArmLoop.OnLoop | armloop.go:46-86 | the state and goal never change. waiting: yellow only. finished: blue, latch cleared. testing: white, then the rest step. goalTracking: computed colours; IK solved only when the latch is clear, and the latch is set; each joint is driven from its current angle towards the cached angle with a one-degree tolerance, taking the drive's voltage and motion; then the elbow is re-synced |
| ArmLoops.TrackTwice | armloop.go:59-69 | two tracking ticks in a row drive each joint to the same setpoint: the goal is solved at most once |
| Simulation.AdvanceIndex | main.go:140-142 | the index never decreases and grows by at most 1, exactly when both joints stopped and a further goal is queued; an in-range index stays in range |
| Simulation.IndexNeverPassesQueue | main.go:136-145 | over any run with a growing queue the index never decreases and stays at most max(0, len(pts)-1), so the `pointIndex > len(pts)` branch is never taken |
| Simulation.Sim.constructor | main.go:56-101 | `createArm2` then `canAdd = true`: fresh joints, shoulder 1.0 and elbow 0.8 at the given initial angles, neither stopped, with no drive requests, the elbow based at the shoulder's end point; a fresh loop waits over the same joints with the goal at the origin, the latch clear and the cached angles 0; the queue is empty, the index 0, adding enabled |
| Simulation.Sim.UpdateGoal | main.go:105-133 | the ghost point is the clamp of the cursor shifted by half the width and scaled by 1/500, and lies in the annulus; a drag while adding is enabled appends it and disables adding, otherwise the queue is unchanged; setGoal(pts[pointIndex]) happens exactly when the queue is non-empty, that entry differs from the goal and the loop is not tracking; the latch and the cached angles are unchanged, so a new goal is solved afresh only after a finished tick cleared the latch |
| Simulation.Sim.ReleaseDebounce | main.go:119-125 | adding is enabled again; the queue and index are unchanged |
| Simulation.Sim.UpdateModel | main.go:136-148 | the goal never changes; when both joints stopped the loop is finished, the latch is cleared, the joints turn blue with nothing else changed, and the index advances by `AdvanceIndex`; otherwise the state is unchanged and onLoop's result for that state follows: waiting turns the joints yellow only; finished turns them blue and clears the latch; testing gives the rest step; tracking solves the goal only when the latch was clear, sets it, appends to each joint the request from its old angle towards the cached angle with a one-degree tolerance, and takes the drive's voltage and motion; the second branch is unreachable; the queue is unchanged |

## Left out

- The joints' physics: `NewArm`, `movePIDFF`, `calcColor`, the voltage-driven `update` and `get2JEndPtPxl` are not part of this model. They are defined outside the Go files this model covers, and arm.go's `Arm` lacks the fields they use. Each call takes its outcome (a `Motion`, a colour) as a parameter, and `movePIDFF` records the request in a ghost history.
- TwoJoint.Joint.SetStartPt: the setter `setStartPt` is defined outside the modelled Go files; it is assumed to assign only the base, as main.go:97 does when it assigns `.start` directly.
- TwoJoint.Joint.constructor: the joints' base starts at the origin and their colour at red. `NewArm` is not part of this model, so these starting values are assumed.
- TwoJoint.Joint.GetEndPtPxl: uses arm.go's end-point formula at 30 pixels per inch. The joint type used by arm2.go is defined outside arm.go, so arm.go's 30 pixels-per-inch end-point formula is assumed to carry over.
- Util.ClampKeepsDirection: stated for 0 < l2 < l1. For l1 < l2 the inner branch's radius 1.001(l1 - l2) is negative, and the point is reflected through the origin instead.
- Util.PointDistance, Util.CosLawAngle, Util.WithinBounds, SingleArm.Arm.GetLengthPxl, SingleArm.Arm.GetEndPtPxl, SingleArm.Arm.GetEndPtIn, Pid.PidController.IsDone and TwoJoint.Arm2.IsStopped: no contract of their own. What they mean is stated by the lemmas and methods listed for the same source lines in the table above.
- The joints' initial angles: `NewArm` is defined outside the modelled Go files, so `Simulation.Sim.constructor` takes the two initial angles as parameters.
- Floating point: rounding, NaN from `acos` outside [-1, 1], infinities, and `math.Signbit` on -0.0. Reals have none of these, so the solver requires the acos argument in range (`IkDefined`).
- Util.CenterOfMass and Util.CosLawAngle: require a non-zero divisor (m1 + m2, and a and b). Go divides anyway and returns ±Inf or NaN, which reals cannot represent.
- TwoJoint.IkDefined: its conjunct `ElbowReach != 0` excludes the goals where arm2.go divides by zero under `math.Atan`; Go then returns atan(±Inf) = ±π/2 instead of failing. Such goals exist only when l1 <= l2, and `TwoJoint.InBandIsSolvable` shows that for 0 < l2 < l1 every in-band goal satisfies `IkDefined`.
- SingleArm.Arm.GetColor: a top speed of 0 with a non-zero velocity divides into an infinity whose conversion to int Go leaves undefined. The model gives green 0 there.
- Motors.EqualFold: compares ASCII letters only, not Unicode case folding.
- TwoJoint.IkRoundTrip: proved for link lengths 0 < l2 < l1 (arm2.go is used with 1.0 and 0.8), not for l1 <= l2.
- Util.ClampUnchangedIff and Util.ClampLandsInBand: stated for lengths 0 < l2 < l1 < 1999 l2. Outside that range 1.001(l1-l2) can exceed l1+l2, or the clamp radius can equal a boundary.
- SingleArm.Arm.MovePID: reads the package variable `robotArm` (main.go:34), which only `createArm` assigns (main.go:71-77); `main` calls only `createArm2` (main.go:56), so in the program as written the call would dereference nil. The model takes a non-null `Arm` and states what the call does on it.
- The debounce timer and its goroutine (main.go:115-125): the goroutine's effect is the separate method `Simulation.Sim.ReleaseDebounce`. When it runs relative to the frames is not modelled.
- Cursor input: the mouse position and drag flag are parameters of `UpdateGoal`.
- Rendering and debug printing: graphics.go, the drawing functions of main.go, and the `fmt.Println` calls. Screen output only.
- main_test.go's call of `InverseKinematics` with three arguments does not match the solver's signature. `TestIK` uses the five-argument solver with current angles 0.

## Findings

| source | as written | input that shows it | evidently intended | confidence | as-written member | corrected member |
|---|---|---|---|---|---|---|
| motor.go:54 | `5330 / 60 * 2 * math.Pi` is an untyped constant expression, so `5330 / 60` is integer division (88) | `MakeMotor("cim")`: kV = 88·2π/(12 − 12·2.7/133), below `NewMotor("cim")`'s 88.83…·2π/(…) | kV computed from the free speed 5330/60 = 88.83… rev/s, as `NewMotor` does at motor.go:43 | high; not executed | Motors.MakeMotorKvTruncated | Motors.MakeMotorCorrected |
