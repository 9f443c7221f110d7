# Verified model of the lab's motion paths

This project models `paths.py`, the workspace-path code of a robot-arm lab
(Baxter/Sawyer under ROS). A `MotionPath` describes where the end effector
should be, and how fast it should move, over `total_time` seconds. There are
three kinds:

- `LinearPath`: a straight move from a start position to a tag;
- `CircularPath`: one turn around a tag in the horizontal plane;
- `MultiplePaths`: five straight moves visiting tags 0, 1, 2, 3 and back to 0.

`to_robot_trajectory` samples a path into a `RobotTrajectory`. Each
`trajectory_point` is either the analytic workspace position, velocity and
acceleration, or, in joint space, the inverse-kinematics solution at t plus
finite differences taken from the solutions at t - δ and t - 2δ (δ = 0.01 s).
`get_ik` retries the solver while ROS's shutdown flag is clear. It requests
a shutdown itself once it has used up its attempts.

## Layout

- `wrappers.dfy` (`Wrappers`): `Option` and `Result`.
- `geometry.dfy` (`Geometry`): 3-D and 2-D vectors, 2×2 matrices, dot and
  cross products, and rotation matrices.
- `linear_path.dfy` (`LinearPaths`): `LinearPath` and its properties.
- `circular_path.dfy` (`CircularPaths`): `CircularPath` and its properties.
- `composite_path.dfy` (`CompositePaths`): `MultiplePaths` and its properties.
- `kinematics.dfy` (`Kinematics`), the two objects the sampler changes:
  - the kinematics object, a class holding an IK solver and the log of
    requests made of it;
  - ROS's shutdown flag, a class holding the flag, the first reason given and
    the number of times the flag was read. A shutdown requested from outside
    (a signal, another callback or thread) is an oracle `interrupt`. It says
    whether such a request has arrived by the n-th read of the flag.

  It also holds `GetIkSpec`, the retry loop as a function of that state, and
  lemmas about it.
- `motion_path.dfy` (`MotionPaths`), the class `MotionPath`:
  - three named constructors, one per path kind;
  - the imperative methods `GetIk`, `TrajectoryPoint` and `ToRobotTrajectory`.

  Each method is proved equal to a specification function that threads the
  outside state (`GetIkSpec`, `TrajectoryPointSpec`, `ToRobotTrajectorySpec`).
- `trajectory_properties.dfy` (`TrajectoryProperties`): properties of those
  specification functions. These cover the trajectory's shape and timing,
  workspace mode, the finite-difference stencil, IK exhaustion and shutdown.

## Readings of the source

The source cannot run as written, so the model takes the evidently intended
reading wherever it is broken:

- Line 1 starts with a stray `l`.
- Line 230 puts a defaulted parameter before plain ones. The model's
  `MotionPath.Linear` takes the parameters in the order written, with the
  start optional.
- Lines 391-395:
  - pass `kin` where `start_pos` belongs;
  - put a keyword argument before positional ones;
  - read `path1` … `path4` without `self.`.

  The model builds five linear paths. Path 1 starts at the end effector's
  position. Each later path starts at the previous path's position at
  `total_time / 5`.
- Lines 263 and 283 read an undefined `tag_pos`, and also `tag_ps` and
  `star_pos`. The model reads `self.tag_pos` and `self.start_pos`.
- Line 321 reads `self.total_time` before line 322 sets it. The model uses the
  constructor's `total_time`.
- Line 378 reads an undefined `theta`. The model uses the angle at `time`, as
  lines 338 and 356 do.
- Lines 340 and 357 concatenate a scalar to a vector. The model appends that
  number as the third coordinate.
- Lines 410-465 read a bare `total_time`. The model uses the path's own.
- Lines 261-263 and 318 read `.x`, `.y` and `.z` off
  `endpoint_pose()['position']`, a record. The starts that `MultiplePaths`
  passes at lines 392-395 are arrays, where `.x` fails and the `== None` test
  at line 241 is ambiguous. The model treats every position as a record with
  x, y and z.
- The joint-space acceleration divides the second difference by 2δ, not δ².
  The model keeps this divisor; `StencilScaleForUniformAcceleration` states
  the scale it gives.
- When `get_ik` returns `None` (after shutdown, or once its attempts are used
  up), the arithmetic in `trajectory_point` raises. The model returns
  `Err(NoIkSolution)`, and sampling stops there with no partial trajectory.
  Joint vectors of different lengths give `Err(JointVectorMismatch)`.

## Model

| member | source | states |
|---|---|---|
| MotionPaths.MotionPath.Linear | src/proj1_pkg/src/paths/paths.py:230-245 | the straight path targets the first tag over `total_time`, starting at the given start or, when none is given, at the end effector's current position |
| MotionPaths.MotionPath.Circular | src/proj1_pkg/src/paths/paths.py:304-322 | the circle is centred on the first tag and starts at the end effector. Its radius runs from the centre to the start (corrected sign). Its angular velocity is 2π / total_time |
| MotionPaths.MotionPath.Multiple | src/proj1_pkg/src/paths/paths.py:389-396 | the composite path is the five-segment chain `NewMultiple` builds from the end effector's position and the tags, over `total_time` |
| MotionPaths.MotionPath.GetIk | src/proj1_pkg/src/paths/paths.py:216-227 | the loop reads the shutdown flag only while there is no answer. Its answer, the requests it made, its reads of the flag and the shutdown state it leaves are exactly those of `GetIkSpec`. The cap defaults to 10 |
| MotionPaths.MotionPath.TrajectoryPoint | src/proj1_pkg/src/paths/paths.py:179-198 | the point and the new solver/shutdown state are exactly `TrajectoryPointSpec`: three IK solves then finite differences, or the workspace queries |
| MotionPaths.MotionPath.ToRobotTrajectory | src/proj1_pkg/src/paths/paths.py:122-150 | the trajectory (or failure) and the new state are exactly `ToRobotTrajectorySpec`: linspace samples, then the settling point. It defaults to 300 waypoints in joint space |
| Kinematics.KinematicsAdapter.InverseKinematics | src/proj1_pkg/src/paths/paths.py:218-221 | one solver request: the answer is the solver's for this request and its number, and the request is appended to the log |
| Kinematics.RosNode.SignalShutdown | src/proj1_pkg/src/paths/paths.py:224-226 | shutdown is requested afterwards; the first reason given is kept |
| Kinematics.IkLoopFacts | src/proj1_pkg/src/paths/paths.py:216-227 | with no shutdown from outside before its requests, the rest of the loop from any attempt count below the cap does the following: <br>– it makes between 1 and the remaining number of requests, all for x with the fixed orientation, reading the flag before each one and once more if it ends without an answer; <br>– each answer but the last was None, and the result is the last answer; <br>– it requests shutdown exactly when the cap is reached |
| Kinematics.GetIkReturnsFirstAnswer | src/proj1_pkg/src/paths/paths.py:216-227 | with no shutdown from outside before its requests, `get_ik` makes k requests, 1 ≤ k ≤ max + 1. It returns the first answer that is not None. It returns None only after max + 1 requests. It requests shutdown, naming x, if and only if it made max + 1 requests |
| Kinematics.GetIkAfterShutdown | src/proj1_pkg/src/paths/paths.py:217 | after shutdown `get_ik` reads the flag once, asks nothing, returns None and changes nothing else |
| Kinematics.GetIkSucceedsIffSolvable | src/proj1_pkg/src/paths/paths.py:216-227 | with no shutdown from outside before its requests, `get_ik` returns joint angles if and only if one of the first max + 1 requests is answered |
| Kinematics.GetIkExhausted | src/proj1_pkg/src/paths/paths.py:222-226 | with a solver that never answers for x and no shutdown from outside, `get_ik` makes exactly max + 1 requests and max + 2 reads of the flag, returns None, and requests shutdown naming x |
| MotionPaths.Linspace | src/proj1_pkg/src/paths/paths.py:136 | the sample list has exactly `num_waypoints` entries |
| MotionPaths.SampleFailureStops | src/proj1_pkg/src/paths/paths.py:136-138 | after the first failing point, later samples add no requests and no points |
| TrajectoryProperties.LinspaceEndpoints | src/proj1_pkg/src/paths/paths.py:136 | with two or more samples, the first sample is start and the last is stop |
| TrajectoryProperties.LinspaceStep | src/proj1_pkg/src/paths/paths.py:136 | over a rising interval a later sample is strictly larger than an earlier one |
| TrajectoryProperties.LinspaceAscends | src/proj1_pkg/src/paths/paths.py:136 | the samples start at 0, end at total_time and strictly increase |
| TrajectoryProperties.LinspaceWithin | src/proj1_pkg/src/paths/paths.py:136 | every sample time lies in [0, total_time] |
| TrajectoryProperties.PointStampedAtT | src/proj1_pkg/src/paths/paths.py:197 | a produced point is stamped with its time t |
| TrajectoryProperties.FirstRequestAnswered | src/proj1_pkg/src/paths/paths.py:216-227 | when the flag is clear at its first read and the first request is answered, `get_ik` returns that answer after one request and one read, without shutdown |
| TrajectoryProperties.JointPointStencil | src/proj1_pkg/src/paths/paths.py:180-192 | when the solver answers the three stencil requests (numbers b, b + 1, b + 2, where b is the number of earlier requests) with n angles each and no shutdown comes from outside, a joint-space point does the following: <br>– it requests the positions at t − 2δ, t − δ and t, in that order; <br>– its positions are θ_t; <br>– its velocities are (θ_t − θ_{t−δ}) / δ; <br>– its accelerations are (θ_t − 2θ_{t−δ} + θ_{t−2δ}) / (2δ), joint by joint |
| TrajectoryProperties.JointPointOutcome | src/proj1_pkg/src/paths/paths.py:180-192 | with a solver that always answers with n angles and no shutdown from outside, a joint-space point succeeds. Its point is the stencil of the answers to requests b, b + 1, b + 2, and the state gains exactly those three requests and three reads of the flag |
| TrajectoryProperties.JointRunPoint | src/proj1_pkg/src/paths/paths.py:136-138 | under the same hypotheses, the i-th point of a run starts in the state after 3i stencil requests and 3i reads. It is the stencil of the answers to requests 3i, 3i + 1, 3i + 2, counted from the run's start, and it leaves the state after 3(i + 1) requests |
| TrajectoryProperties.SampleByPoints | src/proj1_pkg/src/paths/paths.py:135-138 | if every point of a run succeeds with a given point and passes the state on to the next one, then sampling any prefix of the run gives those points, in order, and the state after that prefix |
| TrajectoryProperties.JointSamplesAnswered | src/proj1_pkg/src/paths/paths.py:135-138 | with a solver that always answers with n angles and no shutdown from outside during the 3·|times| reads, joint-space sampling succeeds. It makes the stencil requests of every time in order, and point i is the stencil of the answers to requests 3i, 3i + 1, 3i + 2 |
| TrajectoryProperties.JointTrajectorySucceeds | src/proj1_pkg/src/paths/paths.py:133-150 | with a solver that always answers with n angles and no shutdown from outside during the 3·(num_waypoints + 1) reads, a joint-space trajectory succeeds with no shutdown. Its requests grow by the 3·(num_waypoints + 1) stencil requests of the linspace times and then total_time. Point i is the stencil of the answers to requests 3i, 3i + 1, 3i + 2; the last point is the one for total_time, restamped total_time + 1 |
| TrajectoryProperties.SamplesOfLongerRun | src/proj1_pkg/src/paths/paths.py:136-143 | extending a run by one more time leaves the stencil points of the earlier times unchanged |
| TrajectoryProperties.StencilExactForUniformMotion | src/proj1_pkg/src/paths/paths.py:190-192 | for joints at constant speed the stencil's velocities are exact and its accelerations zero |
| TrajectoryProperties.StencilScaleForUniformAcceleration | src/proj1_pkg/src/paths/paths.py:192 | for constant joint acceleration a the stencil reports a·δ/2 (divisor 2δ, not δ²) |
| TrajectoryProperties.SampleStampsTimes | src/proj1_pkg/src/paths/paths.py:136-138 | successful sampling gives one point per time, in order, each stamped with its time |
| TrajectoryProperties.TrajectoryShape | src/proj1_pkg/src/paths/paths.py:133-147 | a produced trajectory has the arm's joint names and frame "base". It has num_waypoints + 1 points, at the linspace times and then at total_time + 1 |
| TrajectoryProperties.TrajectoryTimesAscend | src/proj1_pkg/src/paths/paths.py:136-143 | the time stamps start at 0 and strictly increase through the settling point |
| TrajectoryProperties.WorkspaceSamples | src/proj1_pkg/src/paths/paths.py:193-196 | workspace sampling never fails or touches the solver, and each point is the analytic position, velocity and acceleration at its time |
| TrajectoryProperties.WorkspaceTrajectory | src/proj1_pkg/src/paths/paths.py:133-150 | a workspace trajectory always succeeds without requests. Its last point is the one for total_time, restamped total_time + 1 |
| TrajectoryProperties.PointAfterShutdown | src/proj1_pkg/src/paths/paths.py:184-192 | after shutdown a joint-space point fails with no requests, only reading the flag three times |
| TrajectoryProperties.JointTrajectoryAfterShutdown | src/proj1_pkg/src/paths/paths.py:133-150 | after shutdown a joint-space trajectory fails with no requests, and nothing changes but three reads of the flag |
| TrajectoryProperties.PointWithUnsolvableIk | src/proj1_pkg/src/paths/paths.py:184-192 | when the solver never answers for the position at t − 2δ and no shutdown comes from outside, a joint-space point makes max + 1 requests for that position, requests shutdown naming it, and fails |
| TrajectoryProperties.JointTrajectoryWithUnsolvableIk | src/proj1_pkg/src/paths/paths.py:133-150 | when the solver never answers for the run's first stencil position and no shutdown comes from outside, a joint-space trajectory fails with no partial result. It first makes exactly max + 1 requests for that position and requests shutdown naming it |
| TrajectoryProperties.LinearSamplingExample | src/proj1_pkg/src/paths/paths.py:136-147 | a 10 s move from the origin to (1, 0, 0) at 11 waypoints gives positions (i/10, 0, 0) at time i, plus (1, 0, 0) at time 11 |
| LinearPaths.StartsAtStart | src/proj1_pkg/src/paths/paths.py:260-261 | at any time ≤ 0 the position is the start |
| LinearPaths.ReachesTarget | src/proj1_pkg/src/paths/paths.py:262-263 | from total_time on the position is the tag |
| LinearPaths.Interpolates | src/proj1_pkg/src/paths/paths.py:262-263 | while under way the position is start + (tag − start)·t/T |
| LinearPaths.StaysOnSegment | src/proj1_pkg/src/paths/paths.py:260-263 | at every time the position lies on the segment from start to tag |
| LinearPaths.VelocityIsSlope | src/proj1_pkg/src/paths/paths.py:281-283 | on [0, T] the position equals the start plus the velocity times the elapsed time, so the velocity is the position's slope |
| LinearPaths.AtRestOutsideMove | src/proj1_pkg/src/paths/paths.py:281-301 | the velocity is zero outside (0, T] and the acceleration is zero everywhere |
| LinearPaths.AsWrittenJumpsAndOvershoots | src/proj1_pkg/src/paths/paths.py:262-263 | with `max` the position is the tag at every t in (0, T] and extrapolates past it after T |
| LinearPaths.AsWrittenCounterexample | src/proj1_pkg/src/paths/paths.py:262 | origin → (1, 0, 0) over 10 s. At t = 5 `max` gives (1, 0, 0) where `min` gives (0.5, 0, 0). At t = 20 `max` gives (2, 0, 0), off the segment |
| CircularPaths.FullTurn | src/proj1_pkg/src/paths/paths.py:321 | one period sweeps 2π, ω·T = 2π, and the position at time 0 is the start |
| CircularPaths.VelocityIsTangent | src/proj1_pkg/src/paths/paths.py:356-359 | the velocity is horizontal and perpendicular to the rotated radius |
| CircularPaths.AccelerationIsCentripetal | src/proj1_pkg/src/paths/paths.py:378-379 | the acceleration is ω × velocity; for t ≠ 0 it points from the position to the centre, scaled by ω² |
| CircularPaths.StaysOnCircle | src/proj1_pkg/src/paths/paths.py:336-340 | wherever rotation2d gives a rotation, the position is at the radius' distance from the centre and at the start's height |
| CircularPaths.UniformSpeed | src/proj1_pkg/src/paths/paths.py:356-359 | wherever rotation2d gives a rotation, the squared speed is ω²·\|radius\|² |
| CircularPaths.DegenerateRadiusAtRest | src/proj1_pkg/src/paths/paths.py:356-379 | with zero radius, velocity and acceleration are zero |
| CircularPaths.ClosesLoop | src/proj1_pkg/src/paths/paths.py:336-340 | with the corrected radius, the formula at angle 0 is the start, and after one period the path is back where it started |
| CircularPaths.AsWrittenStartsOpposite | src/proj1_pkg/src/paths/paths.py:318 | with the radius as written, the formula at angle 0 and the position at T are the start's mirror image through the centre |
| CircularPaths.AsWrittenCounterexample | src/proj1_pkg/src/paths/paths.py:318 | start at the origin with centre (1, 0, 0): the position is (0, 0, 0) at 0 but (2, 0, 0) after one period |
| CompositePaths.SegmentsChain | src/proj1_pkg/src/paths/paths.py:390-395 | each segment lasts T/5 and heads for tags 0, 1, 2, 3, 0 in turn. Each starts where the previous one ends, which is the previous tag; the first starts at the end effector |
| CompositePaths.Dispatch | src/proj1_pkg/src/paths/paths.py:410-465 | a time in slice k goes to segment k at local time t − (k−1)T/5, for position, velocity and acceleration |
| CompositePaths.BoundariesIncrease | src/proj1_pkg/src/paths/paths.py:410-416 | the slice boundaries 0, T/5, …, T strictly increase |
| CompositePaths.ContinuousAtBoundaries | src/proj1_pkg/src/paths/paths.py:410-419 | at each boundary kT/5 the position is tag k−1 (0-based), which is where segment k+1 starts |
| CompositePaths.TourEndsAtFirstTag | src/proj1_pkg/src/paths/paths.py:410-419 | the tour is at the end effector's position up to time 0 and at tag 0 from T on |
| LinearPaths.LinearPath.Position | src/proj1_pkg/src/paths/paths.py:260-263 | definition of `target_position` (with the corrected `min` index); properties in StartsAtStart, ReachesTarget, Interpolates, StaysOnSegment |
| LinearPaths.LinearPath.Velocity | src/proj1_pkg/src/paths/paths.py:281-283 | definition of `target_velocity`; properties in VelocityIsSlope, AtRestOutsideMove |
| LinearPaths.LinearPath.Acceleration | src/proj1_pkg/src/paths/paths.py:301 | definition of `target_acceleration` (zero); property in AtRestOutsideMove |
| LinearPaths.LinearPath.PositionAsWritten | src/proj1_pkg/src/paths/paths.py:260-263 | `target_position` as written, with the `max` index; properties in AsWrittenJumpsAndOvershoots, AsWrittenCounterexample |
| LinearPaths.NewLinear | src/proj1_pkg/src/paths/paths.py:239-245 | the fields the constructor sets; properties in MotionPath.Linear and SegmentsChain |
| CircularPaths.CircularPath.Position | src/proj1_pkg/src/paths/paths.py:336-340 | definition of `target_position`; properties in FullTurn, StaysOnCircle, ClosesLoop |
| CircularPaths.CircularPath.Velocity | src/proj1_pkg/src/paths/paths.py:356-359 | definition of `target_velocity`; properties in VelocityIsTangent, UniformSpeed |
| CircularPaths.CircularPath.Acceleration | src/proj1_pkg/src/paths/paths.py:378-379 | definition of `target_acceleration`, at the angle for `time`; property in AccelerationIsCentripetal |
| CircularPaths.NewCircular | src/proj1_pkg/src/paths/paths.py:313-321 | the constructor's fields with the corrected radius sign; properties in FullTurn, StaysOnCircle, ClosesLoop |
| CircularPaths.NewCircularAsWritten | src/proj1_pkg/src/paths/paths.py:313-321 | the constructor's fields with the radius as written; properties in AsWrittenStartsOpposite, AsWrittenCounterexample |
| CompositePaths.MultiplePaths.Position | src/proj1_pkg/src/paths/paths.py:410-419 | definition of `target_position`; properties in Dispatch, ContinuousAtBoundaries, TourEndsAtFirstTag |
| CompositePaths.MultiplePaths.Velocity | src/proj1_pkg/src/paths/paths.py:433-442 | definition of `target_velocity`; property in Dispatch |
| CompositePaths.MultiplePaths.Acceleration | src/proj1_pkg/src/paths/paths.py:456-465 | definition of `target_acceleration`; property in Dispatch |
| CompositePaths.NewMultiple | src/proj1_pkg/src/paths/paths.py:390-395 | the five chained segments the constructor builds; properties in SegmentsChain, ContinuousAtBoundaries |
| Kinematics.Poll | src/proj1_pkg/src/paths/paths.py:217 | one read of the shutdown flag, which takes in a shutdown requested from outside; the imperative form is RosNode.IsShutdown |
| Kinematics.IkLoop | src/proj1_pkg/src/paths/paths.py:216-227 | definition of `get_ik`'s loop from a given attempt count; properties in IkLoopBounded, IkLoopFacts, IkLoopInterrupted |
| Kinematics.GetIkSpec | src/proj1_pkg/src/paths/paths.py:200-227 | definition of `get_ik`; properties in GetIkBounded, GetIkReturnsFirstAnswer, GetIkInterrupted, GetIkAfterShutdown, GetIkSucceedsIffSolvable, GetIkExhausted |
| Kinematics.RosNode.IsShutdown | src/proj1_pkg/src/paths/paths.py:217 | one read of the flag. It counts the read, and it sets the flag if a shutdown from outside has arrived, with that as the reason unless one was already given. It returns the flag |
| Kinematics.IkLoopBounded | src/proj1_pkg/src/paths/paths.py:216-227 | whatever happens outside, the rest of the loop makes at most the remaining number of requests, all for x, and ends without an answer only when shutdown has been requested |
| Kinematics.IkLoopInterrupted | src/proj1_pkg/src/paths/paths.py:217 | a shutdown from outside first seen at the i-th read, before the cap and after i unanswered requests, ends the loop with None after exactly those i requests, with the outside request as the reason |
| Kinematics.GetIkBounded | src/proj1_pkg/src/paths/paths.py:216-227 | whatever happens outside, `get_ik` makes at most max + 1 requests, all for x, and returns None only once shutdown has been requested |
| Kinematics.GetIkInterrupted | src/proj1_pkg/src/paths/paths.py:217 | a shutdown from outside first seen at the i-th read of the flag (i ≤ max), after i unanswered requests, makes `get_ik` return None with no further request |
| MotionPaths.WorkspacePoint | src/proj1_pkg/src/paths/paths.py:193-197 | definition of a workspace point; property in WorkspaceSamples |
| MotionPaths.FiniteDifference | src/proj1_pkg/src/paths/paths.py:190-192 | definition of the joint-space stencil; properties in JointPointStencil, JointPointOutcome, JointTrajectorySucceeds, StencilExactForUniformMotion, StencilScaleForUniformAcceleration |
| MotionPaths.TrajectoryPointSpec | src/proj1_pkg/src/paths/paths.py:179-198 | definition of `trajectory_point`; properties in PointStampedAtT, JointPointStencil, JointPointOutcome, PointAfterShutdown, PointInterrupted, PointWithUnsolvableIk |
| MotionPaths.SampleSpec | src/proj1_pkg/src/paths/paths.py:135-138 | definition of the sampling loop; properties in SampleFailureStops, SampleStampsTimes, WorkspaceSamples, SampleByPoints, JointSamplesAnswered |
| MotionPaths.ToRobotTrajectorySpec | src/proj1_pkg/src/paths/paths.py:133-150 | definition of `to_robot_trajectory`; properties in TrajectoryShape, TrajectoryTimesAscend, WorkspaceTrajectory, JointTrajectorySucceeds and the joint-space failure lemmas |
| TrajectoryProperties.PointInterrupted | src/proj1_pkg/src/paths/paths.py:184-192 | a shutdown from outside seen at the first read of the flag makes a joint-space point fail with no request to the solver |
| TrajectoryProperties.JointTrajectoryInterrupted | src/proj1_pkg/src/paths/paths.py:133-150 | a shutdown from outside arriving while the run's first `get_ik` is still retrying makes the trajectory fail with no partial result and no further request, with the outside request as the reason |

## Left out

- `plot` (lines 84-120): drawing with matplotlib.
- The abstract `target_*` methods of the base class (lines 37-82): they only return `None`.
- ROS message classes, `rospy.Duration` and the header: `JointTrajectoryPoint` and `RobotTrajectory` are records. `time_from_start` is a real number of seconds.
- The IK solver (`kin.inverse_kinematics`) is a parameter. Its answer depends on the request and on how many requests it has served. `limb.endpoint_pose()` is the `endpointPosition` field of `Limb`.
- The shutdown log message is kept as the reason datatype `MaxIkAttemptsExceeded(x)`, not as formatted text. A shutdown from outside is `ShutdownFromOutside`.
- When a shutdown from outside arrives is given by the number of flag reads before it, not by wall-clock time. Signals, threads and the timing of other callbacks are not modelled.
- `rotation2d` is an uninterpreted parameter of `CircularPath`. It is defined outside `paths.py` and is not part of this model.
- CircularPaths.StaysOnCircle: assumes rotation2d yields a rotation matrix at the angle in question, because its definition is not modelled.
- CircularPaths.UniformSpeed: makes the same assumption.
- Floating point: arithmetic is exact real arithmetic. `math.pi` is the real 3.141592653589793. `np.linspace` rounding is not modelled.
- `total_time` is a positive real (`Duration`). A zero or negative duration, which divides by zero or runs backwards in the source, is excluded.
- numpy broadcasting of arrays of unequal length is not modelled. The model reports `JointVectorMismatch` instead.
- `ppo_node.py`, an unrelated reinforcement-learning node, is not part of this model.
- The attempt cap's shutdown and one from outside are told apart by the first reason given. If both arrive between two reads of the flag, the model records the cap's, because an outside request is taken in only when the flag is read.
- CircularPaths.ClosesLoop: assumes rotation2d gives the identity at 0 and at 2·`math.pi`. At 2·`math.pi` this is an idealisation. `math.pi` is slightly below π, so a true rotation matrix at that angle is not exactly the identity.
- CircularPaths.AsWrittenStartsOpposite: makes the same idealised assumption at 2·`math.pi` for the position at T.
- A `tag_pos` list that is too short (`IndexError` at lines 239, 313 and 391-395) is excluded by requiring at least one tag, or four for `MultiplePaths`.
- A negative `num_waypoints` (`ValueError` from `np.linspace`) is excluded by the type `nat`.

## Findings

| source | as written | input that shows it | evidently intended | confidence | as-written member | corrected member |
|---|---|---|---|---|---|---|
| src/proj1_pkg/src/paths/paths.py:262 | `index = max(time/total_time, 1)`: the path jumps to the tag at once and overshoots it after T | origin → (1, 0, 0), T = 10: position (1, 0, 0) at t = 5 and (2, 0, 0) at t = 20 | `min(time/total_time, 1)`: interpolate, then stay at the tag | not executed | LinearPaths.AsWrittenCounterexample | LinearPaths.StaysOnSegment |
| src/proj1_pkg/src/paths/paths.py:318 | radius = tag − start: the circle passes through the start's mirror image, and the path jumps there after time 0 | start (0, 0, 0), tag (1, 0, 0), T = 1, rotation2d(0) = rotation2d(2π) = identity: position (0, 0, 0) at 0, (2, 0, 0) at T | radius = start − tag, so the circle passes through the start and closes | not executed | CircularPaths.AsWrittenStartsOpposite | CircularPaths.ClosesLoop |
