/**
 * MotionPath: a path of any of the three kinds, and the sampler that turns it
 * into a joint trajectory, resolving workspace points through the IK solver.
 */
module MotionPaths {
  import opened Wrappers
  import opened Geometry
  import opened LinearPaths
  import opened CircularPaths
  import opened CompositePaths
  import opened Kinematics

  /** Step of the backward finite-difference stencil, in seconds. */
  const DELTA_T: real := 0.01

  /** Extra time given to the final point so that the controller can settle. */
  const SETTLING_TIME: real := 1.0

  const FRAME_ID: string := "base"

  /** `to_robot_trajectory`'s default number of evenly spaced samples. */
  const DEFAULT_NUM_WAYPOINTS: nat := 300

  /** The arm, as the path code uses it: its joint names and the end effector's current position. */
  datatype Limb = Limb(jointNames: seq<string>, endpointPosition: Vec3)

  /** The three kinds of MotionPath. */
  datatype Path =
    | Linear(linear: LinearPath)
    | Circular(circular: CircularPath)
    | Multiple(multiple: MultiplePaths)
  {
    function TotalTime(): Duration {
      match this
      case Linear(p) => p.totalTime
      case Circular(p) => p.totalTime
      case Multiple(p) => p.totalTime
    }

    function Position(time: real): Vec3 {
      match this
      case Linear(p) => p.Position(time)
      case Circular(p) => p.Position(time)
      case Multiple(p) => p.Position(time)
    }

    function Velocity(time: real): Vec3 {
      match this
      case Linear(p) => p.Velocity(time)
      case Circular(p) => p.Velocity(time)
      case Multiple(p) => p.Velocity(time)
    }

    function Acceleration(time: real): Vec3 {
      match this
      case Linear(p) => p.Acceleration(time)
      case Circular(p) => p.Acceleration(time)
      case Multiple(p) => p.Acceleration(time)
    }
  }

  datatype JointTrajectoryPoint = JointTrajectoryPoint(
    positions: seq<real>,
    velocities: seq<real>,
    accelerations: seq<real>,
    timeFromStart: real)

  datatype RobotTrajectory = RobotTrajectory(
    jointNames: seq<string>,
    frameId: string,
    points: seq<JointTrajectoryPoint>)

  /**
   * Why sampling stops: an IK result was missing (arithmetic on None raises), or
   * the three joint vectors of the stencil differ in length.
   */
  datatype Failure = NoIkSolution | JointVectorMismatch

  /** numpy's `linspace(start, stop, num)`: num evenly spaced values from start to stop. */
  function Linspace(start: real, stop: real, num: nat): (r: seq<real>)
    ensures |r| == num
  {
    if num == 1 then [start]
    else seq(num, i => start + (i as real) * ((stop - start) / ((num - 1) as real)))
  }

  /** A workspace point: the three analytic queries at `t`, stamped `t`. */
  function WorkspacePoint(path: Path, t: real): JointTrajectoryPoint {
    JointTrajectoryPoint(path.Position(t).ToSeq(), path.Velocity(t).ToSeq(), path.Acceleration(t).ToSeq(), t)
  }

  /**
   * A joint-space point from the IK results at t - 2 delta, t - delta and t:
   * positions theta_t, velocities (theta_t - theta_t1) / delta, accelerations
   * (theta_t - 2 theta_t1 + theta_t2) / (2 delta).
   */
  function FiniteDifference(thetaT2: Option<seq<real>>, thetaT1: Option<seq<real>>, thetaT: Option<seq<real>>, t: real)
    : Result<JointTrajectoryPoint, Failure>
  {
    if thetaT2.None? || thetaT1.None? || thetaT.None? then Err(NoIkSolution)
    else
      var th2, th1, th0 := thetaT2.value, thetaT1.value, thetaT.value;
      if |th2| != |th0| || |th1| != |th0| then Err(JointVectorMismatch)
      else
        Ok(JointTrajectoryPoint(
          th0,
          seq(|th0|, i requires 0 <= i < |th0| => (th0[i] - th1[i]) / DELTA_T),
          seq(|th0|, i requires 0 <= i < |th0| => (th0[i] - 2.0 * th1[i] + th2[i]) / (2.0 * DELTA_T)),
          t))
  }

  datatype PointOutcome = PointOutcome(point: Result<JointTrajectoryPoint, Failure>, env: Env)

  /** What `trajectory_point(t, jointspace)` returns and leaves behind. */
  function TrajectoryPointSpec(path: Path, solve: Solver, interrupt: Interrupts, env: Env, t: real, jointspace: bool): PointOutcome {
    if jointspace then
      var o2 := GetIkSpec(solve, interrupt, env, path.Position(t - 2.0 * DELTA_T), MAX_IK_ATTEMPTS);
      var o1 := GetIkSpec(solve, interrupt, o2.env, path.Position(t - DELTA_T), MAX_IK_ATTEMPTS);
      var o0 := GetIkSpec(solve, interrupt, o1.env, path.Position(t), MAX_IK_ATTEMPTS);
      PointOutcome(FiniteDifference(o2.theta, o1.theta, o0.theta, t), o0.env)
    else
      PointOutcome(Ok(WorkspacePoint(path, t)), env)
  }

  datatype SampleOutcome = SampleOutcome(points: Result<seq<JointTrajectoryPoint>, Failure>, env: Env)

  /** One trajectory point per time, in order, stopping at the first failure. */
  function SampleSpec(path: Path, solve: Solver, interrupt: Interrupts, env: Env, times: seq<real>, jointspace: bool): SampleOutcome
    decreases |times|
  {
    if times == [] then SampleOutcome(Ok([]), env)
    else
      var prefix := SampleSpec(path, solve, interrupt, env, times[..|times| - 1], jointspace);
      if prefix.points.Err? then prefix
      else
        var last := TrajectoryPointSpec(path, solve, interrupt, prefix.env, times[|times| - 1], jointspace);
        if last.point.Err? then SampleOutcome(Err(last.point.error), last.env)
        else SampleOutcome(Ok(prefix.points.value + [last.point.value]), last.env)
  }

  datatype TrajectoryOutcome = TrajectoryOutcome(trajectory: Result<RobotTrajectory, Failure>, env: Env)

  /**
   * What `to_robot_trajectory(num_waypoints, jointspace)` returns and leaves
   * behind: the points at the linspace times, then the point for T stamped
   * T + 1.
   */
  function ToRobotTrajectorySpec(limb: Limb, path: Path, solve: Solver, interrupt: Interrupts, env: Env, numWaypoints: nat, jointspace: bool)
    : TrajectoryOutcome
  {
    var T := path.TotalTime();
    var sampled := SampleSpec(path, solve, interrupt, env, Linspace(0.0, T, numWaypoints), jointspace);
    if sampled.points.Err? then TrajectoryOutcome(Err(sampled.points.error), sampled.env)
    else
      var extra := TrajectoryPointSpec(path, solve, interrupt, sampled.env, T, jointspace);
      if extra.point.Err? then TrajectoryOutcome(Err(extra.point.error), extra.env)
      else
        var settled := extra.point.value.(timeFromStart := T + SETTLING_TIME);
        TrajectoryOutcome(Ok(RobotTrajectory(limb.jointNames, FRAME_ID, sampled.points.value + [settled])), extra.env)
  }

  /** Once sampling has failed, sampling more times changes neither the failure nor the state. */
  lemma {:induction false} SampleFailureStops(path: Path, solve: Solver, interrupt: Interrupts, env: Env, times: seq<real>, j: nat, jointspace: bool)
    requires j <= |times|
    requires SampleSpec(path, solve, interrupt, env, times[..j], jointspace).points.Err?
    ensures SampleSpec(path, solve, interrupt, env, times, jointspace) == SampleSpec(path, solve, interrupt, env, times[..j], jointspace)
    decreases |times|
  {
    if j < |times| {
      var init := times[..|times| - 1];
      assert init[..j] == times[..j];
      SampleFailureStops(path, solve, interrupt, env, init, j, jointspace);
    } else {
      assert times[..j] == times;
    }
  }

  /**
   * A MotionPath: the arm, its kinematics object and the path's geometry,
   * which is fixed once built. The methods change only the kinematics object
   * (requests made) and ROS's shutdown flag.
   */
  class MotionPath {
    const limb: Limb
    const kin: KinematicsAdapter
    const path: Path

    /** LinearPath's constructor: start at `startPos`, or where the end effector is. */
    constructor Linear(limb: Limb, startPos: Option<Vec3>, kin: KinematicsAdapter, totalTime: Duration, tagPos: seq<Vec3>)
      requires |tagPos| >= 1
      ensures this.limb == limb && this.kin == kin && path.Linear?
      ensures path.linear.startPos == (if startPos.Some? then startPos.value else limb.endpointPosition)
      ensures path.linear.tagPos == tagPos[0] && path.linear.totalTime == totalTime
    {
      this.limb := limb;
      this.kin := kin;
      this.path := Path.Linear(NewLinear(limb.endpointPosition, startPos, totalTime, tagPos));
    }

    /** CircularPath's constructor: start where the end effector is, centred on the first tag. */
    constructor Circular(limb: Limb, kin: KinematicsAdapter, totalTime: Duration, tagPos: seq<Vec3>, rotation: real -> Mat2)
      requires |tagPos| >= 1
      ensures this.limb == limb && this.kin == kin && path.Circular?
      ensures path.circular.startPos == limb.endpointPosition && path.circular.tagPos == tagPos[0]
      ensures path.circular.radius == FromCentre(path.circular, limb.endpointPosition)
      ensures path.circular.angVelocity == 2.0 * PI / totalTime && path.circular.totalTime == totalTime
      ensures forall theta :: path.circular.rotation(theta) == rotation(theta)
    {
      this.limb := limb;
      this.kin := kin;
      this.path := Path.Circular(NewCircular(limb.endpointPosition, totalTime, tagPos, rotation));
    }

    /** MultiplePaths' constructor: five chained straight moves over tags 0, 1, 2, 3, 0. */
    constructor Multiple(limb: Limb, kin: KinematicsAdapter, totalTime: Duration, tagPos: seq<Vec3>)
      requires |tagPos| >= 4
      ensures this.limb == limb && this.kin == kin && path.Multiple?
      ensures path.multiple == NewMultiple(limb.endpointPosition, totalTime, tagPos)
      ensures path.TotalTime() == totalTime
    {
      this.limb := limb;
      this.kin := kin;
      this.path := Path.Multiple(NewMultiple(limb.endpointPosition, totalTime, tagPos));
    }

    /** The outside state: requests made of the solver and ROS's shutdown flag. */
    function EnvOf(ros: RosNode): Env
      reads kin, ros
    {
      Env(kin.queries, ros.polls, ros.shutdown, ros.reason)
    }

    /**
     * `get_ik`: while there is no answer and the shutdown flag is not set, ask
     * the solver for joint angles reaching `x`, requesting shutdown once the
     * attempts exceed the cap. The flag is read only while there is no answer.
     */
    method GetIk(ros: RosNode, x: Vec3, maxIkAttempts: nat := MAX_IK_ATTEMPTS) returns (theta: Option<seq<real>>)
      modifies kin, ros
      ensures IkOutcome(theta, EnvOf(ros)) == GetIkSpec(kin.solve, ros.interrupt, old(EnvOf(ros)), x, maxIkAttempts)
    {
      var ikAttempts: nat := 0;
      theta := None;
      var done := false;
      while !done
        invariant !done ==> theta.None? && (ros.shutdown || ikAttempts <= maxIkAttempts)
        invariant !done ==>
          IkLoop(kin.solve, ros.interrupt, x, maxIkAttempts, EnvOf(ros), ikAttempts) ==
          GetIkSpec(kin.solve, ros.interrupt, old(EnvOf(ros)), x, maxIkAttempts)
        invariant done ==>
          IkOutcome(theta, EnvOf(ros)) == GetIkSpec(kin.solve, ros.interrupt, old(EnvOf(ros)), x, maxIkAttempts)
        decreases if done then 0 else if ros.shutdown then 1 else maxIkAttempts + 2 - ikAttempts
      {
        var isShutdown := ros.IsShutdown();
        if isShutdown {
          done := true;
        } else {
          theta := kin.InverseKinematics(x, IK_ORIENTATION);
          ikAttempts := ikAttempts + 1;
          if ikAttempts > maxIkAttempts {
            ros.SignalShutdown(MaxIkAttemptsExceeded(x));
          }
          done := theta.Some?;
        }
      }
    }

    /**
     * `trajectory_point`: in joint space, solve IK at t - 2 delta, t - delta
     * and t and take finite differences; otherwise package the workspace
     * queries. Either way the point is stamped t.
     */
    method TrajectoryPoint(ros: RosNode, t: real, jointspace: bool) returns (r: Result<JointTrajectoryPoint, Failure>)
      modifies kin, ros
      ensures PointOutcome(r, EnvOf(ros)) == TrajectoryPointSpec(path, kin.solve, ros.interrupt, old(EnvOf(ros)), t, jointspace)
    {
      if jointspace {
        var thetaT2 := GetIk(ros, path.Position(t - 2.0 * DELTA_T));
        var thetaT1 := GetIk(ros, path.Position(t - DELTA_T));
        var thetaT := GetIk(ros, path.Position(t));
        r := FiniteDifference(thetaT2, thetaT1, thetaT, t);
      } else {
        r := Ok(WorkspacePoint(path, t));
      }
    }

    /**
     * `to_robot_trajectory`: sample the path at `numWaypoints` evenly spaced
     * times from 0 to T, then add the point for T once more, stamped T + 1.
     */
    method ToRobotTrajectory(ros: RosNode, numWaypoints: nat := DEFAULT_NUM_WAYPOINTS, jointspace: bool := true)
      returns (r: Result<RobotTrajectory, Failure>)
      modifies kin, ros
      ensures TrajectoryOutcome(r, EnvOf(ros)) ==
        ToRobotTrajectorySpec(limb, path, kin.solve, ros.interrupt, old(EnvOf(ros)), numWaypoints, jointspace)
    {
      var T := path.TotalTime();
      var times := Linspace(0.0, T, numWaypoints);
      var points: seq<JointTrajectoryPoint> := [];
      for i := 0 to numWaypoints
        invariant SampleSpec(path, kin.solve, ros.interrupt, old(EnvOf(ros)), times[..i], jointspace) == SampleOutcome(Ok(points), EnvOf(ros))
      {
        var point := TrajectoryPoint(ros, times[i], jointspace);
        assert times[..i + 1][..i] == times[..i];
        if point.Err? {
          SampleFailureStops(path, kin.solve, ros.interrupt, old(EnvOf(ros)), times, i + 1, jointspace);
          return Err(point.error);
        }
        points := points + [point.value];
      }
      assert times[..numWaypoints] == times;
      var extra := TrajectoryPoint(ros, T, jointspace);
      if extra.Err? {
        return Err(extra.error);
      }
      points := points + [extra.value.(timeFromStart := T + SETTLING_TIME)];
      r := Ok(RobotTrajectory(limb.jointNames, FRAME_ID, points));
    }
  }
}
