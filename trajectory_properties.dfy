/**
 * What the sampler promises: the shape and timing of the trajectory it
 * returns, what a workspace trajectory holds, the finite-difference stencil of
 * a joint-space point, and how a failing solver or a shutdown abort the run.
 */
module TrajectoryProperties {
  import opened Wrappers
  import opened Geometry
  import opened LinearPaths
  import opened Kinematics
  import opened MotionPaths

  // ---------------------------------------------------------------- linspace

  lemma PositiveProduct(a: real, b: real)
    requires a > 0.0 && b > 0.0
    ensures a * b > 0.0
  {
  }

  lemma PositiveQuotient(a: real, b: real)
    requires a > 0.0 && b > 0.0
    ensures a / b > 0.0
  {
  }

  /** More steps of a positive length reach further. */
  lemma StepsAscend(a: real, b: real, step: real)
    requires a < b && step > 0.0
    ensures a * step < b * step
  {
    PositiveProduct(b - a, step);
    assert b * step - a * step == (b - a) * step;
  }

  /** n steps of length d / n cover d. */
  lemma StepsFill(d: real, n: real)
    requires n > 0.0
    ensures n * (d / n) == d
  {
  }

  /** With two or more samples, linspace starts at `start` and ends at `stop`. */
  lemma LinspaceEndpoints(start: real, stop: real, num: nat)
    requires num >= 2
    ensures var r := Linspace(start, stop, num);
      r[0] == start && r[num - 1] == stop
  {
    var r := Linspace(start, stop, num);
    var n1 := (num - 1) as real;
    var step := (stop - start) / n1;
    StepsFill(stop - start, n1);
    assert r[0] == start + 0.0 * step == start;
    assert r[num - 1] == start + n1 * step == stop;
  }

  /** Over a rising interval, a later linspace sample is strictly larger. */
  lemma LinspaceStep(start: real, stop: real, num: nat, i: nat, j: nat)
    requires start < stop && i < j < num
    ensures Linspace(start, stop, num)[i] < Linspace(start, stop, num)[j]
  {
    var r := Linspace(start, stop, num);
    var step := (stop - start) / ((num - 1) as real);
    PositiveQuotient(stop - start, (num - 1) as real);
    assert r[i] == start + (i as real) * step;
    assert r[j] == start + (j as real) * step;
    StepsAscend(i as real, j as real, step);
  }

  /** Linspace starts at `start`, ends at `stop` (two or more samples) and climbs strictly in between. */
  lemma LinspaceAscends(start: real, stop: real, num: nat, i: nat, j: nat)
    requires start < stop && i < j < num
    ensures var r := Linspace(start, stop, num);
      r[0] == start && r[num - 1] == stop && start <= r[i] < r[j] <= stop
  {
    LinspaceEndpoints(start, stop, num);
    LinspaceStep(start, stop, num, i, j);
    if i > 0 {
      LinspaceStep(start, stop, num, 0, i);
    }
    if j < num - 1 {
      LinspaceStep(start, stop, num, j, num - 1);
    }
  }

  /** Every linspace sample over [0, T] lies in [0, T]; the first is 0. */
  lemma LinspaceWithin(T: real, num: nat, i: nat)
    requires T > 0.0 && i < num
    ensures var r := Linspace(0.0, T, num);
      r[0] == 0.0 && 0.0 <= r[i] <= T
  {
    if num >= 2 && i > 0 {
      LinspaceAscends(0.0, T, num, 0, i);
    }
  }

  // ------------------------------------------------------------ single points

  /** A point, when produced, is stamped with the time it was asked for. */
  lemma PointStampedAtT(path: Path, solve: Solver, interrupt: Interrupts, env: Env, t: real, jointspace: bool)
    ensures var o := TrajectoryPointSpec(path, solve, interrupt, env, t, jointspace);
      o.point.Ok? ==> o.point.value.timeFromStart == t
  {
  }

  /**
   * The stencil: with a solver that answers every request at once with n
   * joint angles, and no shutdown from outside at the three reads of the flag,
   * a joint-space point makes exactly three requests, for the
   * workspace positions at t - 2 delta, t - delta and t in that order, and
   * holds theta_t, (theta_t - theta_t1) / delta and
   * (theta_t - 2 theta_t1 + theta_t2) / (2 delta).
   */
  lemma JointPointStencil(path: Path, solve: Solver, interrupt: Interrupts, env: Env, t: real, n: nat)
    requires !env.shutdown && NoInterrupt(interrupt, env.polls, env.polls + 3)
    requires AnswersStencil(path, solve, n, |env.queries|, t)
    ensures var o, b := TrajectoryPointSpec(path, solve, interrupt, env, t, true), |env.queries|;
      var q2, q1, q0 := IkQuery(path.Position(t - 2.0 * DELTA_T), IK_ORIENTATION),
                        IkQuery(path.Position(t - DELTA_T), IK_ORIENTATION),
                        IkQuery(path.Position(t), IK_ORIENTATION);
      var th2, th1, th0 := solve(q2, b).value, solve(q1, b + 1).value, solve(q0, b + 2).value;
      o.env == env.(queries := env.queries + [q2, q1, q0], polls := env.polls + 3) &&
      o.point == StencilPoint(path, solve, b, t) &&
      o.point.Ok? && o.point.value.timeFromStart == t &&
      o.point.value.positions == th0 &&
      |o.point.value.velocities| == n && |o.point.value.accelerations| == n &&
      (forall i :: 0 <= i < n ==>
        o.point.value.velocities[i] == (th0[i] - th1[i]) / DELTA_T &&
        o.point.value.accelerations[i] == (th0[i] - 2.0 * th1[i] + th2[i]) / (2.0 * DELTA_T))
  {
    var b := |env.queries|;
    var x2, x1, x0 := path.Position(t - 2.0 * DELTA_T), path.Position(t - DELTA_T), path.Position(t);
    var o2 := GetIkSpec(solve, interrupt, env, x2, MAX_IK_ATTEMPTS);
    FirstRequestAnswered(solve, interrupt, env, x2);
    var o1 := GetIkSpec(solve, interrupt, o2.env, x1, MAX_IK_ATTEMPTS);
    FirstRequestAnswered(solve, interrupt, o2.env, x1);
    var o0 := GetIkSpec(solve, interrupt, o1.env, x0, MAX_IK_ATTEMPTS);
    FirstRequestAnswered(solve, interrupt, o1.env, x0);
    assert o0.env.queries == env.queries + [IkQuery(x2, IK_ORIENTATION), IkQuery(x1, IK_ORIENTATION), IkQuery(x0, IK_ORIENTATION)];
  }

  /** The three requests a joint-space point at time t makes: the positions at t - 2 delta, t - delta and t. */
  function StencilQueries(path: Path, t: real): seq<IkQuery> {
    [IkQuery(path.Position(t - 2.0 * DELTA_T), IK_ORIENTATION),
     IkQuery(path.Position(t - DELTA_T), IK_ORIENTATION),
     IkQuery(path.Position(t), IK_ORIENTATION)]
  }

  /** The solver answers the stencil's requests at t, numbered b, b + 1 and b + 2, each with n joint angles. */
  ghost predicate AnswersStencil(path: Path, solve: Solver, n: nat, b: nat, t: real) {
    var q := StencilQueries(path, t);
    solve(q[0], b).Some? && |solve(q[0], b).value| == n &&
    solve(q[1], b + 1).Some? && |solve(q[1], b + 1).value| == n &&
    solve(q[2], b + 2).Some? && |solve(q[2], b + 2).value| == n
  }

  /** The point for time t built from the solver's answers to the stencil's requests, numbered b, b + 1 and b + 2. */
  function StencilPoint(path: Path, solve: Solver, b: nat, t: real): Result<JointTrajectoryPoint, Failure> {
    var q := StencilQueries(path, t);
    FiniteDifference(solve(q[0], b), solve(q[1], b + 1), solve(q[2], b + 2), t)
  }

  /** The requests joint-space points at `times` make, three per time, in order. */
  function StencilRun(path: Path, times: seq<real>): (r: seq<IkQuery>)
    ensures |r| == 3 * |times|
    decreases |times|
  {
    if times == [] then [] else StencilRun(path, times[..|times| - 1]) + StencilQueries(path, times[|times| - 1])
  }

  /**
   * When the flag is clear at its first read and the very first request is
   * answered, `get_ik` makes just that request and reads the flag just once.
   */
  lemma FirstRequestAnswered(solve: Solver, interrupt: Interrupts, env: Env, x: Vec3)
    requires !env.shutdown && !interrupt(env.polls)
    requires solve(IkQuery(x, IK_ORIENTATION), |env.queries|).Some?
    ensures var o := GetIkSpec(solve, interrupt, env, x, MAX_IK_ATTEMPTS);
      o.theta == solve(IkQuery(x, IK_ORIENTATION), |env.queries|) &&
      o.env == env.(queries := env.queries + [IkQuery(x, IK_ORIENTATION)], polls := env.polls + 1)
  {
  }

  /**
   * The stencil is exact for joints moving at constant speed v: the point's
   * velocities are v and its accelerations zero.
   */
  lemma StencilExactForUniformMotion(th0: seq<real>, v: seq<real>, t: real)
    requires |v| == |th0|
    ensures var th1 := seq(|th0|, i requires 0 <= i < |th0| => th0[i] - DELTA_T * v[i]);
      var th2 := seq(|th0|, i requires 0 <= i < |th0| => th0[i] - 2.0 * DELTA_T * v[i]);
      var r := FiniteDifference(Some(th2), Some(th1), Some(th0), t);
      r.Ok? && r.value.velocities == v && (forall i :: 0 <= i < |th0| ==> r.value.accelerations[i] == 0.0)
  {
  }

  /**
   * For joints under constant acceleration a, the acceleration the stencil
   * reports is a * delta / 2: the second difference is divided by 2 delta,
   * not delta squared.
   */
  lemma StencilScaleForUniformAcceleration(th0: seq<real>, v: seq<real>, a: seq<real>, t: real)
    requires |v| == |th0| && |a| == |th0|
    ensures var d := DELTA_T;
      var th1 := seq(|th0|, i requires 0 <= i < |th0| => th0[i] - d * v[i] + d * d * a[i] / 2.0);
      var th2 := seq(|th0|, i requires 0 <= i < |th0| => th0[i] - 2.0 * d * v[i] + 2.0 * d * d * a[i]);
      var r := FiniteDifference(Some(th2), Some(th1), Some(th0), t);
      r.Ok? && forall i :: 0 <= i < |th0| ==> r.value.accelerations[i] == a[i] * d / 2.0
  {
  }

  // ------------------------------------------------------------- whole runs

  /** Sampling a list of times gives one point per time, stamped with that time. */
  lemma {:induction false} SampleStampsTimes(path: Path, solve: Solver, interrupt: Interrupts, env: Env, times: seq<real>, jointspace: bool)
    ensures var s := SampleSpec(path, solve, interrupt, env, times, jointspace);
      s.points.Ok? ==>
        |s.points.value| == |times| && forall i :: 0 <= i < |times| ==> s.points.value[i].timeFromStart == times[i]
    decreases |times|
  {
    var s := SampleSpec(path, solve, interrupt, env, times, jointspace);
    if times != [] && s.points.Ok? {
      var m := |times| - 1;
      var init := times[..m];
      SampleStampsTimes(path, solve, interrupt, env, init, jointspace);
      var prefix := SampleSpec(path, solve, interrupt, env, init, jointspace);
      SampleAppends(path, solve, interrupt, env, times, jointspace);
      PointStampedAtT(path, solve, interrupt, prefix.env, times[m], jointspace);
      var pts := s.points.value;
      forall i | 0 <= i < |times|
        ensures pts[i].timeFromStart == times[i]
      {
        if i < m {
          assert pts[i] == prefix.points.value[i] && init[i] == times[i];
        }
      }
    }
  }

  /**
   * The points a joint-space run at `times` makes when every request is
   * answered, its first request being number b: point i is the stencil of the
   * answers to requests b + 3i, b + 3i + 1 and b + 3i + 2, for the positions
   * at times[i] - 2 delta, times[i] - delta and times[i].
   */
  function StencilSamples(path: Path, solve: Solver, n: nat, b: nat, times: seq<real>): (r: seq<JointTrajectoryPoint>)
    requires AlwaysAnswers(solve, n)
    ensures |r| == |times|
  {
    seq(|times|, i requires 0 <= i < |times| => StencilPoint(path, solve, b + 3 * i, times[i]).value)
  }

  /** The state of a joint-space run at `times` once its first i points are made, every request being answered. */
  function RunEnv(env: Env, path: Path, times: seq<real>, i: nat): Env
    requires i <= |times|
  {
    env.(queries := env.queries + StencilRun(path, times[..i]), polls := env.polls + 3 * i)
  }

  /**
   * After i points of such a run, 3i requests were made, the flag was read
   * 3i times and never set from outside; the next point adds its stencil's
   * requests and three reads.
   */
  lemma RunEnvStep(env: Env, path: Path, times: seq<real>, interrupt: Interrupts, i: nat)
    requires i < |times| && NoInterrupt(interrupt, env.polls, env.polls + 3 * |times|)
    ensures var e := RunEnv(env, path, times, i);
      |e.queries| == |env.queries| + 3 * i && e.shutdown == env.shutdown &&
      NoInterrupt(interrupt, e.polls, e.polls + 3) &&
      RunEnv(env, path, times, i + 1) == e.(queries := e.queries + StencilQueries(path, times[i]), polls := e.polls + 3)
  {
    assert times[..i + 1][..i] == times[..i];
    AppendAssoc(env.queries, StencilRun(path, times[..i]), StencilQueries(path, times[i]));
    var e := RunEnv(env, path, times, i);
    NoInterruptWithin(interrupt, env.polls, env.polls + 3 * |times|, e.polls, e.polls + 3);
  }

  /** Appending is associative. */
  lemma AppendAssoc<T>(a: seq<T>, b: seq<T>, c: seq<T>)
    ensures (a + b) + c == a + (b + c)
  {
  }

  /** The stencil lemma as one equation: the point and the state after it. */
  lemma JointPointOutcome(path: Path, solve: Solver, interrupt: Interrupts, env: Env, t: real, n: nat, b: nat)
    requires !env.shutdown && NoInterrupt(interrupt, env.polls, env.polls + 3)
    requires AlwaysAnswers(solve, n) && b == |env.queries|
    ensures StencilPoint(path, solve, b, t).Ok?
    ensures TrajectoryPointSpec(path, solve, interrupt, env, t, true) ==
      PointOutcome(StencilPoint(path, solve, b, t), env.(queries := env.queries + StencilQueries(path, t), polls := env.polls + 3))
  {
    JointPointStencil(path, solve, interrupt, env, t, n);
  }

  /**
   * With every request answered and no shutdown from outside, point i of a
   * joint-space run starts from the run's state after i points, yields the
   * i-th stencil sample and leaves the state after i + 1 points.
   */
  lemma JointRunPoint(path: Path, solve: Solver, interrupt: Interrupts, env: Env, times: seq<real>, n: nat, i: nat)
    requires !env.shutdown && NoInterrupt(interrupt, env.polls, env.polls + 3 * |times|)
    requires AlwaysAnswers(solve, n) && i < |times|
    ensures TrajectoryPointSpec(path, solve, interrupt, RunEnv(env, path, times, i), times[i], true) ==
      PointOutcome(Ok(StencilSamples(path, solve, n, |env.queries|, times)[i]), RunEnv(env, path, times, i + 1))
  {
    RunEnvStep(env, path, times, interrupt, i);
    JointPointOutcome(path, solve, interrupt, RunEnv(env, path, times, i), times[i], n, |env.queries| + 3 * i);
  }

  /** No shutdown from outside over a range of reads means none over any part of it. */
  lemma NoInterruptWithin(interrupt: Interrupts, from: int, to: int, from': int, to': int)
    requires NoInterrupt(interrupt, from, to) && from <= from' && to' <= to
    ensures NoInterrupt(interrupt, from', to')
  {
  }

  /** Point by point: every point of a joint-space run, as `JointRunPoint` states it. */
  lemma JointRunPoints(path: Path, solve: Solver, interrupt: Interrupts, env: Env, times: seq<real>, n: nat)
    requires !env.shutdown && NoInterrupt(interrupt, env.polls, env.polls + 3 * |times|)
    requires AlwaysAnswers(solve, n)
    ensures forall i :: 0 <= i < |times| ==>
      TrajectoryPointSpec(path, solve, interrupt, RunEnv(env, path, times, i), times[i], true) ==
      PointOutcome(Ok(StencilSamples(path, solve, n, |env.queries|, times)[i]), RunEnv(env, path, times, i + 1))
  {
    forall i | 0 <= i < |times|
      ensures TrajectoryPointSpec(path, solve, interrupt, RunEnv(env, path, times, i), times[i], true) ==
        PointOutcome(Ok(StencilSamples(path, solve, n, |env.queries|, times)[i]), RunEnv(env, path, times, i + 1))
    {
      JointRunPoint(path, solve, interrupt, env, times, n, i);
    }
  }

  /**
   * Sampling is the points one after another: when point i of a run goes
   * from the run's state after i points to the state after i + 1 and yields
   * pts[i], sampling the first k times yields the first k points and ends in
   * the state after k points.
   */
  lemma {:induction false} SampleByPoints(path: Path, solve: Solver, interrupt: Interrupts, env: Env, times: seq<real>,
                                          pts: seq<JointTrajectoryPoint>, k: nat)
    requires k <= |times| && |pts| == |times|
    requires forall i :: 0 <= i < |times| ==>
      TrajectoryPointSpec(path, solve, interrupt, RunEnv(env, path, times, i), times[i], true) ==
      PointOutcome(Ok(pts[i]), RunEnv(env, path, times, i + 1))
    ensures SampleSpec(path, solve, interrupt, env, times[..k], true) == SampleOutcome(Ok(pts[..k]), RunEnv(env, path, times, k))
    decreases k
  {
    if k > 0 {
      SampleByPoints(path, solve, interrupt, env, times, pts, k - 1);
      SampleByPointsStep(path, solve, interrupt, env, times, pts, k);
    }
  }

  /** One step of `SampleByPoints`: the first k - 1 points, then point k - 1. */
  lemma SampleByPointsStep(path: Path, solve: Solver, interrupt: Interrupts, env: Env, times: seq<real>,
                           pts: seq<JointTrajectoryPoint>, k: nat)
    requires 0 < k <= |times| && |pts| == |times|
    requires SampleSpec(path, solve, interrupt, env, times[..k - 1], true) ==
      SampleOutcome(Ok(pts[..k - 1]), RunEnv(env, path, times, k - 1))
    requires TrajectoryPointSpec(path, solve, interrupt, RunEnv(env, path, times, k - 1), times[k - 1], true) ==
      PointOutcome(Ok(pts[k - 1]), RunEnv(env, path, times, k))
    ensures SampleSpec(path, solve, interrupt, env, times[..k], true) == SampleOutcome(Ok(pts[..k]), RunEnv(env, path, times, k))
  {
    PrefixSplits(times, k);
    PrefixSplits(pts, k);
  }

  /** The first k entries are the first k - 1 followed by entry k - 1. */
  lemma PrefixSplits<T>(s: seq<T>, k: nat)
    requires 0 < k <= |s|
    ensures s[..k][..k - 1] == s[..k - 1] && s[..k][k - 1] == s[k - 1] && s[..k] == s[..k - 1] + [s[k - 1]]
  {
  }

  /**
   * With a solver that answers every request with n joint angles and no
   * shutdown from outside at the 3 |times| reads of the flag, sampling
   * joint-space points succeeds: it makes exactly the stencil requests of each
   * time in turn, reads the flag three times per point, and its points are
   * the stencil samples of the run.
   */
  lemma JointSamplesAnswered(path: Path, solve: Solver, interrupt: Interrupts, env: Env, times: seq<real>, n: nat)
    requires !env.shutdown && NoInterrupt(interrupt, env.polls, env.polls + 3 * |times|)
    requires AlwaysAnswers(solve, n)
    ensures SampleSpec(path, solve, interrupt, env, times, true) ==
      SampleOutcome(Ok(StencilSamples(path, solve, n, |env.queries|, times)),
                    env.(queries := env.queries + StencilRun(path, times), polls := env.polls + 3 * |times|))
  {
    var pts := StencilSamples(path, solve, n, |env.queries|, times);
    JointRunPoints(path, solve, interrupt, env, times, n);
    SampleByPoints(path, solve, interrupt, env, times, pts, |times|);
    assert times[..|times|] == times && pts[..|times|] == pts;
  }

  /**
   * With a solver that answers every request with n joint angles and no
   * shutdown from outside at the 3 (numWaypoints + 1) reads of the flag,
   * a joint-space trajectory is produced and shutdown is never requested.
   * Over the times of the run, the linspace times and then T: the requests
   * are the stencil requests of each time in turn, the flag is read three
   * times per point, the points are the stencil samples of the run, and the
   * last one is restamped T + 1.
   */
  lemma JointTrajectorySucceeds(limb: Limb, path: Path, solve: Solver, interrupt: Interrupts, env: Env, numWaypoints: nat, n: nat)
    requires !env.shutdown && NoInterrupt(interrupt, env.polls, env.polls + 3 * (numWaypoints + 1))
    requires AlwaysAnswers(solve, n)
    ensures var T := path.TotalTime();
      var run := Linspace(0.0, T, numWaypoints) + [T];
      var pts := StencilSamples(path, solve, n, |env.queries|, run);
      ToRobotTrajectorySpec(limb, path, solve, interrupt, env, numWaypoints, true) ==
        TrajectoryOutcome(
          Ok(RobotTrajectory(limb.jointNames, FRAME_ID, pts[..numWaypoints] + [pts[numWaypoints].(timeFromStart := T + SETTLING_TIME)])),
          env.(queries := env.queries + StencilRun(path, run), polls := env.polls + 3 * |run|))
  {
    var T := path.TotalTime();
    var times := Linspace(0.0, T, numWaypoints);
    var run := times + [T];
    JointSamplesAnswered(path, solve, interrupt, env, times, n);
    JointRunPoint(path, solve, interrupt, env, run, n, numWaypoints);
    assert run[..numWaypoints] == times && run[..numWaypoints + 1] == run;
    SamplesOfLongerRun(path, solve, n, |env.queries|, times, T);
  }

  /** The stencil samples of a run extended by one time begin with those of the run. */
  lemma SamplesOfLongerRun(path: Path, solve: Solver, n: nat, b: nat, times: seq<real>, t: real)
    requires AlwaysAnswers(solve, n)
    ensures StencilSamples(path, solve, n, b, times + [t])[..|times|] == StencilSamples(path, solve, n, b, times)
  {
    var longer := times + [t];
    assert forall i :: 0 <= i < |times| ==> longer[i] == times[i];
  }

  /** A successful sampling run is the prefix's points followed by the last time's point. */
  lemma SampleAppends(path: Path, solve: Solver, interrupt: Interrupts, env: Env, times: seq<real>, jointspace: bool)
    requires times != []
    ensures var m := |times| - 1;
      var s := SampleSpec(path, solve, interrupt, env, times, jointspace);
      var prefix := SampleSpec(path, solve, interrupt, env, times[..m], jointspace);
      var last := TrajectoryPointSpec(path, solve, interrupt, prefix.env, times[m], jointspace);
      (s.points.Ok? <==> prefix.points.Ok? && last.point.Ok?) &&
      (s.points.Ok? ==> s == SampleOutcome(Ok(prefix.points.value + [last.point.value]), last.env))
  {
  }

  /**
   * The trajectory, when produced, has `numWaypoints` + 1 points: the first
   * `numWaypoints` at the linspace times over [0, T], the last at T + 1; it
   * carries the arm's joint names and the frame "base".
   */
  lemma TrajectoryShape(limb: Limb, path: Path, solve: Solver, interrupt: Interrupts, env: Env, numWaypoints: nat, jointspace: bool)
    ensures var o, T := ToRobotTrajectorySpec(limb, path, solve, interrupt, env, numWaypoints, jointspace), path.TotalTime();
      var times := Linspace(0.0, T, numWaypoints);
      o.trajectory.Ok? ==>
        var pts := o.trajectory.value.points;
        o.trajectory.value.jointNames == limb.jointNames && o.trajectory.value.frameId == "base" &&
        |pts| == numWaypoints + 1 &&
        (forall i :: 0 <= i < numWaypoints ==> pts[i].timeFromStart == times[i]) &&
        pts[numWaypoints].timeFromStart == T + 1.0
  {
    var T := path.TotalTime();
    SampleStampsTimes(path, solve, interrupt, env, Linspace(0.0, T, numWaypoints), jointspace);
  }

  /** The trajectory's time stamps strictly increase, from 0 up to the settling point at T + 1. */
  lemma TrajectoryTimesAscend(limb: Limb, path: Path, solve: Solver, interrupt: Interrupts, env: Env, numWaypoints: nat, jointspace: bool, i: nat, j: nat)
    requires i < j <= numWaypoints
    ensures var o := ToRobotTrajectorySpec(limb, path, solve, interrupt, env, numWaypoints, jointspace);
      o.trajectory.Ok? ==>
        var pts := o.trajectory.value.points;
        |pts| == numWaypoints + 1 && pts[0].timeFromStart == 0.0 && pts[i].timeFromStart < pts[j].timeFromStart
  {
    var o, T := ToRobotTrajectorySpec(limb, path, solve, interrupt, env, numWaypoints, jointspace), path.TotalTime();
    TrajectoryShape(limb, path, solve, interrupt, env, numWaypoints, jointspace);
    LinspaceWithin(T, numWaypoints, i);
    if j < numWaypoints {
      LinspaceAscends(0.0, T, numWaypoints, i, j);
    }
  }

  /** In workspace mode sampling never fails, touches nothing, and each point packages the queries at its time. */
  lemma {:induction false} WorkspaceSamples(path: Path, solve: Solver, interrupt: Interrupts, env: Env, times: seq<real>)
    ensures var s := SampleSpec(path, solve, interrupt, env, times, false);
      s.env == env && s.points.Ok? && |s.points.value| == |times| &&
      forall i :: 0 <= i < |times| ==> s.points.value[i] == WorkspacePoint(path, times[i])
    decreases |times|
  {
    if times != [] {
      WorkspaceSamples(path, solve, interrupt, env, times[..|times| - 1]);
    }
  }

  /**
   * A workspace trajectory always succeeds without calling the solver: its
   * points are the analytic queries at the linspace times, and the final point
   * repeats the one for T, stamped T + 1.
   */
  lemma WorkspaceTrajectory(limb: Limb, path: Path, solve: Solver, interrupt: Interrupts, env: Env, numWaypoints: nat)
    ensures var o, T := ToRobotTrajectorySpec(limb, path, solve, interrupt, env, numWaypoints, false), path.TotalTime();
      var times := Linspace(0.0, T, numWaypoints);
      o.env == env && o.trajectory.Ok? &&
      |o.trajectory.value.points| == numWaypoints + 1 &&
      (forall i :: 0 <= i < numWaypoints ==> o.trajectory.value.points[i] == WorkspacePoint(path, times[i])) &&
      o.trajectory.value.points[numWaypoints] == WorkspacePoint(path, T).(timeFromStart := T + 1.0)
  {
    WorkspaceSamples(path, solve, interrupt, env, Linspace(0.0, path.TotalTime(), numWaypoints));
  }

  /**
   * Once shutdown has been requested, a joint-space point asks nothing of the
   * solver, only reads the flag once per `get_ik`, and fails.
   */
  lemma PointAfterShutdown(path: Path, solve: Solver, interrupt: Interrupts, env: Env, t: real)
    requires env.shutdown
    ensures TrajectoryPointSpec(path, solve, interrupt, env, t, true) ==
      PointOutcome(Err(NoIkSolution), env.(polls := env.polls + 3))
  {
  }

  /**
   * If shutdown was requested before the run, a joint-space trajectory fails
   * with no partial result and without a single request to the solver.
   */
  lemma JointTrajectoryAfterShutdown(limb: Limb, path: Path, solve: Solver, interrupt: Interrupts, env: Env, numWaypoints: nat)
    requires env.shutdown
    ensures ToRobotTrajectorySpec(limb, path, solve, interrupt, env, numWaypoints, true) ==
      TrajectoryOutcome(Err(NoIkSolution), env.(polls := env.polls + 3))
  {
    var times := Linspace(0.0, path.TotalTime(), numWaypoints);
    if numWaypoints > 0 {
      PointAfterShutdown(path, solve, interrupt, env, times[0]);
      assert times[..1][..0] == [];
      SampleFailureStops(path, solve, interrupt, env, times, 1, true);
    }
  }

  /**
   * A joint-space point whose first stencil position (t - 2 delta) the solver
   * never answers, with no shutdown from outside before its requests, makes
   * max + 1 requests for that position, requests shutdown naming it, and
   * fails; the other two `get_ik` calls only read the flag.
   */
  lemma PointWithUnsolvableIk(path: Path, solve: Solver, interrupt: Interrupts, env: Env, t: real)
    requires !env.shutdown && NoInterrupt(interrupt, env.polls, env.polls + MAX_IK_ATTEMPTS + 1)
    requires NeverAnswers(solve, IkQuery(path.Position(t - 2.0 * DELTA_T), IK_ORIENTATION))
    ensures var o, x := TrajectoryPointSpec(path, solve, interrupt, env, t, true), path.Position(t - 2.0 * DELTA_T);
      o.point == Err(NoIkSolution) &&
      o.env == Env(env.queries + Repeat(IkQuery(x, IK_ORIENTATION), MAX_IK_ATTEMPTS + 1), env.polls + MAX_IK_ATTEMPTS + 4,
                   true, Some(MaxIkAttemptsExceeded(x)))
  {
    var x := path.Position(t - 2.0 * DELTA_T);
    GetIkExhausted(solve, interrupt, env, x, MAX_IK_ATTEMPTS);
    GetIkReturnsFirstAnswer(solve, interrupt, env, x, MAX_IK_ATTEMPTS);
  }

  /**
   * IK exhaustion: when the solver never answers for the first stencil
   * position of the run, and no shutdown arrives from outside before those
   * requests, a joint-space trajectory fails with no partial result after
   * exactly max + 1 requests, all for that position, and shutdown is
   * requested naming it.
   */
  lemma JointTrajectoryWithUnsolvableIk(limb: Limb, path: Path, solve: Solver, interrupt: Interrupts, env: Env, numWaypoints: nat)
    requires !env.shutdown && NoInterrupt(interrupt, env.polls, env.polls + MAX_IK_ATTEMPTS + 1)
    requires var t0 := if numWaypoints > 0 then 0.0 else path.TotalTime();
      NeverAnswers(solve, IkQuery(path.Position(t0 - 2.0 * DELTA_T), IK_ORIENTATION))
    ensures var o := ToRobotTrajectorySpec(limb, path, solve, interrupt, env, numWaypoints, true);
      var t0 := if numWaypoints > 0 then 0.0 else path.TotalTime();
      var x := path.Position(t0 - 2.0 * DELTA_T);
      o.trajectory == Err(NoIkSolution) &&
      o.env == Env(env.queries + Repeat(IkQuery(x, IK_ORIENTATION), MAX_IK_ATTEMPTS + 1), env.polls + MAX_IK_ATTEMPTS + 4,
                   true, Some(MaxIkAttemptsExceeded(x)))
  {
    var T := path.TotalTime();
    var times := Linspace(0.0, T, numWaypoints);
    if numWaypoints > 0 {
      LinspaceWithin(T, numWaypoints, 0);
      PointWithUnsolvableIk(path, solve, interrupt, env, times[0]);
      assert times[..1][..0] == [];
      SampleFailureStops(path, solve, interrupt, env, times, 1, true);
    } else {
      PointWithUnsolvableIk(path, solve, interrupt, env, T);
    }
  }

  /**
   * A shutdown from outside, seen at the first read of the flag, makes a
   * joint-space point fail without a single request to the solver.
   */
  lemma PointInterrupted(path: Path, solve: Solver, interrupt: Interrupts, env: Env, t: real)
    requires !env.shutdown && interrupt(env.polls)
    ensures TrajectoryPointSpec(path, solve, interrupt, env, t, true) ==
      PointOutcome(Err(NoIkSolution), Env(env.queries, env.polls + 3, true, Some(ShutdownFromOutside)))
  {
    GetIkInterrupted(solve, interrupt, env, path.Position(t - 2.0 * DELTA_T), MAX_IK_ATTEMPTS, 0);
  }

  /**
   * A shutdown from outside that arrives while the first `get_ik` of a
   * joint-space run is still retrying (after i unanswered requests, i <= max)
   * makes the whole trajectory fail with no partial result and no further
   * request, the shutdown's reason being the outside request.
   */
  lemma JointTrajectoryInterrupted(limb: Limb, path: Path, solve: Solver, interrupt: Interrupts, env: Env, numWaypoints: nat, i: nat)
    requires !env.shutdown && i <= MAX_IK_ATTEMPTS
    requires NoInterrupt(interrupt, env.polls, env.polls + i) && interrupt(env.polls + i)
    requires var t0 := if numWaypoints > 0 then 0.0 else path.TotalTime();
      NoAnswer(solve, IkQuery(path.Position(t0 - 2.0 * DELTA_T), IK_ORIENTATION), |env.queries|, |env.queries| + i)
    ensures var o := ToRobotTrajectorySpec(limb, path, solve, interrupt, env, numWaypoints, true);
      var t0 := if numWaypoints > 0 then 0.0 else path.TotalTime();
      var x := path.Position(t0 - 2.0 * DELTA_T);
      o == TrajectoryOutcome(Err(NoIkSolution),
        Env(env.queries + Repeat(IkQuery(x, IK_ORIENTATION), i), env.polls + i + 3, true, Some(ShutdownFromOutside)))
  {
    var T := path.TotalTime();
    var times := Linspace(0.0, T, numWaypoints);
    var t0 := if numWaypoints > 0 then 0.0 else T;
    if numWaypoints > 0 {
      LinspaceWithin(T, numWaypoints, 0);
    }
    GetIkInterrupted(solve, interrupt, env, path.Position(t0 - 2.0 * DELTA_T), MAX_IK_ATTEMPTS, i);
    if numWaypoints > 0 {
      assert times[..1][..0] == [];
      SampleFailureStops(path, solve, interrupt, env, times, 1, true);
    }
  }

  /**
   * A 10-second straight move from the origin to (1, 0, 0) sampled at 11
   * waypoints in workspace mode: point i is at (i/10, 0, 0), stamped i, and the
   * twelfth repeats (1, 0, 0), stamped 11.
   */
  lemma LinearSamplingExample(limb: Limb, solve: Solver, interrupt: Interrupts, env: Env)
    ensures var path := Path.Linear(LinearPath(Zero3, Vec3(1.0, 0.0, 0.0), 10.0));
      var o := ToRobotTrajectorySpec(limb, path, solve, interrupt, env, 11, false);
      o.trajectory.Ok? && |o.trajectory.value.points| == 12 &&
      (forall i :: 0 <= i <= 10 ==>
        o.trajectory.value.points[i].positions == [(i as real) / 10.0, 0.0, 0.0] &&
        o.trajectory.value.points[i].timeFromStart == i as real) &&
      o.trajectory.value.points[11].positions == [1.0, 0.0, 0.0] &&
      o.trajectory.value.points[11].timeFromStart == 11.0
  {
    var path := Path.Linear(LinearPath(Zero3, Vec3(1.0, 0.0, 0.0), 10.0));
    WorkspaceTrajectory(limb, path, solve, interrupt, env, 11);
    var pts := ToRobotTrajectorySpec(limb, path, solve, interrupt, env, 11, false).trajectory.value.points;
    LinearSamplingPositions();
    forall i | 0 <= i <= 10
      ensures pts[i].positions == [(i as real) / 10.0, 0.0, 0.0] && pts[i].timeFromStart == i as real
    {
      assert pts[i] == WorkspacePoint(path, Linspace(0.0, 10.0, 11)[i]);
    }
  }

  /** The sampled points of that move: time i, position (i/10, 0, 0). */
  lemma LinearSamplingPositions()
    ensures var p := LinearPath(Zero3, Vec3(1.0, 0.0, 0.0), 10.0);
      var times := Linspace(0.0, 10.0, 11);
      WorkspacePoint(Path.Linear(p), 10.0).positions == [1.0, 0.0, 0.0] &&
      forall i :: 0 <= i <= 10 ==>
        WorkspacePoint(Path.Linear(p), times[i]).positions == [(i as real) / 10.0, 0.0, 0.0] &&
        WorkspacePoint(Path.Linear(p), times[i]).timeFromStart == i as real
  {
    var p := LinearPath(Zero3, Vec3(1.0, 0.0, 0.0), 10.0);
    var times := Linspace(0.0, 10.0, 11);
    forall i | 0 <= i <= 10
      ensures times[i] == i as real && p.Position(times[i]) == Vec3((i as real) / 10.0, 0.0, 0.0)
    {
      assert times[i] == i as real;
      if i > 0 {
        assert times[i] < 10.0 ==> p.Index(times[i]) == (i as real) / 10.0;
        if i == 10 {
          ReachesTarget(p, 10.0);
        }
      }
    }
    ReachesTarget(p, 10.0);
  }
}
