/**
 * The collaborators the path code calls out to: an inverse-kinematics solver
 * and ROS's process-wide shutdown flag, and the retry loop `get_ik` runs over
 * them, as a function of their state.
 */
module Kinematics {
  import opened Wrappers
  import opened Geometry

  /** The orientation every IK request asks for: the quaternion [0, 1, 0, 0]. */
  const IK_ORIENTATION: seq<real> := [0.0, 1.0, 0.0, 0.0]

  /** `get_ik`'s default cap on attempts. */
  const MAX_IK_ATTEMPTS: nat := 10

  datatype IkQuery = IkQuery(position: Vec3, orientation: seq<real>)

  /**
   * Why the process was asked to shut down: the IK cap was exceeded at `x`, or
   * the request came from outside (a signal, another callback or thread).
   */
  datatype ShutdownReason = MaxIkAttemptsExceeded(x: Vec3) | ShutdownFromOutside

  /**
   * An IK solver: its answer to a request, given how many requests it served
   * before (so that a retry may get a different answer). None is "no solution".
   */
  type Solver = (IkQuery, nat) -> Option<seq<real>>

  /**
   * When shutdown is requested from outside: `interrupt(n)` holds when, by the
   * time the flag is read for the n-th time (counting from 0), someone else has
   * requested shutdown.
   */
  type Interrupts = nat -> bool

  /** The kinematics object: a solver and the requests made of it so far. */
  class KinematicsAdapter {
    const solve: Solver
    var queries: seq<IkQuery>

    constructor (solve: Solver)
      ensures this.solve == solve && queries == []
    {
      this.solve := solve;
      queries := [];
    }

    method InverseKinematics(position: Vec3, orientation: seq<real>) returns (theta: Option<seq<real>>)
      modifies this
      ensures theta == solve(IkQuery(position, orientation), |old(queries)|)
      ensures queries == old(queries) + [IkQuery(position, orientation)]
    {
      theta := solve(IkQuery(position, orientation), |queries|);
      queries := queries + [IkQuery(position, orientation)];
    }
  }

  /**
   * ROS's shutdown flag, with the reason given by the first request to shut
   * down, and the number of times the flag was read.
   */
  class RosNode {
    const interrupt: Interrupts
    var polls: nat
    var shutdown: bool
    var reason: Option<ShutdownReason>

    constructor (interrupt: Interrupts)
      ensures this.interrupt == interrupt && polls == 0 && !shutdown && reason == None
    {
      this.interrupt := interrupt;
      polls := 0;
      shutdown := false;
      reason := None;
    }

    /** `rospy.is_shutdown()`: reading the flag also takes in a shutdown requested from outside. */
    method IsShutdown() returns (b: bool)
      modifies this
      ensures polls == old(polls) + 1
      ensures shutdown == (old(shutdown) || interrupt(old(polls)))
      ensures reason == if !old(shutdown) && interrupt(old(polls)) then Some(ShutdownFromOutside) else old(reason)
      ensures b == shutdown
    {
      if !shutdown && interrupt(polls) {
        shutdown := true;
        reason := Some(ShutdownFromOutside);
      }
      polls := polls + 1;
      b := shutdown;
    }

    /** `rospy.signal_shutdown(reason)`. */
    method SignalShutdown(r: ShutdownReason)
      modifies this
      ensures shutdown && polls == old(polls)
      ensures reason == if old(shutdown) then old(reason) else Some(r)
    {
      if !shutdown {
        shutdown := true;
        reason := Some(r);
      }
    }
  }

  /**
   * A snapshot of the outside state the sampler changes: requests made, reads
   * of the shutdown flag, and the flag with its reason.
   */
  datatype Env = Env(queries: seq<IkQuery>, polls: nat, shutdown: bool, reason: Option<ShutdownReason>)

  datatype IkOutcome = IkOutcome(theta: Option<seq<real>>, env: Env)

  /** The state after one read of the shutdown flag. */
  function Poll(interrupt: Interrupts, env: Env): Env {
    var fromOutside := !env.shutdown && interrupt(env.polls);
    env.(polls := env.polls + 1,
         shutdown := env.shutdown || fromOutside,
         reason := if fromOutside then Some(ShutdownFromOutside) else env.reason)
  }

  /**
   * The rest of `get_ik`'s loop from a state where no answer has come yet and
   * `attempts` requests were made: read the shutdown flag; unless it is set,
   * ask the solver, request shutdown once the attempts exceed the cap, and go
   * round again while there is no answer.
   */
  function IkLoop(solve: Solver, interrupt: Interrupts, x: Vec3, maxIkAttempts: nat, env: Env, attempts: nat): IkOutcome
    requires env.shutdown || attempts <= maxIkAttempts
    decreases if env.shutdown then 0 else maxIkAttempts + 1 - attempts
  {
    var polled := Poll(interrupt, env);
    if polled.shutdown then IkOutcome(None, polled)
    else
      var q := IkQuery(x, IK_ORIENTATION);
      var theta := solve(q, |polled.queries|);
      var asked := polled.(queries := polled.queries + [q]);
      var next := if attempts + 1 > maxIkAttempts
        then asked.(shutdown := true, reason := Some(MaxIkAttemptsExceeded(x)))
        else asked;
      if theta.Some? then IkOutcome(theta, next)
      else IkLoop(solve, interrupt, x, maxIkAttempts, next, attempts + 1)
  }

  /** What `get_ik(x, max_ik_attempts)` returns and leaves behind. */
  function GetIkSpec(solve: Solver, interrupt: Interrupts, env: Env, x: Vec3, maxIkAttempts: nat): IkOutcome {
    IkLoop(solve, interrupt, x, maxIkAttempts, env, 0)
  }

  /** `n` copies of a request. */
  function Repeat(q: IkQuery, n: nat): (r: seq<IkQuery>)
    ensures |r| == n && forall i :: 0 <= i < n ==> r[i] == q
  {
    if n == 0 then [] else Repeat(q, n - 1) + [q]
  }

  /** The solver answers none of the requests q numbered from `from` up to, not including, `to`. */
  ghost predicate NoAnswer(solve: Solver, q: IkQuery, from: int, to: int) {
    forall j: nat :: from <= j < to ==> solve(q, j).None?
  }

  /** The solver answers no request q, whatever its number. */
  ghost predicate NeverAnswers(solve: Solver, q: IkQuery) {
    forall j: nat :: solve(q, j).None?
  }

  /** The solver answers every request, whatever its number, with n joint angles. */
  ghost predicate AlwaysAnswers(solve: Solver, n: nat) {
    forall q, j :: solve(q, j).Some? && |solve(q, j).value| == n
  }

  /** No shutdown arrives from outside at the reads of the flag numbered from `from` up to, not including, `to`. */
  ghost predicate NoInterrupt(interrupt: Interrupts, from: int, to: int) {
    forall p: nat :: from <= p < to ==> !interrupt(p)
  }

  /** Number of solver requests an outcome made, past the `base` already made. */
  function Calls(o: IkOutcome, base: Env): int {
    |o.env.queries| - |base.queries|
  }

  lemma {:induction false} RepeatCons(q: IkQuery, n: nat)
    ensures Repeat(q, n + 1) == [q] + Repeat(q, n)
  {
    if n > 0 {
      RepeatCons(q, n - 1);
    }
  }

  /**
   * Whatever happens outside, the rest of the loop makes at most the remaining
   * number of requests, all for x, and ends without an answer only when
   * shutdown has been requested.
   */
  lemma {:induction false} IkLoopBounded(solve: Solver, interrupt: Interrupts, x: Vec3, maxIkAttempts: nat, env: Env, attempts: nat)
    requires !env.shutdown && attempts <= maxIkAttempts
    ensures var o := IkLoop(solve, interrupt, x, maxIkAttempts, env, attempts);
      var k := Calls(o, env);
      0 <= k <= maxIkAttempts + 1 - attempts &&
      o.env.queries == env.queries + Repeat(IkQuery(x, IK_ORIENTATION), k) &&
      (o.theta.None? ==> o.env.shutdown)
    decreases maxIkAttempts - attempts
  {
    var q := IkQuery(x, IK_ORIENTATION);
    var polled := Poll(interrupt, env);
    if polled.shutdown {
      assert Repeat(q, 0) == [];
    } else {
      var asked := polled.(queries := polled.queries + [q]);
      if attempts + 1 > maxIkAttempts || solve(q, |polled.queries|).Some? {
        assert Repeat(q, 1) == [q];
      } else {
        IkLoopBounded(solve, interrupt, x, maxIkAttempts, asked, attempts + 1);
        var o := IkLoop(solve, interrupt, x, maxIkAttempts, asked, attempts + 1);
        var k := Calls(o, asked);
        RepeatCons(q, k);
      }
    }
  }

  /**
   * With no shutdown from outside at the reads before its requests, the rest
   * of the loop makes k requests for x, 1 <= k <= remaining, reading the flag
   * once before each and once more when it ends without an answer; every
   * answer but the last was None and the last is returned; it ends without an
   * answer only at the cap, and requests shutdown exactly there.
   */
  lemma {:induction false} IkLoopFacts(solve: Solver, interrupt: Interrupts, x: Vec3, maxIkAttempts: nat, env: Env, attempts: nat)
    requires !env.shutdown && attempts <= maxIkAttempts
    requires NoInterrupt(interrupt, env.polls, env.polls + maxIkAttempts + 1 - attempts)
    ensures var o, q := IkLoop(solve, interrupt, x, maxIkAttempts, env, attempts), IkQuery(x, IK_ORIENTATION);
      var k := Calls(o, env);
      1 <= k <= maxIkAttempts + 1 - attempts &&
      o.env.queries == env.queries + Repeat(q, k) &&
      o.env.polls == env.polls + k + (if o.theta.None? then 1 else 0) &&
      NoAnswer(solve, q, |env.queries|, |env.queries| + k - 1) &&
      o.theta == solve(q, |env.queries| + k - 1) &&
      (o.theta.None? ==> k == maxIkAttempts + 1 - attempts) &&
      (o.env.shutdown <==> k == maxIkAttempts + 1 - attempts) &&
      o.env.reason == (if o.env.shutdown then Some(MaxIkAttemptsExceeded(x)) else env.reason)
    decreases maxIkAttempts - attempts
  {
    var q := IkQuery(x, IK_ORIENTATION);
    assert !interrupt(env.polls);
    var polled := Poll(interrupt, env);
    var theta := solve(q, |env.queries|);
    var asked := polled.(queries := env.queries + [q]);
    if attempts + 1 > maxIkAttempts {
      assert Repeat(q, 1) == [q];
    } else if theta.None? {
      IkLoopFacts(solve, interrupt, x, maxIkAttempts, asked, attempts + 1);
      var o := IkLoop(solve, interrupt, x, maxIkAttempts, asked, attempts + 1);
      var k := Calls(o, asked);
      assert Repeat(q, k + 1) == [q] + Repeat(q, k) by { RepeatCons(q, k); }
      assert o.env.queries == env.queries + Repeat(q, k + 1);
      assert NoAnswer(solve, q, |env.queries|, |env.queries| + k);
    } else {
      assert Repeat(q, 1) == [q];
    }
  }

  /**
   * A shutdown from outside ends the loop: if it is first seen at the i-th
   * read from now, before the cap, and none of the i requests before it was
   * answered, the loop returns None after exactly those i requests, with
   * shutdown requested from outside.
   */
  lemma {:induction false} IkLoopInterrupted(solve: Solver, interrupt: Interrupts, x: Vec3, maxIkAttempts: nat, env: Env, attempts: nat, i: nat)
    requires !env.shutdown && attempts + i <= maxIkAttempts
    requires NoInterrupt(interrupt, env.polls, env.polls + i) && interrupt(env.polls + i)
    requires NoAnswer(solve, IkQuery(x, IK_ORIENTATION), |env.queries|, |env.queries| + i)
    ensures IkLoop(solve, interrupt, x, maxIkAttempts, env, attempts) ==
      IkOutcome(None, Env(env.queries + Repeat(IkQuery(x, IK_ORIENTATION), i), env.polls + i + 1, true, Some(ShutdownFromOutside)))
    decreases i
  {
    var q := IkQuery(x, IK_ORIENTATION);
    if i == 0 {
      assert Repeat(q, 0) == [];
    } else {
      assert !interrupt(env.polls);
      assert solve(q, |env.queries|).None?;
      var asked := Poll(interrupt, env).(queries := env.queries + [q]);
      IkLoopInterrupted(solve, interrupt, x, maxIkAttempts, asked, attempts + 1, i - 1);
      RepeatCons(q, i - 1);
    }
  }

  /**
   * Whatever happens outside, `get_ik` makes at most max + 1 requests, all for
   * x, and returns None only once shutdown has been requested.
   */
  lemma GetIkBounded(solve: Solver, interrupt: Interrupts, env: Env, x: Vec3, maxIkAttempts: nat)
    requires !env.shutdown
    ensures var o := GetIkSpec(solve, interrupt, env, x, maxIkAttempts);
      0 <= Calls(o, env) <= maxIkAttempts + 1 &&
      o.env.queries == env.queries + Repeat(IkQuery(x, IK_ORIENTATION), Calls(o, env)) &&
      (o.theta.None? ==> o.env.shutdown)
  {
    IkLoopBounded(solve, interrupt, x, maxIkAttempts, env, 0);
  }

  /**
   * `get_ik` from a state without shutdown, and with none arriving from outside
   * before its requests, makes k requests for x, 1 <= k <= max + 1, and
   * returns the answer to the last one; every earlier answer was None. It
   * returns None only after max + 1 requests, and it requests shutdown, giving
   * x as the reason, exactly when it made max + 1 requests.
   */
  lemma GetIkReturnsFirstAnswer(solve: Solver, interrupt: Interrupts, env: Env, x: Vec3, maxIkAttempts: nat)
    requires !env.shutdown && NoInterrupt(interrupt, env.polls, env.polls + maxIkAttempts + 1)
    ensures var o, q := GetIkSpec(solve, interrupt, env, x, maxIkAttempts), IkQuery(x, IK_ORIENTATION);
      var k := Calls(o, env);
      1 <= k <= maxIkAttempts + 1 &&
      o.env.queries == env.queries + Repeat(q, k) &&
      o.env.polls == env.polls + k + (if o.theta.None? then 1 else 0) &&
      NoAnswer(solve, q, |env.queries|, |env.queries| + k - 1) &&
      o.theta == solve(q, |env.queries| + k - 1) &&
      (o.theta.None? ==> k == maxIkAttempts + 1) &&
      (o.env.shutdown <==> k == maxIkAttempts + 1) &&
      o.env.reason == (if o.env.shutdown then Some(MaxIkAttemptsExceeded(x)) else env.reason)
  {
    IkLoopFacts(solve, interrupt, x, maxIkAttempts, env, 0);
  }

  /**
   * A shutdown from outside first seen at the i-th read of the flag, i <= max,
   * after i unanswered requests, makes `get_ik` return None with no further
   * request.
   */
  lemma GetIkInterrupted(solve: Solver, interrupt: Interrupts, env: Env, x: Vec3, maxIkAttempts: nat, i: nat)
    requires !env.shutdown && i <= maxIkAttempts
    requires NoInterrupt(interrupt, env.polls, env.polls + i) && interrupt(env.polls + i)
    requires NoAnswer(solve, IkQuery(x, IK_ORIENTATION), |env.queries|, |env.queries| + i)
    ensures GetIkSpec(solve, interrupt, env, x, maxIkAttempts) ==
      IkOutcome(None, Env(env.queries + Repeat(IkQuery(x, IK_ORIENTATION), i), env.polls + i + 1, true, Some(ShutdownFromOutside)))
  {
    IkLoopInterrupted(solve, interrupt, x, maxIkAttempts, env, 0, i);
  }

  /** Once shutdown has been requested, `get_ik` reads the flag once, makes no request and returns None. */
  lemma GetIkAfterShutdown(solve: Solver, interrupt: Interrupts, env: Env, x: Vec3, maxIkAttempts: nat)
    requires env.shutdown
    ensures GetIkSpec(solve, interrupt, env, x, maxIkAttempts) == IkOutcome(None, env.(polls := env.polls + 1))
  {
  }

  /**
   * With no shutdown from outside before its requests, `get_ik` gets an answer
   * exactly when one of the first max + 1 requests is answered.
   */
  lemma GetIkSucceedsIffSolvable(solve: Solver, interrupt: Interrupts, env: Env, x: Vec3, maxIkAttempts: nat)
    requires !env.shutdown && NoInterrupt(interrupt, env.polls, env.polls + maxIkAttempts + 1)
    ensures var o, q, base := GetIkSpec(solve, interrupt, env, x, maxIkAttempts), IkQuery(x, IK_ORIENTATION), |env.queries|;
      o.theta.Some? <==> exists j: nat :: base <= j <= base + maxIkAttempts && solve(q, j).Some?
  {
    var o, q, base := GetIkSpec(solve, interrupt, env, x, maxIkAttempts), IkQuery(x, IK_ORIENTATION), |env.queries|;
    GetIkReturnsFirstAnswer(solve, interrupt, env, x, maxIkAttempts);
    var k := Calls(o, env);
    if o.theta.Some? {
      assert solve(q, base + (k - 1)).Some?;
    } else {
      forall j: nat | base <= j <= base + maxIkAttempts
        ensures solve(q, j).None?
      {
        if j == base + k - 1 {
          assert solve(q, j) == o.theta;
        }
      }
    }
  }

  /**
   * With a solver that never answers for x, and no shutdown from outside
   * before its requests, `get_ik` makes exactly max + 1 requests, returns None
   * and requests shutdown with x as the reason.
   */
  lemma GetIkExhausted(solve: Solver, interrupt: Interrupts, env: Env, x: Vec3, maxIkAttempts: nat)
    requires !env.shutdown && NoInterrupt(interrupt, env.polls, env.polls + maxIkAttempts + 1)
    requires NeverAnswers(solve, IkQuery(x, IK_ORIENTATION))
    ensures var o := GetIkSpec(solve, interrupt, env, x, maxIkAttempts);
      o.theta.None? && Calls(o, env) == maxIkAttempts + 1 && o.env.polls == env.polls + maxIkAttempts + 2 &&
      o.env.shutdown && o.env.reason == Some(MaxIkAttemptsExceeded(x))
  {
    GetIkReturnsFirstAnswer(solve, interrupt, env, x, maxIkAttempts);
  }
}
