/**
 * LinearPath: a straight move from a start position to one tag position over
 * `totalTime` seconds, at constant speed.
 */
module LinearPaths {
  import opened Wrappers
  import opened Geometry

  datatype LinearPath = LinearPath(startPos: Vec3, tagPos: Vec3, totalTime: Duration) {

    /** Fraction of the move done at a time t > 0: t / totalTime, clamped to 1. */
    function Index(time: real): real {
      Min(time / totalTime, 1.0)
    }

    /** Where the end effector should be at `time`. */
    function Position(time: real): Vec3 {
      if time <= 0.0 then startPos
      else
        var index := Index(time);
        Vec3((tagPos.x - startPos.x) * index + startPos.x,
             (tagPos.y - startPos.y) * index + startPos.y,
             (tagPos.z - startPos.z) * index + startPos.z)
    }

    /** Analytic velocity: the constant slope while the move is under way, zero otherwise. */
    function Velocity(time: real): Vec3 {
      if time <= 0.0 || time > totalTime then Zero3
      else
        Vec3((tagPos.x - startPos.x) / totalTime,
             (tagPos.y - startPos.y) / totalTime,
             (tagPos.z - startPos.z) / totalTime)
    }

    /** Analytic acceleration: a constant-speed straight move has none. */
    function Acceleration(time: real): Vec3 {
      Zero3
    }

    /** The position as the source computes it, with `max(time / total_time, 1)` as the index. */
    function PositionAsWritten(time: real): Vec3 {
      if time <= 0.0 then startPos
      else
        var index := Max(time / totalTime, 1.0);
        Vec3((tagPos.x - startPos.x) * index + startPos.x,
             (tagPos.y - startPos.y) * index + startPos.y,
             (tagPos.z - startPos.z) * index + startPos.z)
    }
  }

  /**
   * The fields LinearPath's constructor sets: the target is the first entry of
   * `tagPos`, and the start is `startPos` when one is given, otherwise the end
   * effector's current position `endpoint`.
   */
  function NewLinear(endpoint: Vec3, startPos: Option<Vec3>, totalTime: Duration, tagPos: seq<Vec3>): LinearPath
    requires |tagPos| >= 1
  {
    LinearPath(if startPos.None? then endpoint else startPos.value, tagPos[0], totalTime)
  }

  /** `v` lies between `a` and `b`, whichever is larger. */
  predicate Between(v: real, a: real, b: real) {
    Min(a, b) <= v <= Max(a, b)
  }

  predicate OnSegment(v: Vec3, a: Vec3, b: Vec3) {
    Between(v.x, a.x, b.x) && Between(v.y, a.y, b.y) && Between(v.z, a.z, b.z)
  }

  lemma InterpolantBetween(s: real, g: real, l: real)
    requires 0.0 <= l <= 1.0
    ensures Between((g - s) * l + s, s, g)
  {
    var d := g - s;
    assert (g - s) * l + s == s + d * l;
    if d >= 0.0 {
      NonNegativeProduct(d, l);
      NonNegativeProduct(d, 1.0 - l);
      assert d * (1.0 - l) == d - d * l;
    } else {
      NonNegativeProduct(-d, l);
      NonNegativeProduct(-d, 1.0 - l);
      assert (-d) * l == -(d * l);
      assert (-d) * (1.0 - l) == d * l - d;
    }
  }

  lemma NonNegativeProduct(a: real, b: real)
    requires a >= 0.0 && b >= 0.0
    ensures a * b >= 0.0
  {
  }

  /** t / T is at least 1 exactly when t is at least T (for T > 0). */
  lemma QuotientAtLeastOne(t: real, T: real)
    requires T > 0.0
    ensures t / T >= 1.0 <==> t >= T
  {
    var q := t / T;
    assert q * T == t;
    if q >= 1.0 {
      NonNegativeProduct(q - 1.0, T);
      assert (q - 1.0) * T == t - T;
    } else {
      NonNegativeProduct(1.0 - q, T);
      assert (1.0 - q) * T == T - t;
    }
  }

  /** Before the move starts the path is parked at its start position. */
  lemma StartsAtStart(p: LinearPath, t: real)
    requires t <= 0.0
    ensures p.Position(t) == p.startPos
  {
  }

  /** From `totalTime` on the path is clamped at its target: it never extrapolates past it. */
  lemma ReachesTarget(p: LinearPath, t: real)
    requires t >= p.totalTime
    ensures p.Position(t) == p.tagPos
  {
    QuotientAtLeastOne(t, p.totalTime);
  }

  /** While under way the path interpolates linearly: start + (tag - start) * t / T. */
  lemma Interpolates(p: LinearPath, t: real)
    requires 0.0 < t < p.totalTime
    ensures p.Position(t) == p.startPos.Plus(p.tagPos.Minus(p.startPos).Scale(t / p.totalTime))
  {
    var l, s, g := t / p.totalTime, p.startPos, p.tagPos;
    QuotientAtLeastOne(t, p.totalTime);
    assert p.Index(t) == l;
    assert p.Position(t) == Vec3((g.x - s.x) * l + s.x, (g.y - s.y) * l + s.y, (g.z - s.z) * l + s.z);
    assert s.Plus(g.Minus(s).Scale(l)) == Vec3(s.x + l * (g.x - s.x), s.y + l * (g.y - s.y), s.z + l * (g.z - s.z));
    AffineSwap(s.x, g.x, l);
    AffineSwap(s.y, g.y, l);
    AffineSwap(s.z, g.z, l);
  }

  lemma AffineSwap(s: real, g: real, l: real)
    ensures (g - s) * l + s == s + l * (g - s)
  {
  }

  /** At no time does the path leave the segment from its start to its target. */
  lemma StaysOnSegment(p: LinearPath, t: real)
    ensures OnSegment(p.Position(t), p.startPos, p.tagPos)
  {
    if t > 0.0 {
      var l := p.Index(t);
      assert 0.0 <= l <= 1.0;
      InterpolantBetween(p.startPos.x, p.tagPos.x, l);
      InterpolantBetween(p.startPos.y, p.tagPos.y, l);
      InterpolantBetween(p.startPos.z, p.tagPos.z, l);
    }
  }

  /** Coordinate `i` (0, 1 or 2) of a vector. */
  function Coord(v: Vec3, i: nat): real
    requires i < 3
  {
    if i == 0 then v.x else if i == 1 then v.y else v.z
  }

  lemma ScaleByQuotient(d: real, t: real, T: real)
    requires T > 0.0
    ensures d * (t / T) == t * (d / T)
  {
  }

  /** Coordinate `i` of the position, for a time in [0, T], in terms of the slope. */
  lemma CoordInMove(p: LinearPath, t: real, u: real, i: nat)
    requires 0.0 <= t <= p.totalTime && 0.0 < u <= p.totalTime && i < 3
    ensures Coord(p.Position(t), i) == Coord(p.startPos, i) + t * Coord(p.Velocity(u), i)
  {
    var s, g, T := Coord(p.startPos, i), Coord(p.tagPos, i), p.totalTime;
    if t > 0.0 {
      QuotientAtLeastOne(t, T);
      assert p.Index(t) == t / T;
      assert Coord(p.Position(t), i) == (g - s) * (t / T) + s;
      assert Coord(p.Velocity(u), i) == (g - s) / T;
      ScaleByQuotient(g - s, t, T);
    }
  }

  /**
   * Velocity is the derivative of position: at every time in [0, T] the path
   * has moved from its start by the velocity (at any time under way) times the
   * time elapsed.
   */
  lemma VelocityIsSlope(p: LinearPath, t: real, u: real)
    requires 0.0 <= t <= p.totalTime
    requires 0.0 < u <= p.totalTime
    ensures p.Position(t) == p.startPos.Plus(p.Velocity(u).Scale(t))
  {
    CoordInMove(p, t, u, 0);
    CoordInMove(p, t, u, 1);
    CoordInMove(p, t, u, 2);
  }

  /** Outside (0, T] the path is at rest, and its acceleration is zero at every time. */
  lemma AtRestOutsideMove(p: LinearPath, t: real)
    ensures t <= 0.0 || t > p.totalTime ==> p.Velocity(t) == Zero3
    ensures p.Acceleration(t) == Zero3
  {
  }

  /**
   * With the index written as `max(t/T, 1)` the path jumps to its target at the
   * first instant after 0 and then runs past it, ever further, after T.
   */
  lemma AsWrittenJumpsAndOvershoots(p: LinearPath, t: real)
    requires t > 0.0
    ensures t <= p.totalTime ==> p.PositionAsWritten(t) == p.tagPos
    ensures t > p.totalTime ==>
      p.PositionAsWritten(t) == p.startPos.Plus(p.tagPos.Minus(p.startPos).Scale(t / p.totalTime))
  {
    QuotientAtLeastOne(t, p.totalTime);
    if t > p.totalTime {
      var l, s, g := t / p.totalTime, p.startPos, p.tagPos;
      assert Max(l, 1.0) == l;
      assert p.PositionAsWritten(t) == Vec3((g.x - s.x) * l + s.x, (g.y - s.y) * l + s.y, (g.z - s.z) * l + s.z);
    }
  }

  /** A concrete input: a 10-second move from the origin to (1, 0, 0). */
  lemma AsWrittenCounterexample()
    ensures var p := LinearPath(Zero3, Vec3(1.0, 0.0, 0.0), 10.0);
      p.PositionAsWritten(5.0) == Vec3(1.0, 0.0, 0.0) && p.Position(5.0) == Vec3(0.5, 0.0, 0.0) &&
      p.PositionAsWritten(20.0) == Vec3(2.0, 0.0, 0.0) && p.Position(20.0) == Vec3(1.0, 0.0, 0.0) &&
      !OnSegment(p.PositionAsWritten(20.0), p.startPos, p.tagPos)
  {
  }
}
