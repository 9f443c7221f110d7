/**
 * MultiplePaths: five straight moves, each given a fifth of the total time,
 * visiting tags 0, 1, 2, 3 and returning to tag 0.
 */
module CompositePaths {
  import opened Wrappers
  import opened Geometry
  import opened LinearPaths

  datatype MultiplePaths = MultiplePaths(
    totalTime: Duration,
    path1: LinearPath,
    path2: LinearPath,
    path3: LinearPath,
    path4: LinearPath,
    path5: LinearPath)
  {
    /** The time at which slice k (0 to 5) ends: k * T / 5. */
    function Boundary(k: nat): real {
      totalTime * (k as real) / 5.0
    }

    /** Segment k, 1 to 5. */
    function Segment(k: nat): LinearPath
      requires 1 <= k <= 5
    {
      if k == 1 then path1 else if k == 2 then path2 else if k == 3 then path3
      else if k == 4 then path4 else path5
    }

    function Position(time: real): Vec3 {
      if time > Boundary(4) then path5.Position(time - Boundary(4))
      else if time > Boundary(3) then path4.Position(time - Boundary(3))
      else if time > Boundary(2) then path3.Position(time - Boundary(2))
      else if time > Boundary(1) then path2.Position(time - Boundary(1))
      else path1.Position(time)
    }

    function Velocity(time: real): Vec3 {
      if time > Boundary(4) then path5.Velocity(time - Boundary(4))
      else if time > Boundary(3) then path4.Velocity(time - Boundary(3))
      else if time > Boundary(2) then path3.Velocity(time - Boundary(2))
      else if time > Boundary(1) then path2.Velocity(time - Boundary(1))
      else path1.Velocity(time)
    }

    function Acceleration(time: real): Vec3 {
      if time > Boundary(4) then path5.Acceleration(time - Boundary(4))
      else if time > Boundary(3) then path4.Acceleration(time - Boundary(3))
      else if time > Boundary(2) then path3.Acceleration(time - Boundary(2))
      else if time > Boundary(1) then path2.Acceleration(time - Boundary(1))
      else path1.Acceleration(time)
    }
  }

  /**
   * The constructor: the first move starts at the end effector's current
   * position `endpoint`, and each later one starts where the previous one is
   * at the end of its slice.
   */
  function NewMultiple(endpoint: Vec3, totalTime: Duration, tagPos: seq<Vec3>): MultiplePaths
    requires |tagPos| >= 4
  {
    var slice: Duration := totalTime / 5.0;
    var path1 := NewLinear(endpoint, None, slice, [tagPos[0]]);
    var path2 := NewLinear(endpoint, Some(path1.Position(slice)), slice, [tagPos[1]]);
    var path3 := NewLinear(endpoint, Some(path2.Position(slice)), slice, [tagPos[2]]);
    var path4 := NewLinear(endpoint, Some(path3.Position(slice)), slice, [tagPos[3]]);
    var path5 := NewLinear(endpoint, Some(path4.Position(slice)), slice, [tagPos[0]]);
    MultiplePaths(totalTime, path1, path2, path3, path4, path5)
  }

  /** The tag segment k (1 to 5) heads for: tags 0, 1, 2, 3, then back to 0. */
  function TargetOf(tagPos: seq<Vec3>, k: nat): Vec3
    requires |tagPos| >= 4 && 1 <= k <= 5
  {
    if k == 5 then tagPos[0] else tagPos[k - 1]
  }

  /**
   * The segments are chained: each lasts T / 5, heads for its tag, and starts
   * where the previous segment ends (the first at the end effector's position).
   */
  lemma SegmentsChain(endpoint: Vec3, totalTime: Duration, tagPos: seq<Vec3>, k: nat)
    requires |tagPos| >= 4 && 1 <= k <= 5
    ensures var m := NewMultiple(endpoint, totalTime, tagPos);
      m.Segment(k).totalTime == totalTime / 5.0 &&
      m.Segment(k).tagPos == TargetOf(tagPos, k) &&
      m.Segment(k).startPos == (if k == 1 then endpoint else m.Segment(k - 1).Position(totalTime / 5.0)) &&
      m.Segment(k).startPos == (if k == 1 then endpoint else TargetOf(tagPos, k - 1))
  {
    var m := NewMultiple(endpoint, totalTime, tagPos);
    if k > 1 {
      ReachesTarget(m.Segment(k - 1), totalTime / 5.0);
    }
  }

  /**
   * Dispatch: a time in slice k, (k-1)T/5 < t <= kT/5 (slice 1 also takes every
   * t <= T/5, slice 5 every t > 4T/5), goes to segment k at local time
   * t - (k-1)T/5, for position, velocity and acceleration alike.
   */
  lemma Dispatch(m: MultiplePaths, k: nat, t: real)
    requires 1 <= k <= 5
    requires k == 1 || t > m.Boundary(k - 1)
    requires k == 5 || t <= m.Boundary(k)
    ensures var local := t - m.Boundary(k - 1);
      m.Position(t) == m.Segment(k).Position(local) &&
      m.Velocity(t) == m.Segment(k).Velocity(local) &&
      m.Acceleration(t) == m.Segment(k).Acceleration(local)
  {
    assert m.Boundary(0) == 0.0;
    BoundariesIncrease(m);
  }

  lemma BoundariesIncrease(m: MultiplePaths)
    ensures m.Boundary(1) < m.Boundary(2) < m.Boundary(3) < m.Boundary(4) < m.Boundary(5)
    ensures m.Boundary(5) == m.totalTime && m.Boundary(0) == 0.0
  {
  }

  /**
   * Continuity: for a chained path, at each slice boundary k T / 5 (k = 1 to 4)
   * the position is where the next segment starts.
   */
  lemma ContinuousAtBoundaries(endpoint: Vec3, totalTime: Duration, tagPos: seq<Vec3>, k: nat)
    requires |tagPos| >= 4 && 1 <= k <= 4
    ensures var m := NewMultiple(endpoint, totalTime, tagPos);
      m.Position(m.Boundary(k)) == m.Segment(k + 1).Position(0.0) &&
      m.Position(m.Boundary(k)) == TargetOf(tagPos, k)
  {
    var m := NewMultiple(endpoint, totalTime, tagPos);
    BoundariesIncrease(m);
    Dispatch(m, k, m.Boundary(k));
    assert m.Boundary(k) - m.Boundary(k - 1) == totalTime / 5.0;
    SegmentsChain(endpoint, totalTime, tagPos, k);
    SegmentsChain(endpoint, totalTime, tagPos, k + 1);
    ReachesTarget(m.Segment(k), totalTime / 5.0);
  }

  /** The tour starts at the end effector's position and ends back at tag 0. */
  lemma TourEndsAtFirstTag(endpoint: Vec3, totalTime: Duration, tagPos: seq<Vec3>, t: real)
    requires |tagPos| >= 4
    ensures var m := NewMultiple(endpoint, totalTime, tagPos);
      (t <= 0.0 ==> m.Position(t) == endpoint) && (t >= totalTime ==> m.Position(t) == tagPos[0])
  {
    var m := NewMultiple(endpoint, totalTime, tagPos);
    BoundariesIncrease(m);
    if t >= totalTime {
      assert t - m.Boundary(4) >= totalTime / 5.0;
      ReachesTarget(m.path5, t - m.Boundary(4));
    }
  }
}
