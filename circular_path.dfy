/**
 * CircularPath: one turn around a centre (the tag position) in the XY plane,
 * at constant angular speed, keeping the start's height.
 */
module CircularPaths {
  import opened Geometry

  /** `math.pi`: its decimal literal, as an exact real. */
  const PI: real := 3.141592653589793

  /**
   * `rotation` stands for `rotation2d`, the helper that turns an angle into a
   * 2-D rotation matrix; it is a parameter of the model.
   */
  datatype CircularPath = CircularPath(
    startPos: Vec3,
    tagPos: Vec3,
    radius: Vec2,
    angVelocity: real,
    totalTime: Duration,
    rotation: real -> Mat2)
  {
    /** The angle swept at `time`: 2 pi t / T. */
    function Angle(time: real): real {
      PI * 2.0 * (time / totalTime)
    }

    /** The radius vector turned through `theta`. */
    function RotatedRadius(theta: real): Vec2 {
      rotation(theta).Apply(radius)
    }

    /** The point of the circle at angle `theta`, at the start's height. */
    function PositionAtAngle(theta: real): Vec3 {
      var rv := RotatedRadius(theta);
      Vec3(rv.x, rv.y, startPos.z - tagPos.z).Plus(tagPos)
    }

    /** Where the end effector should be at `time`; exactly the start at time 0. */
    function Position(time: real): Vec3 {
      if time == 0.0 then startPos else PositionAtAngle(Angle(time))
    }

    /** Analytic velocity: (0, 0, omega) x (rotated radius, 0). */
    function Velocity(time: real): Vec3 {
      var rv := RotatedRadius(Angle(time));
      Cross(Vec3(0.0, 0.0, angVelocity), Vec3(rv.x, rv.y, 0.0))
    }

    /** Analytic acceleration: -(omega^2 * (rotated radius, 0)), centripetal only. */
    function Acceleration(time: real): Vec3 {
      var rv := RotatedRadius(Angle(time));
      Vec3(rv.x, rv.y, 0.0).Scale(angVelocity * angVelocity).Neg()
    }
  }

  /**
   * The fields CircularPath's constructor sets: the centre is the first tag, the
   * start is the end effector's current position `endpoint`, the radius runs in
   * the XY plane from the centre to the start, and omega = 2 pi / T.
   */
  function NewCircular(endpoint: Vec3, totalTime: Duration, tagPos: seq<Vec3>, rotation: real -> Mat2): CircularPath
    requires |tagPos| >= 1
  {
    var tag := tagPos[0];
    CircularPath(endpoint, tag, Vec2(endpoint.x - tag.x, endpoint.y - tag.y), 2.0 * PI / totalTime, totalTime, rotation)
  }

  /** The constructor as the source writes it: the radius runs from the start to the centre. */
  function NewCircularAsWritten(endpoint: Vec3, totalTime: Duration, tagPos: seq<Vec3>, rotation: real -> Mat2): CircularPath
    requires |tagPos| >= 1
  {
    var tag := tagPos[0];
    CircularPath(endpoint, tag, Vec2(tag.x - endpoint.x, tag.y - endpoint.y), 2.0 * PI / totalTime, totalTime, rotation)
  }

  /** The XY offset of a point from the centre. */
  function FromCentre(c: CircularPath, v: Vec3): Vec2 {
    Vec2(v.x - c.tagPos.x, v.y - c.tagPos.y)
  }

  lemma QuotientOfItself(T: real)
    requires T > 0.0
    ensures T / T == 1.0
  {
  }

  /** A full period sweeps 2 pi, and omega is 2 pi / T. */
  lemma FullTurn(endpoint: Vec3, totalTime: Duration, tagPos: seq<Vec3>, rotation: real -> Mat2)
    requires |tagPos| >= 1
    ensures var c := NewCircular(endpoint, totalTime, tagPos, rotation);
      c.Angle(totalTime) == 2.0 * PI && c.angVelocity * totalTime == 2.0 * PI && c.Position(0.0) == endpoint
  {
    QuotientOfItself(totalTime);
  }

  /**
   * The velocity lies in the XY plane and is perpendicular to the rotated
   * radius: it is tangent to the circle.
   */
  lemma VelocityIsTangent(c: CircularPath, t: real)
    ensures var rv := c.RotatedRadius(c.Angle(t));
      c.Velocity(t).z == 0.0 && Dot(c.Velocity(t), Vec3(rv.x, rv.y, 0.0)) == 0.0
  {
    var rv := c.RotatedRadius(c.Angle(t));
    var w := c.angVelocity;
    assert c.Velocity(t) == Vec3(-(w * rv.y), w * rv.x, 0.0);
    assert (-(w * rv.y)) * rv.x + (w * rv.x) * rv.y == 0.0;
  }

  /**
   * The acceleration is omega x velocity, and in the XY plane it points from
   * the position back to the centre, scaled by omega^2.
   */
  lemma AccelerationIsCentripetal(c: CircularPath, t: real)
    ensures c.Acceleration(t) == Cross(Vec3(0.0, 0.0, c.angVelocity), c.Velocity(t))
    ensures t != 0.0 ==>
      var w2, d := c.angVelocity * c.angVelocity, FromCentre(c, c.Position(t));
      c.Acceleration(t).x == -(w2 * d.x) && c.Acceleration(t).y == -(w2 * d.y)
  {
    var rv := c.RotatedRadius(c.Angle(t));
    var w := c.angVelocity;
    assert c.Velocity(t) == Vec3(-(w * rv.y), w * rv.x, 0.0);
    assert c.Acceleration(t) == Vec3(-(w * w * rv.x), -(w * w * rv.y), 0.0);
  }

  /**
   * Circle invariant: whenever `rotation` yields a rotation matrix, the path
   * stays at the radius' distance from the centre and at the start's height.
   */
  lemma StaysOnCircle(endpoint: Vec3, totalTime: Duration, tagPos: seq<Vec3>, rotation: real -> Mat2, t: real)
    requires |tagPos| >= 1
    requires IsRotation(rotation(NewCircular(endpoint, totalTime, tagPos, rotation).Angle(t)))
    ensures var c := NewCircular(endpoint, totalTime, tagPos, rotation);
      NormSquared2(FromCentre(c, c.Position(t))) == NormSquared2(c.radius) && c.Position(t).z == endpoint.z
  {
    var c := NewCircular(endpoint, totalTime, tagPos, rotation);
    if t != 0.0 {
      var theta := c.Angle(t);
      RotationPreservesNorm(rotation(theta), c.radius);
      assert FromCentre(c, c.Position(t)) == c.RotatedRadius(theta);
    }
  }

  /** Uniform circular motion: the speed is omega times the radius' length. */
  lemma UniformSpeed(c: CircularPath, t: real)
    requires IsRotation(c.rotation(c.Angle(t)))
    ensures Dot(c.Velocity(t), c.Velocity(t)) == c.angVelocity * c.angVelocity * NormSquared2(c.radius)
  {
    var rv := c.RotatedRadius(c.Angle(t));
    var w := c.angVelocity;
    RotationPreservesNorm(c.rotation(c.Angle(t)), c.radius);
    assert c.Velocity(t) == Vec3(-(w * rv.y), w * rv.x, 0.0);
    calc {
      Dot(c.Velocity(t), c.Velocity(t));
      (-(w * rv.y)) * (-(w * rv.y)) + (w * rv.x) * (w * rv.x) + 0.0 * 0.0;
      w * w * (rv.x * rv.x + rv.y * rv.y);
      w * w * NormSquared2(c.radius);
    }
  }

  /**
   * When the start lies above the centre (zero radius) the path stands still:
   * velocity and acceleration are zero, with no division anywhere.
   */
  lemma DegenerateRadiusAtRest(c: CircularPath, t: real)
    requires c.radius == Vec2(0.0, 0.0)
    ensures c.Velocity(t) == Zero3 && c.Acceleration(t) == Zero3
  {
  }

  /**
   * With the radius from the centre to the start, the general formula at angle
   * 0 is the start itself, and after one full period the path is back at it.
   */
  lemma ClosesLoop(endpoint: Vec3, totalTime: Duration, tagPos: seq<Vec3>, rotation: real -> Mat2)
    requires |tagPos| >= 1
    requires rotation(0.0) == Identity2 && rotation(2.0 * PI) == Identity2
    ensures var c := NewCircular(endpoint, totalTime, tagPos, rotation);
      c.PositionAtAngle(0.0) == endpoint && c.Position(totalTime) == c.Position(0.0)
  {
    FullTurn(endpoint, totalTime, tagPos, rotation);
  }

  /**
   * With the radius as the source computes it (from the start to the centre),
   * the formula at angle 0 and the position after one period are the start's
   * mirror image through the centre, not the start.
   */
  lemma AsWrittenStartsOpposite(endpoint: Vec3, totalTime: Duration, tagPos: seq<Vec3>, rotation: real -> Mat2)
    requires |tagPos| >= 1
    requires rotation(0.0) == Identity2 && rotation(2.0 * PI) == Identity2
    ensures var c, tag := NewCircularAsWritten(endpoint, totalTime, tagPos, rotation), tagPos[0];
      var mirror := Vec3(2.0 * tag.x - endpoint.x, 2.0 * tag.y - endpoint.y, endpoint.z);
      c.PositionAtAngle(0.0) == mirror && c.Position(totalTime) == mirror && c.Position(0.0) == endpoint
  {
    QuotientOfItself(totalTime);
  }

  /** A concrete input: start at the origin, centre (1, 0, 0), one-second period. */
  lemma AsWrittenCounterexample()
    ensures var c := NewCircularAsWritten(Zero3, 1.0, [Vec3(1.0, 0.0, 0.0)], _ => Identity2);
      c.Position(0.0) == Zero3 && c.Position(1.0) == Vec3(2.0, 0.0, 0.0)
  {
    AsWrittenStartsOpposite(Zero3, 1.0, [Vec3(1.0, 0.0, 0.0)], _ => Identity2);
  }
}
