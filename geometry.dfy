/**
 * Vectors and matrices the path code builds with numpy, over exact reals.
 * Workspace points and directions are 3-vectors; joint vectors are `seq<real>`.
 */
module Geometry {

  /** A duration in seconds; every path is defined over a positive total time. */
  type Duration = r: real | r > 0.0 witness 1.0

  /** A workspace 3-vector (x, y, z) in the robot's base frame. */
  datatype Vec3 = Vec3(x: real, y: real, z: real) {

    function Plus(o: Vec3): Vec3 {
      Vec3(x + o.x, y + o.y, z + o.z)
    }

    function Minus(o: Vec3): Vec3 {
      Vec3(x - o.x, y - o.y, z - o.z)
    }

    function Scale(k: real): Vec3 {
      Vec3(k * x, k * y, k * z)
    }

    function Neg(): Vec3 {
      Vec3(-x, -y, -z)
    }

    /** The numpy array `[x, y, z]` this vector is sent as. */
    function ToSeq(): (s: seq<real>)
      ensures |s| == 3 && s[0] == x && s[1] == y && s[2] == z
    {
      [x, y, z]
    }
  }

  const Zero3: Vec3 := Vec3(0.0, 0.0, 0.0)

  function Dot(a: Vec3, b: Vec3): real {
    a.x * b.x + a.y * b.y + a.z * b.z
  }

  /** numpy's `np.cross` of two 3-vectors. */
  function Cross(a: Vec3, b: Vec3): Vec3 {
    Vec3(a.y * b.z - a.z * b.y, a.z * b.x - a.x * b.z, a.x * b.y - a.y * b.x)
  }

  /** A vector in the XY plane. */
  datatype Vec2 = Vec2(x: real, y: real)

  /** A 2x2 matrix, row by row; `Apply` is numpy's `matrix.dot(vector)`. */
  datatype Mat2 = Mat2(m00: real, m01: real, m10: real, m11: real) {
    function Apply(v: Vec2): Vec2 {
      Vec2(m00 * v.x + m01 * v.y, m10 * v.x + m11 * v.y)
    }
  }

  const Identity2: Mat2 := Mat2(1.0, 0.0, 0.0, 1.0)

  /** A matrix of the form [[c, -s], [s, c]] with c*c + s*s == 1, what a 2-D rotation returns. */
  predicate IsRotation(m: Mat2) {
    m.m11 == m.m00 && m.m01 == -m.m10 && m.m00 * m.m00 + m.m10 * m.m10 == 1.0
  }

  function NormSquared2(v: Vec2): real {
    v.x * v.x + v.y * v.y
  }

  /** A rotation keeps the length of every vector it is applied to. */
  lemma RotationPreservesNorm(m: Mat2, v: Vec2)
    requires IsRotation(m)
    ensures NormSquared2(m.Apply(v)) == NormSquared2(v)
  {
    var c, s := m.m00, m.m10;
    calc {
      NormSquared2(m.Apply(v));
      (c * v.x - s * v.y) * (c * v.x - s * v.y) + (s * v.x + c * v.y) * (s * v.x + c * v.y);
      (c * c + s * s) * (v.x * v.x) + (c * c + s * s) * (v.y * v.y);
      NormSquared2(v);
    }
  }

  function Min(a: real, b: real): real {
    if a <= b then a else b
  }

  function Max(a: real, b: real): real {
    if a >= b then a else b
  }
}
