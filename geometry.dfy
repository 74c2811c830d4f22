/** Vectors, rotations and the library geometry the camera relies on.

    The vector and rotation types are the immutable values of the
    commons-math `Vector3D` and `Rotation` classes.  Everything those
    classes (and `java.lang.Math`) compute with transcendental functions is
    kept uninterpreted: a `Library` value carries one function per
    operation, and every member that needs one takes the library as a
    parameter. */
module Geometry {
  import opened Wrappers

  /** A 3-vector of doubles, modelled over the reals. */
  datatype Vec3 = Vec3(x: real, y: real, z: real)
  {
    function Add(v: Vec3): Vec3 { Vec3(x + v.x, y + v.y, z + v.z) }

    function ScalarMultiply(k: real): Vec3 { Vec3(k * x, k * y, k * z) }

    function Negate(): Vec3 { Vec3(-x, -y, -z) }
  }

  const PlusI := Vec3(1.0, 0.0, 0.0)
  const PlusJ := Vec3(0.0, 1.0, 0.0)
  const PlusK := Vec3(0.0, 0.0, 1.0)

  /** A rotation as its quaternion components (scalar part first). */
  datatype Rotation = Rotation(q0: real, q1: real, q2: real, q3: real)

  /** `new Rotation()`: the identity quaternion. */
  const Identity := Rotation(1.0, 0.0, 0.0, 0.0)

  datatype Axis = XAxis | YAxis | ZAxis

  /** The Cardan orders the camera asks the library for. */
  datatype RotationOrder = XYZ | YXZ | ZXY
  {
    /** The axis of the order's i-th elementary rotation. */
    function AxisAt(i: nat): Axis
      requires i < 3
    {
      match this
      case XYZ => [XAxis, YAxis, ZAxis][i]
      case YXZ => [YAxis, XAxis, ZAxis][i]
      case ZXY => [ZAxis, XAxis, YAxis][i]
    }
  }

  /** Three angles, as the `double[3]` the library and the camera return. */
  datatype Angles = Angles(a0: real, a1: real, a2: real)

  const ZeroAngles := Angles(0.0, 0.0, 0.0)

  /** The library operations that stay uninterpreted.
      - compose(r, s): `r.applyTo(s)`, the rotation s followed by r;
      - axisAngle(axis, angle): `new Rotation(axis, angle)`;
      - apply(r, v): `r.applyTo(v)`, the vector v rotated by r;
      - angle(u, v): `Vector3D.angle(u, v)`;
      - getAngles(r, order): `r.getAngles(order)`, the Cardan angles in the
        order's own axis order (angle i is about `order.AxisAt(i)`), or None
        where the library throws its singularity exception;
      - fromAngles(order, a, b, c): `new Rotation(order, a, b, c)`;
      - normalized(q0, q1, q2, q3): `new Rotation(q0, q1, q2, q3, true)`,
        which rescales to a unit quaternion;
      - sqrt, acos, sin: the `java.lang.Math` functions. */
  datatype Library = Library(
    compose: (Rotation, Rotation) -> Rotation,
    axisAngle: (Vec3, real) -> Rotation,
    apply: (Rotation, Vec3) -> Vec3,
    angle: (Vec3, Vec3) -> real,
    getAngles: (Rotation, RotationOrder) -> Option<Angles>,
    fromAngles: (RotationOrder, real, real, real) -> Rotation,
    normalized: (real, real, real, real) -> Rotation,
    sqrt: real -> real,
    acos: real -> real,
    sin: real -> real)

  function Abs(x: real): (r: real)
    ensures r >= 0.0 && (r == x || r == -x)
  {
    if x < 0.0 then -x else x
  }

  function Min(a: real, b: real): (r: real)
    ensures r <= a && r <= b && (r == a || r == b)
  {
    if a <= b then a else b
  }

  function Max(a: real, b: real): (r: real)
    ensures r >= a && r >= b && (r == a || r == b)
  {
    if a >= b then a else b
  }

  // Arithmetic facts about products and quotients of reals.

  lemma MulNonnegative(x: real, y: real)
    requires 0.0 <= x && 0.0 <= y
    ensures 0.0 <= x * y
  {
  }

  lemma MulMonotonic(x: real, y: real, k: real)
    requires x <= y && 0.0 <= k
    ensures x * k <= y * k
  {
    MulNonnegative(y - x, k);
  }

  /** Scaling a non-negative number by at most one does not enlarge it. */
  lemma MulAtMostOne(x: real, y: real)
    requires 0.0 <= x && y <= 1.0
    ensures x * y <= x
  {
    MulNonnegative(x, 1.0 - y);
    assert x * (1.0 - y) == x - x * y;
  }

  lemma DivNonnegative(x: real, y: real)
    requires 0.0 <= x && 0.0 < y
    ensures 0.0 <= x / y
  {
  }
}
