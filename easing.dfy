/** The blends of `InterpolationUtil`: linear and smoothstep easing of
    scalars and 3-vectors, and the quaternion slerp whose trigonometry is
    left to the library. */
module Easing {
  import opened Geometry

  /** The cubic smoothstep factor t^2 (3 - 2t) that `smooth` blends with. */
  function SmoothStep(t: real): real
  {
    t * t * (3.0 - 2.0 * t)
  }

  /** `smooth(a, b, t)`: b weighted by the smoothstep factor, a by its
      complement.  It starts at a, ends at b, passes the midpoint halfway,
      and blending a value with itself gives it back at every t. */
  function Smooth(a: real, b: real, t: real): (r: real)
    ensures t == 0.0 ==> r == a
    ensures t == 1.0 ==> r == b
    ensures t == 0.5 ==> r == (a + b) / 2.0
    ensures a == b ==> r == a
  {
    var s := SmoothStep(t);
    assert a == b ==> b * s + a * (1.0 - s) == a * (s + 1.0 - s);
    b * s + a * (1.0 - s)
  }

  /** `linear(a, b, t)`: a at 0, b at 1. */
  function Linear(a: real, b: real, t: real): (r: real)
    ensures t == 0.0 ==> r == a
    ensures t == 1.0 ==> r == b
  {
    a + (b - a) * t
  }

  /** The vector overloads blend each coordinate on its own. */
  function SmoothVec(a: Vec3, b: Vec3, t: real): (r: Vec3)
    ensures t == 0.0 ==> r == a
    ensures t == 1.0 ==> r == b
    ensures a == b ==> r == a
  {
    Vec3(Smooth(a.x, b.x, t), Smooth(a.y, b.y, t), Smooth(a.z, b.z, t))
  }

  function LinearVec(a: Vec3, b: Vec3, t: real): (r: Vec3)
    ensures t == 0.0 ==> r == a
    ensures t == 1.0 ==> r == b
  {
    Vec3(Linear(a.x, b.x, t), Linear(a.y, b.y, t), Linear(a.z, b.z, t))
  }

  // ---------------------------------------------------------------------
  // Smoothstep factor

  lemma SmoothStepEndpoints()
    ensures SmoothStep(0.0) == 0.0 && SmoothStep(1.0) == 1.0 && SmoothStep(0.5) == 0.5
  {
  }

  /** On [0, 1] the factor stays in [0, 1]. */
  lemma SmoothStepBounded(t: real)
    requires 0.0 <= t <= 1.0
    ensures 0.0 <= SmoothStep(t) <= 1.0
  {
    // s = t^2 (3 - 2t) >= 0, and 1 - s = (1 - t)^2 (1 + 2t) >= 0.
    MulNonnegative(t, t);
    MulNonnegative(t * t, 3.0 - 2.0 * t);
    MulNonnegative(1.0 - t, 1.0 - t);
    MulNonnegative((1.0 - t) * (1.0 - t), 1.0 + 2.0 * t);
    SmoothStepComplement(t);
  }

  /** 1 - s(t) factors as (1 - t)^2 (1 + 2t). */
  lemma SmoothStepComplement(t: real)
    ensures 1.0 - SmoothStep(t) == (1.0 - t) * (1.0 - t) * (1.0 + 2.0 * t)
  {
  }

  /** On [0, 1] the factor never decreases. */
  lemma SmoothStepMonotonic(t1: real, t2: real)
    requires 0.0 <= t1 <= t2 <= 1.0
    ensures SmoothStep(t1) <= SmoothStep(t2)
  {
    // s(t2) - s(t1) = (t2 - t1) (3 (t1 + t2) - 2 (t1^2 + t1 t2 + t2^2)),
    // and on [0, 1] each square or product is at most the smaller factor.
    var d := t2 - t1;
    var q := 3.0 * (t1 + t2) - 2.0 * (t1 * t1 + t1 * t2 + t2 * t2);
    assert SmoothStep(t2) - SmoothStep(t1) == d * q;
    var p11, p12, p22 := t1 * t1, t1 * t2, t2 * t2;
    MulAtMostOne(t1, t1);
    assert p11 <= t1;
    MulAtMostOne(t2, t2);
    assert p22 <= t2;
    MulAtMostOne(t1, t2);
    assert p12 <= t1;
    assert p11 + p12 + p22 <= t1 + t1 + t2;
    assert q >= t2 - t1;
    MulNonnegative(d, q);
  }

  /** The factor is symmetric about t = 1/2: the ease-out mirrors the ease-in. */
  lemma SmoothStepSymmetric(t: real)
    ensures SmoothStep(1.0 - t) == 1.0 - SmoothStep(t)
  {
    assert SmoothStep(1.0 - t) == (1.0 - t) * (1.0 - t) * (1.0 + 2.0 * t);
  }

  /** Ease in and out: within h of either end of [0, 1] the factor is within
      3 h^2 of that end's value, so `smooth` starts and stops with zero
      velocity. */
  lemma SmoothStepFlatAtEnds(h: real)
    requires 0.0 <= h <= 1.0
    ensures 0.0 <= SmoothStep(h) <= 3.0 * h * h
    ensures 0.0 <= 1.0 - SmoothStep(1.0 - h) <= 3.0 * h * h
  {
    MulNonnegative(h, h);
    MulNonnegative(h * h, h);
    assert SmoothStep(h) == 3.0 * h * h - 2.0 * (h * h * h);
    SmoothStepBounded(h);
    SmoothStepSymmetric(h);
  }

  // ---------------------------------------------------------------------
  // Scalar blends

  /** `smooth` is `linear` run at the smoothstep factor instead of at t. */
  lemma SmoothIsEasedLinear(a: real, b: real, t: real)
    ensures Smooth(a, b, t) == Linear(a, b, SmoothStep(t))
  {
    var s := SmoothStep(t);
    assert b * s + a * (1.0 - s) == a + (b - a) * s;
  }

  /** For t in [0, 1] the blend lies between its two ends. */
  lemma SmoothBetween(a: real, b: real, t: real)
    requires 0.0 <= t <= 1.0
    ensures Min(a, b) <= Smooth(a, b, t) <= Max(a, b)
  {
    var s := SmoothStep(t);
    SmoothStepBounded(t);
    SmoothIsEasedLinear(a, b, t);
    assert Smooth(a, b, t) == a + (b - a) * s;
    assert Smooth(a, b, t) == b - (b - a) * (1.0 - s);
    if a <= b {
      MulNonnegative(b - a, s);
      MulNonnegative(b - a, 1.0 - s);
    } else {
      MulNonnegative(a - b, s);
      MulNonnegative(a - b, 1.0 - s);
    }
  }

  /** For t1 <= t2 in [0, 1] the blend moves monotonically from a towards b. */
  lemma SmoothProgresses(a: real, b: real, t1: real, t2: real)
    requires 0.0 <= t1 <= t2 <= 1.0
    ensures a <= b ==> Smooth(a, b, t1) <= Smooth(a, b, t2)
    ensures b <= a ==> Smooth(a, b, t2) <= Smooth(a, b, t1)
  {
    SmoothStepMonotonic(t1, t2);
    SmoothIsEasedLinear(a, b, t1);
    SmoothIsEasedLinear(a, b, t2);
    var d := SmoothStep(t2) - SmoothStep(t1);
    assert Smooth(a, b, t2) - Smooth(a, b, t1) == (b - a) * d;
    if a <= b { MulNonnegative(b - a, d); } else { MulNonnegative(a - b, d); }
  }

  /** `linear` is affine in t: it maps an affine combination of parameters
      to the same combination of values. */
  lemma LinearIsAffine(a: real, b: real, t: real, u: real, k: real)
    ensures Linear(a, b, (1.0 - k) * t + k * u)
         == (1.0 - k) * Linear(a, b, t) + k * Linear(a, b, u)
  {
    assert (b - a) * ((1.0 - k) * t + k * u) == (1.0 - k) * ((b - a) * t) + k * ((b - a) * u);
  }

  // ---------------------------------------------------------------------
  // Vector blends

  /** The vector blends are the scalar blends of each coordinate, and the
      vector `smooth` is the vector `linear` at the smoothstep factor. */
  lemma VecBlendsPerCoordinate(a: Vec3, b: Vec3, t: real)
    ensures SmoothVec(a, b, t) == LinearVec(a, b, SmoothStep(t))
    ensures LinearVec(a, b, t).x == Linear(a.x, b.x, t)
    ensures LinearVec(a, b, t).y == Linear(a.y, b.y, t)
    ensures LinearVec(a, b, t).z == Linear(a.z, b.z, t)
  {
    SmoothIsEasedLinear(a.x, b.x, t);
    SmoothIsEasedLinear(a.y, b.y, t);
    SmoothIsEasedLinear(a.z, b.z, t);
  }

  // ---------------------------------------------------------------------
  // Slerp

  /** The literal `0.001f` of the slerp guard: the single-precision float
      nearest to 0.001, which is slightly above it, widened to double. */
  const SlerpThreshold: real := 8589935.0 / 8589934592.0

  function Dot(a: Rotation, b: Rotation): real
  {
    a.q0 * b.q0 + a.q1 * b.q1 + a.q2 * b.q2 + a.q3 * b.q3
  }

  datatype Weights = Weights(w1: real, w2: real)

  /** The two blend weights: the spherical ones while sin(theta) is clear of
      zero, the linear ones 1 - t and t near (anti)parallel quaternions. */
  function SlerpWeights(lib: Library, theta: real, sinTheta: real, t: real): (w: Weights)
    ensures sinTheta <= SlerpThreshold ==> w == Weights(1.0 - t, t) && w.w1 + w.w2 == 1.0
  {
    if sinTheta > SlerpThreshold then
      Weights(lib.sin((1.0 - t) * theta) / sinTheta, lib.sin(t * theta) / sinTheta)
    else
      Weights(1.0 - t, t)
  }

  /** The weighted sum of two quaternions, before renormalisation. */
  function Blend(w: Weights, a: Rotation, b: Rotation): Rotation
  {
    Rotation(w.w1 * a.q0 + w.w2 * b.q0, w.w1 * a.q1 + w.w2 * b.q1,
             w.w1 * a.q2 + w.w2 * b.q2, w.w1 * a.q3 + w.w2 * b.q3)
  }

  /** `slerp(a, b, t)`: the weighted sum of the two quaternions,
      renormalised.  With sin(0) = 0 it starts at (the normalisation of) a
      and ends at b on either branch of the guard; slerp from a unit
      quaternion to itself stays at it when moreover acos(1) = 0, since the
      guard then takes the linear weights. */
  function Slerp(lib: Library, a: Rotation, b: Rotation, t: real): (r: Rotation)
    ensures lib.sin(0.0) == 0.0 && t == 0.0 ==> r == lib.normalized(a.q0, a.q1, a.q2, a.q3)
    ensures lib.sin(0.0) == 0.0 && t == 1.0 ==> r == lib.normalized(b.q0, b.q1, b.q2, b.q3)
    ensures b == a && Dot(a, a) == 1.0 && lib.acos(1.0) == 0.0 && lib.sin(0.0) == 0.0
            ==> r == lib.normalized(a.q0, a.q1, a.q2, a.q3)
  {
    var theta := lib.acos(Dot(a, b));
    var w := SlerpWeights(lib, theta, lib.sin(theta), t);
    var q := Blend(w, a, b);
    assert lib.sin(0.0) == 0.0 ==> (t == 0.0 ==> q == a) && (t == 1.0 ==> q == b) by {
      if lib.sin(0.0) == 0.0 {
        EndWeights(lib, theta, lib.sin(theta));
        assert Blend(Weights(1.0, 0.0), a, b) == a;
        assert Blend(Weights(0.0, 1.0), a, b) == b;
      }
    }
    assert b == a && Dot(a, a) == 1.0 && lib.acos(1.0) == 0.0 && lib.sin(0.0) == 0.0 ==> q == a by {
      if b == a && Dot(a, a) == 1.0 && lib.acos(1.0) == 0.0 && lib.sin(0.0) == 0.0 {
        assert theta == 0.0;
        assert w == Weights(1.0 - t, t);
        BlendOfEqual(w, a);
      }
    }
    lib.normalized(q.q0, q.q1, q.q2, q.q3)
  }

  /** At t = 0 and t = 1 the guard's two branches agree on the weights. */
  lemma EndWeights(lib: Library, theta: real, s: real)
    requires lib.sin(0.0) == 0.0 && s == lib.sin(theta)
    ensures SlerpWeights(lib, theta, s, 0.0) == Weights(1.0, 0.0)
    ensures SlerpWeights(lib, theta, s, 1.0) == Weights(0.0, 1.0)
  {
    if s > SlerpThreshold {
      assert (1.0 - 0.0) * theta == theta && 0.0 * theta == 0.0;
      assert (1.0 - 1.0) * theta == 0.0 && 1.0 * theta == theta;
      assert s / s == 1.0 && 0.0 / s == 0.0;
    }
  }

  /** Weights that sum to one blend a quaternion with itself to itself. */
  lemma BlendOfEqual(w: Weights, a: Rotation)
    requires w.w1 + w.w2 == 1.0
    ensures Blend(w, a, a) == a
  {
    assert w.w1 * a.q0 + w.w2 * a.q0 == (w.w1 + w.w2) * a.q0;
    assert w.w1 * a.q1 + w.w2 * a.q1 == (w.w1 + w.w2) * a.q1;
    assert w.w1 * a.q2 + w.w2 * a.q2 == (w.w1 + w.w2) * a.q2;
    assert w.w1 * a.q3 + w.w2 * a.q3 == (w.w1 + w.w2) * a.q3;
  }
}
