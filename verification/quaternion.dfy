/** Quaternion and 3-vector algebra over the reals, scalar-first (q0, q1, q2, q3). */
module Quaternion {

  datatype Quat = Quat(q0: real, q1: real, q2: real, q3: real)

  datatype Vec3 = Vec3(x: real, y: real, z: real)

  const Identity: Quat := Quat(1.0, 0.0, 0.0, 0.0)

  const Zero: Quat := Quat(0.0, 0.0, 0.0, 0.0)

  function Add(p: Quat, q: Quat): Quat {
    Quat(p.q0 + q.q0, p.q1 + q.q1, p.q2 + q.q2, p.q3 + q.q3)
  }

  function Sub(p: Quat, q: Quat): Quat {
    Quat(p.q0 - q.q0, p.q1 - q.q1, p.q2 - q.q2, p.q3 - q.q3)
  }

  function Scale(k: real, q: Quat): Quat {
    Quat(k * q.q0, k * q.q1, k * q.q2, k * q.q3)
  }

  /** Hamilton product p ⊗ r. */
  function Mul(p: Quat, r: Quat): Quat {
    Quat(p.q0 * r.q0 - p.q1 * r.q1 - p.q2 * r.q2 - p.q3 * r.q3,
         p.q0 * r.q1 + p.q1 * r.q0 + p.q2 * r.q3 - p.q3 * r.q2,
         p.q0 * r.q2 - p.q1 * r.q3 + p.q2 * r.q0 + p.q3 * r.q1,
         p.q0 * r.q3 + p.q1 * r.q2 - p.q2 * r.q1 + p.q3 * r.q0)
  }

  function Conj(q: Quat): Quat {
    Quat(q.q0, -q.q1, -q.q2, -q.q3)
  }

  /** The pure quaternion (0, v). */
  function Pure(v: Vec3): Quat {
    Quat(0.0, v.x, v.y, v.z)
  }

  function VectorPart(q: Quat): Vec3 {
    Vec3(q.q1, q.q2, q.q3)
  }

  /** The vector v expressed in the frame rotated by q: the vector part of q ⊗ (0, v) ⊗ q*. */
  function Rotate(q: Quat, v: Vec3): Vec3 {
    VectorPart(Mul(Mul(q, Pure(v)), Conj(q)))
  }

  function Dot(p: Quat, q: Quat): real {
    p.q0 * q.q0 + p.q1 * q.q1 + p.q2 * q.q2 + p.q3 * q.q3
  }

  /** The identity on reals; see Sq. */
  function Same(x: real): real {
    x
  }

  /** x squared. It is written x * Same(x) rather than x * x so that the solver treats
      the square as an ordinary product of two terms, which keeps its reasoning about
      squares in sums and equations consistent. */
  function Sq(x: real): real {
    x * Same(x)
  }

  function NormSq(q: Quat): real {
    Sq(q.q0) + Sq(q.q1) + Sq(q.q2) + Sq(q.q3)
  }

  function Scale3(k: real, v: Vec3): Vec3 {
    Vec3(k * v.x, k * v.y, k * v.z)
  }

  function Sub3(u: Vec3, v: Vec3): Vec3 {
    Vec3(u.x - v.x, u.y - v.y, u.z - v.z)
  }

  function Dot3(u: Vec3, v: Vec3): real {
    u.x * v.x + u.y * v.y + u.z * v.z
  }

  function NormSq3(v: Vec3): real {
    Sq(v.x) + Sq(v.y) + Sq(v.z)
  }

  /** The all-zero sentinel that marks a sensor reading as unavailable. */
  predicate IsZero3(v: Vec3) {
    v.x == 0.0 && v.y == 0.0 && v.z == 0.0
  }

  predicate IsUnit(q: Quat) {
    NormSq(q) == 1.0
  }

  predicate IsUnit3(v: Vec3) {
    NormSq3(v) == 1.0
  }

  lemma SquareNonNegative(x: real)
    ensures Sq(x) >= 0.0
  {
  }

  lemma SquarePositive(x: real)
    requires x != 0.0
    ensures Sq(x) > 0.0
  {
  }

  lemma SquareBelowOne(c: real)
    requires 0.0 <= c < 1.0
    ensures Sq(c) < 1.0
  {
    assert c * Same(c) <= c * 1.0;
  }

  /** The only non-negative square root of 1 is 1. */
  lemma UnitRoot(x: real)
    requires x >= 0.0 && Sq(x) == 1.0
    ensures x == 1.0
  {
    if x < 1.0 {
      SquareBelowOne(x);
    }
  }

  lemma NormSqNonNegative(q: Quat)
    ensures NormSq(q) >= 0.0
    ensures q != Zero ==> NormSq(q) > 0.0
  {
    SquareNonNegative(q.q0);
    SquareNonNegative(q.q1);
    SquareNonNegative(q.q2);
    SquareNonNegative(q.q3);
    if q.q0 != 0.0 { SquarePositive(q.q0); }
    else if q.q1 != 0.0 { SquarePositive(q.q1); }
    else if q.q2 != 0.0 { SquarePositive(q.q2); }
    else if q.q3 != 0.0 { SquarePositive(q.q3); }
  }

  lemma NormSq3NonNegative(v: Vec3)
    ensures NormSq3(v) >= 0.0
    ensures !IsZero3(v) ==> NormSq3(v) > 0.0
  {
    SquareNonNegative(v.x);
    SquareNonNegative(v.y);
    SquareNonNegative(v.z);
    if v.x != 0.0 { SquarePositive(v.x); }
    else if v.y != 0.0 { SquarePositive(v.y); }
    else if v.z != 0.0 { SquarePositive(v.z); }
  }

  lemma PlaneNormSq(x: real, y: real)
    ensures Sq(x) + Sq(y) >= 0.0
    ensures Sq(x) + Sq(y) == 0.0 <==> x == 0.0 && y == 0.0
  {
    SquareNonNegative(x);
    SquareNonNegative(y);
    if x != 0.0 { SquarePositive(x); }
    if y != 0.0 { SquarePositive(y); }
  }

  lemma NormSqScale(k: real, q: Quat)
    ensures NormSq(Scale(k, q)) == Sq(k) * NormSq(q)
  {
  }

  lemma NormSq3Scale(k: real, v: Vec3)
    ensures NormSq3(Scale3(k, v)) == Sq(k) * NormSq3(v)
  {
  }

  /** |p + t·d|² expands as |p|² + 2t⟨p,d⟩ + t²|d|². */
  lemma NormSqAddScaled(p: Quat, t: real, d: Quat)
    ensures NormSq(Add(p, Scale(t, d))) == NormSq(p) + 2.0 * t * Dot(p, d) + Sq(t) * NormSq(d)
  {
  }

  /** A quaternion is orthogonal to its product with any pure quaternion. */
  lemma OrthogonalToPureProduct(q: Quat, v: Vec3)
    ensures Dot(q, Mul(q, Pure(v))) == 0.0
  {
  }
}
