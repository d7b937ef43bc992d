/** The gradient-descent corrective step of the Madgwick filter: the closed-form gradients of
    the orientation-error objective (gravity only, and gravity plus magnetic field) and the
    earth-frame magnetic reference that the 9-axis objective uses. Everything here is a
    polynomial in its inputs. */
module Gradient {
  import opened Wrappers
  import opened Quaternion
  import opened RealRoots

  /** The 6-axis corrective step s0..s3 for orientation q and normalised accelerometer a,
      with the source's auxiliary products. */
  function ImuGradient(q: Quat, a: Vec3): Quat {
    var q0, q1, q2, q3 := q.q0, q.q1, q.q2, q.q3;
    var ax, ay, az := a.x, a.y, a.z;
    var twoQ0, twoQ1, twoQ2, twoQ3 := 2.0 * q0, 2.0 * q1, 2.0 * q2, 2.0 * q3;
    var fourQ0, fourQ1, fourQ2 := 4.0 * q0, 4.0 * q1, 4.0 * q2;
    var eightQ1, eightQ2 := 8.0 * q1, 8.0 * q2;
    var q0q0, q1q1, q2q2, q3q3 := q0 * q0, q1 * q1, q2 * q2, q3 * q3;
    Quat(fourQ0 * q2q2 + twoQ2 * ax + fourQ0 * q1q1 - twoQ1 * ay,
         fourQ1 * q3q3 - twoQ3 * ax + 4.0 * q0q0 * q1 - twoQ0 * ay - fourQ1 + eightQ1 * q1q1 + eightQ1 * q2q2 + fourQ1 * az,
         4.0 * q0q0 * q2 + twoQ0 * ax + fourQ2 * q3q3 - twoQ3 * ay - fourQ2 + eightQ2 * q1q1 + eightQ2 * q2q2 + fourQ2 * az,
         4.0 * q1q1 * q3 - twoQ1 * ax + 4.0 * q2q2 * q3 - twoQ2 * ay)
  }

  /** The gravity objective f_g: the gravity direction predicted by q minus the measured one. */
  function GravityError(q: Quat, a: Vec3): Vec3 {
    Vec3(2.0 * (q.q1 * q.q3) - 2.0 * q.q0 * q.q2 - a.x,
         2.0 * (q.q0 * q.q1) + 2.0 * q.q2 * q.q3 - a.y,
         1.0 - 2.0 * (q.q1 * q.q1) - 2.0 * (q.q2 * q.q2) - a.z)
  }

  /** J_gᵀ · f: the transposed Jacobian of the gravity objective applied to an error vector. */
  function GravityJacobianT(q: Quat, f: Vec3): Quat {
    Quat(-2.0 * q.q2 * f.x + 2.0 * q.q1 * f.y,
         2.0 * q.q3 * f.x + 2.0 * q.q0 * f.y - 4.0 * q.q1 * f.z,
         -2.0 * q.q0 * f.x + 2.0 * q.q3 * f.y - 4.0 * q.q2 * f.z,
         2.0 * q.q1 * f.x + 2.0 * q.q2 * f.y)
  }

  /** The field objective f_b: the earth-field reference b seen from orientation q (halved,
      as the source scales it) minus the measured field m. */
  function FieldError(q: Quat, b: FieldReference, m: Vec3): Vec3 {
    var bx, bz := b.horizontal, b.vertical;
    Vec3(bx * (0.5 - q.q2 * q.q2 - q.q3 * q.q3) + bz * (q.q1 * q.q3 - q.q0 * q.q2) - m.x,
         bx * (q.q1 * q.q2 - q.q0 * q.q3) + bz * (q.q0 * q.q1 + q.q2 * q.q3) - m.y,
         bx * (q.q0 * q.q2 + q.q1 * q.q3) + bz * (0.5 - q.q1 * q.q1 - q.q2 * q.q2) - m.z)
  }

  /** J_bᵀ · e: the transposed Jacobian of the field objective with respect to q0..q3,
      applied to an error vector. Row i holds the partial derivatives of the three
      components of f_b with respect to qi. */
  function FieldJacobianT(q: Quat, b: FieldReference, e: Vec3): Quat {
    var bx, bz := b.horizontal, b.vertical;
    Quat(- bz * q.q2 * e.x + (-bx * q.q3 + bz * q.q1) * e.y + bx * q.q2 * e.z,
         bz * q.q3 * e.x + (bx * q.q2 + bz * q.q0) * e.y + (bx * q.q3 - 2.0 * bz * q.q1) * e.z,
         (-2.0 * bx * q.q2 - bz * q.q0) * e.x + (bx * q.q1 + bz * q.q3) * e.y + (bx * q.q0 - 2.0 * bz * q.q2) * e.z,
         (-2.0 * bx * q.q3 + bz * q.q1) * e.x + (-bx * q.q0 + bz * q.q2) * e.y + bx * q.q1 * e.z)
  }

  /** The measured magnetic field m expressed in the earth frame, (hx, hy, hz), where hz is
      the value the source names _2bz. */
  function EarthFrameField(q: Quat, m: Vec3): Vec3 {
    var q0, q1, q2, q3 := q.q0, q.q1, q.q2, q.q3;
    var mx, my, mz := m.x, m.y, m.z;
    var twoQ0mx, twoQ0my, twoQ0mz, twoQ1mx := 2.0 * q0 * mx, 2.0 * q0 * my, 2.0 * q0 * mz, 2.0 * q1 * mx;
    var twoQ1, twoQ2 := 2.0 * q1, 2.0 * q2;
    var q0q0, q1q1, q2q2, q3q3 := q0 * q0, q1 * q1, q2 * q2, q3 * q3;
    Vec3(mx * q0q0 - twoQ0my * q3 + twoQ0mz * q2 + mx * q1q1 + twoQ1 * my * q2 + twoQ1 * mz * q3 - mx * q2q2 - mx * q3q3,
         twoQ0mx * q3 + my * q0q0 - twoQ0mz * q1 + twoQ1mx * q2 - my * q1q1 + my * q2q2 + twoQ2 * mz * q3 - my * q3q3,
         -twoQ0mx * q2 + twoQ0my * q1 + mz * q0q0 + twoQ1mx * q3 - mz * q1q1 + twoQ2 * my * q3 - mz * q2q2 + mz * q3q3)
  }

  /** The earth-frame magnetic reference: horizontal strength (the source's _2bx) and vertical
      strength (_2bz), with the east component eliminated. */
  datatype FieldReference = FieldReference(horizontal: real, vertical: real)

  /** The reference as the algorithm intends it: horizontal = √(hx² + hy²). */
  function EarthReference(h: Vec3, isq: real -> real): (r: FieldReference)
    requires IsInvSqrt(isq)
    ensures r.horizontal >= 0.0 && Sq(r.horizontal) == Sq(h.x) + Sq(h.y)
    ensures r.vertical == h.z
    ensures Sq(r.horizontal) + Sq(r.vertical) == NormSq3(h)
  {
    SquareNonNegative(h.x);
    SquareNonNegative(h.y);
    FieldReference(Sqrt(isq, Sq(h.x) + Sq(h.y)), h.z)
  }

  /** The reference as madgwick.js:110 writes it: horizontal = invSqrt(hx² + hy²). It is
      undefined (Infinity in the source) when the field is vertical in the earth frame. */
  function EarthReferenceAsWritten(h: Vec3, isq: real -> real): (r: Option<FieldReference>)
    requires IsInvSqrt(isq)
    ensures r.None? <==> h.x == 0.0 && h.y == 0.0
    ensures r.Some? ==> r.value.horizontal > 0.0 && Sq(r.value.horizontal) * (Sq(h.x) + Sq(h.y)) == 1.0
    ensures r.Some? ==> r.value.vertical == h.z
  {
    PlaneNormSq(h.x, h.y);
    match InvSqrt(isq, Sq(h.x) + Sq(h.y))
    case None => None
    case Some(bx) => Some(FieldReference(bx, h.z))
  }

  /** The 9-axis corrective step s0..s3 for orientation q, normalised accelerometer a,
      normalised magnetometer m and earth-field reference b, with the source's auxiliary
      products (the source's _2q0, _4bx, ... are named twoQ0, fourBx, ...). */
  function MargGradient(q: Quat, a: Vec3, m: Vec3, b: FieldReference): Quat {
    var q0, q1, q2, q3 := q.q0, q.q1, q.q2, q.q3;
    var twoBx, twoBz := b.horizontal, b.vertical;
    var fourBx, fourBz := 2.0 * twoBx, 2.0 * twoBz;
    var twoQ0, twoQ1, twoQ2, twoQ3 := 2.0 * q0, 2.0 * q1, 2.0 * q2, 2.0 * q3;
    // the gravity residuals (the three bracketed terms 2.0 * q1q3 - _2q0q2 - ax, ...) and the
    // field residuals (_2bx * (0.5 - q2q2 - q3q3) + _2bz * (q1q3 - q0q2) - mx, ...) that the
    // source writes out in every row
    var g, e := GravityError(q, a), FieldError(q, b, m);
    var gx, gy, gz := g.x, g.y, g.z;
    var fx, fy, fz := e.x, e.y, e.z;
    Quat(-twoQ2 * gx + twoQ1 * gy - twoBz * q2 * fx + (-twoBx * q3 + twoBz * q1) * fy + twoBx * q2 * fz,
         twoQ3 * gx + twoQ0 * gy - 4.0 * q1 * gz + twoBz * q3 * fx + (twoBx * q2 + twoBz * q0) * fy + (twoBx * q3 - fourBz * q1) * fz,
         -twoQ0 * gx + twoQ3 * gy - 4.0 * q2 * gz + (-fourBx * q2 - twoBz * q0) * fx + (twoBx * q1 + twoBz * q3) * fy + (twoBx * q0 - fourBz * q2) * fz,
         twoQ1 * gx + twoQ2 * gy + (-fourBx * q3 + twoBz * q1) * fx + (-twoBx * q0 + twoBz * q2) * fy + twoBx * q1 * fz)
  }

  /** The 6-axis step is exactly J_gᵀ · f_g, the gradient of the gravity objective. */
  lemma ImuGradientIsJacobianProduct(q: Quat, a: Vec3)
    ensures ImuGradient(q, a) == GravityJacobianT(q, GravityError(q, a))
  {
  }

  /** For a unit q, the gravity objective is the earth's vertical (0, 0, 1) seen from the
      sensor frame, q* ⊗ (0, 0, 0, 1) ⊗ q, minus the measured direction. */
  lemma GravityErrorIsRotation(q: Quat, a: Vec3)
    requires IsUnit(q)
    ensures GravityError(q, a) == Sub3(Rotate(Conj(q), Vec3(0.0, 0.0, 1.0)), a)
  {
    var u := Rotate(Conj(q), Vec3(0.0, 0.0, 1.0));
    assert u == Vec3(2.0 * (q.q1 * q.q3 - q.q0 * q.q2), 2.0 * (q.q0 * q.q1 + q.q2 * q.q3),
                     q.q0 * q.q0 - q.q1 * q.q1 - q.q2 * q.q2 + q.q3 * q.q3);
    assert q.q0 * q.q0 + q.q3 * q.q3 == 1.0 - q.q1 * q.q1 - q.q2 * q.q2;
  }

  /** GravityJacobianT is the transposed derivative of the gravity objective: for every
      direction d, e · (J_g d) equals the central difference of f_g along d, which is exact
      because f_g is quadratic in q. */
  lemma GravityJacobianIsDerivative(q: Quat, a: Vec3, e: Vec3, d: Quat)
    ensures Dot(GravityJacobianT(q, e), d)
         == Dot3(e, Scale3(0.5, Sub3(GravityError(Add(q, d), a), GravityError(Sub(q, d), a))))
  {
  }

  /** FieldJacobianT is the transposed derivative of the field objective, in the same sense
      as GravityJacobianIsDerivative. */
  lemma FieldJacobianIsDerivative(q: Quat, b: FieldReference, m: Vec3, e: Vec3, d: Quat)
    ensures Dot(FieldJacobianT(q, b, e), d)
         == Dot3(e, Scale3(0.5, Sub3(FieldError(Add(q, d), b, m), FieldError(Sub(q, d), b, m))))
  {
  }

  /** The 9-axis step is J_gᵀ · f_g + J_bᵀ · f_b, the gradient of the combined gravity and
      field objective. */
  lemma MargGradientIsJacobianProduct(q: Quat, a: Vec3, m: Vec3, b: FieldReference)
    ensures MargGradient(q, a, m, b)
         == Add(GravityJacobianT(q, GravityError(q, a)), FieldJacobianT(q, b, FieldError(q, b, m)))
  {
  }

  /** hx, hy and _2bz are the components of q ⊗ (0, m) ⊗ q*. */
  lemma EarthFrameFieldIsRotation(q: Quat, m: Vec3)
    ensures EarthFrameField(q, m) == Rotate(q, m)
  {
  }

  /** The gravity half of the 9-axis step is the 6-axis step: with no earth-field reference
      (both strengths zero) the two gradients coincide. */
  lemma MargGradientWithoutField(q: Quat, a: Vec3, m: Vec3)
    ensures MargGradient(q, a, m, FieldReference(0.0, 0.0)) == ImuGradient(q, a)
  {
  }

  /** The reference computed as written agrees with the intended one exactly when the
      earth-frame field is horizontal with unit magnitude in the horizontal plane; for any
      other non-vertical field the as-written magnitude is the reciprocal of the intended one. */
  lemma AsWrittenAgreesOnlyOnUnitPlane(h: Vec3, isq: real -> real)
    requires IsInvSqrt(isq) && !(h.x == 0.0 && h.y == 0.0)
    ensures EarthReferenceAsWritten(h, isq) == Some(EarthReference(h, isq)) <==> Sq(h.x) + Sq(h.y) == 1.0
  {
    var w := EarthReferenceAsWritten(h, isq).value.horizontal;
    var c := EarthReference(h, isq).horizontal;
    var s := Sq(h.x) + Sq(h.y);
    PlaneNormSq(h.x, h.y);
    if w == c {
      assert Sq(c) * s == 1.0;
      assert s * Same(s) == 1.0;
      UnitRoot(s);
    }
    if s == 1.0 {
      assert Sq(w) == 1.0;
      UnitRoot(w);
      UnitRoot(c);
    }
  }

  /** A concrete witness: for the earth-frame field (0.6, 0, 0.8), the reading a level
      sensor at the identity orientation sees for the raw field (3, 0, 4), the as-written
      horizontal reference is 5/3 where the field's horizontal magnitude is 0.6. */
  lemma AsWrittenMismatchExample(isq: real -> real)
    requires IsInvSqrt(isq)
    ensures EarthFrameField(Identity, Vec3(0.6, 0.0, 0.8)) == Vec3(0.6, 0.0, 0.8)
    ensures EarthReferenceAsWritten(Vec3(0.6, 0.0, 0.8), isq) == Some(FieldReference(5.0 / 3.0, 0.8))
    ensures EarthReference(Vec3(0.6, 0.0, 0.8), isq) == FieldReference(0.6, 0.8)
  {
    InvSqrtAt(isq, 0.36, 5.0 / 3.0);
  }
}
