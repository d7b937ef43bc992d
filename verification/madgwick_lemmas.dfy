/** Properties of the Madgwick filter model that relate several steps or pin down the
    behaviour at particular inputs. */
module MadgwickLemmas {
  import opened Wrappers
  import opened Quaternion
  import opened RealRoots
  import opened Gradient
  import opened Madgwick

  /** The feedback step per sample, beta/sampleFreq, lies in [0, 1) for a valid gain. */
  lemma FeedbackFraction(beta: real, sampleFreq: real)
    requires sampleFreq > 0.0 && 0.0 <= beta < sampleFreq
    ensures 0.0 <= (1.0 / sampleFreq) * beta < 1.0
  {
    assert (1.0 / sampleFreq) * beta == beta / sampleFreq;
  }

  /** Integration distributes over the feedback subtraction. */
  lemma IntegrateFeedback(q: Quat, k: Quat, s: Quat, beta: real, sampleFreq: real)
    requires sampleFreq > 0.0
    ensures Integrate(q, Sub(k, Scale(beta, s)), sampleFreq)
         == Sub(Integrate(q, k, sampleFreq), Scale((1.0 / sampleFreq) * beta, s))
  {
    var t := 1.0 / sampleFreq;
    assert t * (k.q0 - beta * s.q0) == t * k.q0 - (t * beta) * s.q0;
    assert t * (k.q1 - beta * s.q1) == t * k.q1 - (t * beta) * s.q1;
    assert t * (k.q2 - beta * s.q2) == t * k.q2 - (t * beta) * s.q2;
    assert t * (k.q3 - beta * s.q3) == t * k.q3 - (t * beta) * s.q3;
  }

  /** Moving a point of norm at least 1 by less than one unit vector cannot reach zero. */
  lemma ShiftedNonZero(u: Quat, s: Quat, c: real)
    requires NormSq(u) >= 1.0 && IsUnit(s) && 0.0 <= c < 1.0
    ensures Sub(u, Scale(c, s)) != Zero
  {
    if Sub(u, Scale(c, s)) == Zero {
      assert u == Scale(c, s);
      NormSqScale(c, s);
      SquareBelowOne(c);
      assert false;
    }
  }

  /** From a unit quaternion, integrating a rate of change orthogonal to it never leaves the
      closed unit ball. */
  lemma OrthogonalIntegratedNorm(q: Quat, k: Quat, sampleFreq: real)
    requires IsUnit(q) && Dot(q, k) == 0.0 && sampleFreq > 0.0
    ensures NormSq(Integrate(q, k, sampleFreq)) >= 1.0
  {
    var t := 1.0 / sampleFreq;
    NormSqAddScaled(q, t, k);
    NormSqNonNegative(k);
    SquareNonNegative(t);
  }

  /** From a unit quaternion, integrating a rate of change orthogonal to it, reduced by a
      unit feedback step scaled by beta with beta/sampleFreq < 1, never reaches zero. */
  lemma IntegratedNonZero(q: Quat, k: Quat, s: Quat, beta: real, sampleFreq: real)
    requires IsUnit(q) && Dot(q, k) == 0.0 && IsUnit(s)
    requires sampleFreq > 0.0 && 0.0 <= beta < sampleFreq
    ensures Integrate(q, Sub(k, Scale(beta, s)), sampleFreq) != Zero
  {
    FeedbackFraction(beta, sampleFreq);
    IntegrateFeedback(q, k, s, beta, sampleFreq);
    OrthogonalIntegratedNorm(q, k, sampleFreq);
    ShiftedNonZero(Integrate(q, k, sampleFreq), s, (1.0 / sampleFreq) * beta);
  }

  /** Pure gyroscope integration from a unit quaternion never reaches zero. */
  lemma KinematicNonZero(q: Quat, g: Vec3, sampleFreq: real)
    requires IsUnit(q) && sampleFreq > 0.0
    ensures Integrate(q, GyroDerivative(q, g), sampleFreq) != Zero
  {
    OrthogonalIntegratedNorm(q, GyroDerivative(q, g), sampleFreq);
    NormSqNonNegative(Zero);
  }

  /** Advancing a valid filter by the gyroscope rate, optionally with feedback, succeeds and
      keeps the filter valid. */
  lemma AdvanceFromValid(f: Filter, g: Vec3, beta: real, step: Quat, isq: real -> real)
    requires IsInvSqrt(isq) && Valid(f) && beta == f.beta
    requires ApplyFeedback(GyroDerivative(f.q, g), beta, step, isq).Success?
    ensures Advance(f, ApplyFeedback(GyroDerivative(f.q, g), beta, step, isq).value, isq).Success?
  {
    var k := GyroDerivative(f.q, g);
    var d := ApplyFeedback(k, beta, step, isq).value;
    var s :| IsUnit(s) && SameDirection(s, step) && d == Sub(k, Scale(beta, s));
    IntegratedNonZero(f.q, k, s, beta, f.sampleFreq);
  }

  /** From a valid filter, `updateIMU` fails exactly when the gradient step vanishes, always
      at the step normalisation (madgwick.js:272), and otherwise yields a valid filter. */
  lemma UpdateIMUFromValid(f: Filter, g: Vec3, a: Vec3, isq: real -> real)
    requires IsInvSqrt(isq) && Valid(f)
    ensures UpdateIMU(f, g, a, isq).Success? ==> Valid(UpdateIMU(f, g, a, isq).value)
    ensures UpdateIMU(f, g, a, isq).Failure? <==> StepVanishes(f, a, Vec3(0.0, 0.0, 0.0), isq)
    ensures UpdateIMU(f, g, a, isq).Failure? ==> UpdateIMU(f, g, a, isq).error == StepNorm
  {
    var k := GyroDerivative(f.q, g);
    if IsZero3(a) {
      KinematicNonZero(f.q, g, f.sampleFreq);
    } else {
      var an := Normalise3(a, isq, AccelNorm).value;
      var step := ImuGradient(f.q, an);
      if step != Zero {
        AdvanceFromValid(f, g, f.beta, step, isq);
      }
    }
  }

  /** A successful 9-axis step is the gradient-descent correction along the 9-axis step. */
  lemma MargStepCorrects(f: Filter, qDot: Quat, an: Vec3, mn: Vec3, b: FieldReference, isq: real -> real)
    requires IsInvSqrt(isq) && f.sampleFreq > 0.0
    ensures MargStep(f, qDot, an, mn, b, isq).Success?
        ==> CorrectedAlong(f, qDot, MargGradient(f.q, an, mn, b), MargStep(f, qDot, an, mn, b, isq).value.filter.q)
  {
    var step := MargGradient(f.q, an, mn, b);
    match ApplyFeedback(qDot, f.beta, step, isq)
    case Failure(_) =>
    case Success(d) =>
      var s :| IsUnit(s) && SameDirection(s, step) && d == Sub(qDot, Scale(f.beta, s));
      var r := Advance(f, d, isq);
      if r.Success? {
        assert SameDirection(r.value.q, Integrate(f.q, Sub(qDot, Scale(f.beta, s)), f.sampleFreq));
      }
  }

  /** A successful `updateIMU` with an accelerometer reading is the gradient-descent
      correction along the 6-axis step of the normalised reading. */
  lemma UpdateIMUCorrects(f: Filter, g: Vec3, a: Vec3, isq: real -> real)
    requires IsInvSqrt(isq) && f.sampleFreq > 0.0
    ensures !IsZero3(a) && UpdateIMU(f, g, a, isq).Success?
        ==> CorrectedAlong(f, GyroDerivative(f.q, g), ImuGradient(f.q, Normalise3(a, isq, AccelNorm).value),
                           UpdateIMU(f, g, a, isq).value.q)
  {
    if !IsZero3(a) {
      var qDot := GyroDerivative(f.q, g);
      var step := ImuGradient(f.q, Normalise3(a, isq, AccelNorm).value);
      match ApplyFeedback(qDot, f.beta, step, isq)
      case Failure(_) =>
      case Success(d) =>
        var s :| IsUnit(s) && SameDirection(s, step) && d == Sub(qDot, Scale(f.beta, s));
        var r := Advance(f, d, isq);
        if r.Success? {
          assert SameDirection(r.value.q, Integrate(f.q, Sub(qDot, Scale(f.beta, s)), f.sampleFreq));
        }
    }
  }

  /** A successful `update` as written with both readings is the gradient-descent correction
      along the 9-axis step, taken with the earth-field reference of madgwick.js:110. */
  lemma UpdateCorrects(f: Filter, g: Vec3, a: Vec3, m: Vec3, isq: real -> real)
    requires IsInvSqrt(isq) && f.sampleFreq > 0.0
    ensures !IsZero3(a) && !IsZero3(m) && Update(f, g, a, m, isq).Success?
        ==> var an, mn := Normalise3(a, isq, AccelNorm).value, Normalise3(m, isq, MagNorm).value;
            var b := EarthReferenceAsWritten(EarthFrameField(f.q, mn), isq);
            b.Some? && CorrectedAlong(f, GyroDerivative(f.q, g), MargGradient(f.q, an, mn, b.value),
                                      Update(f, g, a, m, isq).value.filter.q)
  {
    if !IsZero3(a) && !IsZero3(m) {
      var an, mn := Normalise3(a, isq, AccelNorm).value, Normalise3(m, isq, MagNorm).value;
      var b := EarthReferenceAsWritten(EarthFrameField(f.q, mn), isq);
      if b.Some? {
        MargStepCorrects(f, GyroDerivative(f.q, g), an, mn, b.value, isq);
      }
    }
  }

  /** A successful intended `update` with both readings is the gradient-descent correction
      along the 9-axis step, taken with the √ earth-field reference. */
  lemma UpdateIntendedCorrects(f: Filter, g: Vec3, a: Vec3, m: Vec3, isq: real -> real)
    requires IsInvSqrt(isq) && f.sampleFreq > 0.0
    ensures !IsZero3(a) && !IsZero3(m) && UpdateIntended(f, g, a, m, isq).Success?
        ==> var an, mn := Normalise3(a, isq, AccelNorm).value, Normalise3(m, isq, MagNorm).value;
            CorrectedAlong(f, GyroDerivative(f.q, g), MargGradient(f.q, an, mn, EarthReference(EarthFrameField(f.q, mn), isq)),
                           UpdateIntended(f, g, a, m, isq).value.filter.q)
  {
    if !IsZero3(a) && !IsZero3(m) {
      var an, mn := Normalise3(a, isq, AccelNorm).value, Normalise3(m, isq, MagNorm).value;
      MargStepCorrects(f, GyroDerivative(f.q, g), an, mn, EarthReference(EarthFrameField(f.q, mn), isq), isq);
    }
  }

  /** From a valid filter, `update` as written yields a valid filter, or fails either at the
      earth-field reference (madgwick.js:110), exactly when the earth-frame field is vertical,
      or at the step normalisation (madgwick.js:166, 272), exactly when the gradient step
      vanishes. */
  lemma UpdateFromValid(f: Filter, g: Vec3, a: Vec3, m: Vec3, isq: real -> real)
    requires IsInvSqrt(isq) && Valid(f)
    ensures Update(f, g, a, m, isq).Success? ==> Valid(Update(f, g, a, m, isq).value.filter)
    ensures Update(f, g, a, m, isq).Failure? <==> FieldVertical(f, a, m, isq) || StepVanishes(f, a, m, isq)
    ensures Update(f, g, a, m, isq).Failure? ==> (Update(f, g, a, m, isq).error == FieldRef <==> FieldVertical(f, a, m, isq))
    ensures Update(f, g, a, m, isq).Failure? ==> Update(f, g, a, m, isq).error == FieldRef || Update(f, g, a, m, isq).error == StepNorm
  {
    if IsZero3(m) {
      UpdateIMUFromValid(f, g, a, isq);
      assert m == Vec3(0.0, 0.0, 0.0);
    } else if IsZero3(a) {
      KinematicNonZero(f.q, g, f.sampleFreq);
    } else {
      var an := Normalise3(a, isq, AccelNorm).value;
      var mn := Normalise3(m, isq, MagNorm).value;
      var h := EarthFrameField(f.q, mn);
      if !(h.x == 0.0 && h.y == 0.0) {
        var step := MargGradient(f.q, an, mn, EarthReferenceAsWritten(h, isq).value);
        if step != Zero {
          AdvanceFromValid(f, g, f.beta, step, isq);
        }
      }
    }
  }

  /** From a valid filter, the intended `update` fails exactly when its gradient step
      vanishes, always at the step normalisation, and otherwise yields a valid filter. */
  lemma UpdateIntendedFromValid(f: Filter, g: Vec3, a: Vec3, m: Vec3, isq: real -> real)
    requires IsInvSqrt(isq) && Valid(f)
    ensures UpdateIntended(f, g, a, m, isq).Success? ==> Valid(UpdateIntended(f, g, a, m, isq).value.filter)
    ensures UpdateIntended(f, g, a, m, isq).Failure? <==> StepVanishesIntended(f, a, m, isq)
    ensures UpdateIntended(f, g, a, m, isq).Failure? ==> UpdateIntended(f, g, a, m, isq).error == StepNorm
  {
    if IsZero3(m) {
      UpdateIMUFromValid(f, g, a, isq);
      assert m == Vec3(0.0, 0.0, 0.0);
    } else if IsZero3(a) {
      KinematicNonZero(f.q, g, f.sampleFreq);
    } else {
      var an := Normalise3(a, isq, AccelNorm).value;
      var mn := Normalise3(m, isq, MagNorm).value;
      var step := MargGradient(f.q, an, mn, EarthReference(EarthFrameField(f.q, mn), isq));
      if step != Zero {
        AdvanceFromValid(f, g, f.beta, step, isq);
      }
    }
  }

  /** A run of updates from a valid filter stays valid, and can only stop at the earth-field
      reference or at a vanishing gradient step. */
  lemma {:induction false} RunFromValid(f: Filter, samples: seq<Sample>, isq: real -> real)
    requires IsInvSqrt(isq) && Valid(f)
    ensures Run(f, samples, isq).Success? ==> Valid(Run(f, samples, isq).value)
    ensures Run(f, samples, isq).Failure? ==> Run(f, samples, isq).error == FieldRef || Run(f, samples, isq).error == StepNorm
    decreases |samples|
  {
    if |samples| > 0 {
      var s := samples[0];
      UpdateFromValid(f, s.g, s.a, s.m, isq);
      match Update(f, s.g, s.a, s.m, isq)
      case Failure(_) =>
      case Success(o) => RunFromValid(o.filter, samples[1..], isq);
    }
  }

  /** With the accelerometer reading zero in every sample, a run of updates is exactly the
      closed-form kinematic recurrence on the gyroscope readings. */
  lemma {:induction false} RunWithoutAccelIsKinematic(f: Filter, samples: seq<Sample>, isq: real -> real)
    requires IsInvSqrt(isq) && f.sampleFreq > 0.0
    requires forall i :: 0 <= i < |samples| ==> IsZero3(samples[i].a)
    ensures Run(f, samples, isq) == KinematicRun(f, Gyros(samples), isq)
    decreases |samples|
  {
    if |samples| > 0 {
      var s := samples[0];
      assert Gyros(samples)[0] == s.g;
      assert Gyros(samples)[1..] == Gyros(samples[1..]);
      match KinematicStep(f, s.g, isq)
      case Failure(_) =>
      case Success(f') => RunWithoutAccelIsKinematic(f', samples[1..], isq);
    }
  }

  /** At rest (zero rate, no accelerometer reading) a unit quaternion is a fixed point. */
  lemma ZeroRateIsFixedPoint(f: Filter, isq: real -> real)
    requires IsInvSqrt(isq) && f.sampleFreq > 0.0 && IsUnit(f.q)
    ensures UpdateIMU(f, Vec3(0.0, 0.0, 0.0), Vec3(0.0, 0.0, 0.0), isq) == Success(f)
  {
    InvSqrtAt(isq, 1.0, 1.0);
    assert Integrate(f.q, GyroDerivative(f.q, Vec3(0.0, 0.0, 0.0)), f.sampleFreq) == f.q;
  }

  /** At the identity orientation the 6-axis step is (0, -2·ay, 2·ax, 0). */
  lemma ImuGradientAtIdentity(a: Vec3)
    ensures ImuGradient(Identity, a) == Quat(0.0, -2.0 * a.y, 2.0 * a.x, 0.0)
  {
  }

  /** Precondition gap at madgwick.js:272: at the identity orientation, `updateIMU` hands 0 to
      invSqrt whenever the accelerometer reading is non-zero and purely vertical, such as
      gravity (0, 0, c) for a sensor at rest, upright, whatever the gain. StepVanishesAtIdentity
      together with UpdateIMUFromValid shows these are the only readings that do so. */
  lemma UpdateIMUGapAtIdentity(f: Filter, g: Vec3, a: Vec3, isq: real -> real)
    requires IsInvSqrt(isq) && f.q == Identity && f.sampleFreq > 0.0
    requires a.x == 0.0 && a.y == 0.0 && a.z != 0.0
    ensures UpdateIMU(f, g, a, isq) == Failure(StepNorm)
  {
    var an := Normalise3(a, isq, AccelNorm).value;
    var k :| k > 0.0 && an == Scale3(k, a);
    VerticalAtIdentity(an);
  }

  /** At the identity orientation the 6-axis step vanishes exactly for a non-zero vertical
      reading; a zero reading skips the correction altogether. */
  lemma StepVanishesAtIdentity(f: Filter, a: Vec3, isq: real -> real)
    requires IsInvSqrt(isq) && f.q == Identity
    ensures StepVanishes(f, a, Vec3(0.0, 0.0, 0.0), isq) <==> a.x == 0.0 && a.y == 0.0 && a.z != 0.0
  {
    if !IsZero3(a) {
      VanishesAtIdentity(f, a, isq);
    }
  }

  /** At the identity orientation, the gradient step for a non-zero reading vanishes exactly
      when the reading is vertical. */
  lemma VanishesAtIdentity(f: Filter, a: Vec3, isq: real -> real)
    requires IsInvSqrt(isq) && f.q == Identity && !IsZero3(a)
    ensures StepVanishes(f, a, Vec3(0.0, 0.0, 0.0), isq) <==> a.x == 0.0 && a.y == 0.0
  {
    var an := Normalise3(a, isq, AccelNorm).value;
    var k :| k > 0.0 && an == Scale3(k, a);
    VerticalAtIdentity(an);
    assert an.x == 0.0 <==> a.x == 0.0;
    assert an.y == 0.0 <==> a.y == 0.0;
  }

  /** At the identity orientation the 6-axis step vanishes exactly for a vertical reading. */
  lemma VerticalAtIdentity(an: Vec3)
    ensures ImuGradient(Identity, an) == Zero <==> an.x == 0.0 && an.y == 0.0
  {
    ImuGradientAtIdentity(an);
  }

  /** The very first `update` of a new filter with a purely vertical accelerometer reading
      and no magnetometer reading poisons the state. */
  lemma NewFilterFirstStepGap(g: Vec3, c: real, isq: real -> real)
    requires IsInvSqrt(isq) && c != 0.0
    ensures Update(NewFilter(), g, Vec3(0.0, 0.0, c), Vec3(0.0, 0.0, 0.0), isq) == Failure(StepNorm)
  {
    var f := NewFilter();
    assert f.sampleFreq > 0.0 && f.q == Identity;
    UpdateIMUGapAtIdentity(f, g, Vec3(0.0, 0.0, c), isq);
  }

  /** Precondition gap at madgwick.js:166: at the identity orientation, a vertical
      accelerometer reading with a magnetometer reading along x makes the 9-axis step vanish. */
  lemma UpdateGapAtIdentity(f: Filter, g: Vec3, c: real, d: real, isq: real -> real)
    requires IsInvSqrt(isq) && f.sampleFreq > 0.0 && f.q == Identity
    requires c != 0.0 && d != 0.0
    ensures Update(f, g, Vec3(0.0, 0.0, c), Vec3(d, 0.0, 0.0), isq) == Failure(StepNorm)
  {
    var a, m := Vec3(0.0, 0.0, c), Vec3(d, 0.0, 0.0);
    var an := Normalise3(a, isq, AccelNorm).value;
    var mn := Normalise3(m, isq, MagNorm).value;
    var ka :| ka > 0.0 && an == Scale3(ka, a);
    var km :| km > 0.0 && mn == Scale3(km, m);
    assert an.x == 0.0 && an.y == 0.0;
    assert mn.y == 0.0 && mn.z == 0.0;
    var b := EarthReferenceAsWritten(EarthFrameField(Identity, mn), isq).value;
    assert MargGradient(Identity, an, mn, b) == Zero;
  }

  /** Precondition gap at madgwick.js:110: at the identity orientation, a non-zero
      accelerometer reading with a purely vertical magnetometer reading hands 0 to invSqrt
      when the horizontal earth-field reference is formed. */
  lemma FieldRefGapAtIdentity(f: Filter, g: Vec3, a: Vec3, d: real, isq: real -> real)
    requires IsInvSqrt(isq) && f.sampleFreq > 0.0 && f.q == Identity
    requires !IsZero3(a) && d != 0.0
    ensures Update(f, g, a, Vec3(0.0, 0.0, d), isq) == Failure(FieldRef)
  {
    var m := Vec3(0.0, 0.0, d);
    var mn := Normalise3(m, isq, MagNorm).value;
    var km :| km > 0.0 && mn == Scale3(km, m);
    assert mn.x == 0.0 && mn.y == 0.0;
    assert EarthFrameField(Identity, mn) == mn;
  }

  /** The 9-axis steps at the identity orientation for gravity (0, 0, 1) and the field
      (0.6, 0, 0.8) that lies along the reference: the intended reference makes the step
      vanish, the one madgwick.js:110 computes does not. */
  lemma WitnessSteps()
    ensures MargGradient(Identity, Vec3(0.0, 0.0, 1.0), Vec3(0.6, 0.0, 0.8), FieldReference(0.6, 0.8)) == Zero
    ensures MargGradient(Identity, Vec3(0.0, 0.0, 1.0), Vec3(0.6, 0.0, 0.8), FieldReference(5.0 / 3.0, 0.8)) != Zero
  {
  }

  /** The normalised gravity reading (0, 0, 1) is itself. */
  lemma WitnessAccel(isq: real -> real)
    requires IsInvSqrt(isq)
    ensures Normalise3(Vec3(0.0, 0.0, 1.0), isq, AccelNorm) == Success(Vec3(0.0, 0.0, 1.0))
  {
    InvSqrtAt(isq, 1.0, 1.0);
    assert NormSq3(Vec3(0.0, 0.0, 1.0)) == 1.0;
  }

  /** The normalised field reading (3, 0, 4) is (0.6, 0, 0.8). */
  lemma WitnessField(isq: real -> real)
    requires IsInvSqrt(isq)
    ensures Normalise3(Vec3(3.0, 0.0, 4.0), isq, MagNorm) == Success(Vec3(0.6, 0.0, 0.8))
  {
    assert NormSq3(Vec3(3.0, 0.0, 4.0)) == 25.0;
    InvSqrtAt(isq, 25.0, 0.2);
  }

  /** At the identity orientation, for gravity (0, 0, 1) and the field (3, 0, 4), the
      update as written succeeds from a valid filter. */
  lemma WitnessUpdateSucceeds(f: Filter, g: Vec3, isq: real -> real)
    requires IsInvSqrt(isq) && f.q == Identity
    requires f.sampleFreq > 0.0 && 0.0 <= f.beta < f.sampleFreq
    ensures Update(f, g, Vec3(0.0, 0.0, 1.0), Vec3(3.0, 0.0, 4.0), isq).Success?
  {
    var a, m := Vec3(0.0, 0.0, 1.0), Vec3(3.0, 0.0, 4.0);
    WitnessNotVertical(f, isq);
    WitnessStepNonZero(f, isq);
    SucceedsUnlessVanishing(f, g, a, m, isq);
  }

  /** From a valid filter, update as written succeeds whenever neither the earth-frame field
      is vertical nor the as-written step vanishes. */
  lemma SucceedsUnlessVanishing(f: Filter, g: Vec3, a: Vec3, m: Vec3, isq: real -> real)
    requires IsInvSqrt(isq) && Valid(f)
    requires !FieldVertical(f, a, m, isq) && !StepVanishes(f, a, m, isq)
    ensures Update(f, g, a, m, isq).Success?
  {
    UpdateFromValid(f, g, a, m, isq);
  }

  /** At the identity orientation the field (3, 0, 4) is not vertical, so the as-written
      earth-field reference exists. */
  lemma WitnessNotVertical(f: Filter, isq: real -> real)
    requires IsInvSqrt(isq) && f.q == Identity
    ensures !FieldVertical(f, Vec3(0.0, 0.0, 1.0), Vec3(3.0, 0.0, 4.0), isq)
  {
    WitnessField(isq);
    AsWrittenMismatchExample(isq);
  }

  /** At the identity orientation, for gravity (0, 0, 1) and the field (3, 0, 4), the
      as-written 9-axis step does not vanish. */
  lemma WitnessStepNonZero(f: Filter, isq: real -> real)
    requires IsInvSqrt(isq) && f.q == Identity
    ensures !StepVanishes(f, Vec3(0.0, 0.0, 1.0), Vec3(3.0, 0.0, 4.0), isq)
  {
    var an, mn := Vec3(0.0, 0.0, 1.0), Vec3(0.6, 0.0, 0.8);
    var b := FieldReference(5.0 / 3.0, 0.8);
    assert EarthReferenceAsWritten(EarthFrameField(f.q, mn), isq) == Some(b) by {
      AsWrittenMismatchExample(isq);
    }
    assert MargGradient(f.q, an, mn, b) != Zero by {
      WitnessSteps();
    }
    WitnessAccel(isq);
    WitnessField(isq);
    StepVanishesOnceNormalised(f, Vec3(0.0, 0.0, 1.0), Vec3(3.0, 0.0, 4.0), an, mn, b, isq);
  }

  /** Once both readings are normalised and the as-written reference is formed, the
      as-written step vanishes exactly when the 9-axis gradient does. */
  lemma StepVanishesOnceNormalised(f: Filter, a: Vec3, m: Vec3, an: Vec3, mn: Vec3, b: FieldReference, isq: real -> real)
    requires IsInvSqrt(isq)
    requires Normalise3(a, isq, AccelNorm) == Success(an) && Normalise3(m, isq, MagNorm) == Success(mn)
    requires EarthReferenceAsWritten(EarthFrameField(f.q, mn), isq) == Some(b)
    ensures StepVanishes(f, a, m, isq) <==> MargGradient(f.q, an, mn, b) == Zero
  {
  }

  /** At the identity orientation, for gravity (0, 0, 1) and the field (3, 0, 4), the
      intended update hands 0 to invSqrt at the step normalisation. */
  lemma WitnessIntendedFails(f: Filter, g: Vec3, isq: real -> real)
    requires IsInvSqrt(isq) && f.q == Identity && f.sampleFreq > 0.0
    ensures UpdateIntended(f, g, Vec3(0.0, 0.0, 1.0), Vec3(3.0, 0.0, 4.0), isq) == Failure(StepNorm)
  {
    var a, m := Vec3(0.0, 0.0, 1.0), Vec3(3.0, 0.0, 4.0);
    assert StepVanishesIntended(f, a, m, isq) by {
      var an, mn := Vec3(0.0, 0.0, 1.0), Vec3(0.6, 0.0, 0.8);
      WitnessAccel(isq);
      WitnessField(isq);
      AsWrittenMismatchExample(isq);
      WitnessSteps();
      assert MargGradient(f.q, an, mn, EarthReference(EarthFrameField(f.q, mn), isq)) == Zero;
    }
    IntendedVanishingFails(f, g, a, m, isq);
  }

  /** Whenever the intended 9-axis step vanishes, the intended update hands 0 to invSqrt at
      the step normalisation, whatever the gain. */
  lemma IntendedVanishingFails(f: Filter, g: Vec3, a: Vec3, m: Vec3, isq: real -> real)
    requires IsInvSqrt(isq) && f.sampleFreq > 0.0
    requires !IsZero3(m) && StepVanishesIntended(f, a, m, isq)
    ensures UpdateIntended(f, g, a, m, isq) == Failure(StepNorm)
  {
  }
}
