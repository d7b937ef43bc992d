/** The Madgwick orientation filter (madgwick.js) as pure step functions on an immutable
    filter value.

    Each call of `update`/`updateIMU` computes the gyroscope rate of change ½·q⊗(0,g),
    optionally subtracts beta times the normalised gradient step, integrates with step
    1/sampleFreq and renormalises. Every invSqrt call goes through RealRoots.InvSqrt; when
    one receives a non-positive argument the source fills the quaternion with NaN, which the
    model reports as Failure(site) naming that call. */
module Madgwick {
  import opened Wrappers
  import opened Quaternion
  import opened RealRoots
  import opened Gradient

  /** Sample frequency in Hz set by the constructor. */
  const DefaultSampleFreq: real := 80000.0

  /** Default gain (2 · proportional gain) set by the constructor. */
  const BetaDef: real := 0.02

  /** The filter: orientation of the sensor frame relative to the earth frame, the gain and
      the sample frequency. */
  datatype Filter = Filter(q: Quat, beta: real, sampleFreq: real)

  /** The invSqrt call that received a non-positive argument. */
  datatype Site =
    | AccelNorm   // normalising the accelerometer reading (madgwick.js:58, 227)
    | MagNorm     // normalising the magnetometer reading (madgwick.js:64)
    | FieldRef    // the horizontal earth-field reference (madgwick.js:110)
    | StepNorm    // normalising the gradient step (madgwick.js:166, 272)
    | QuatNorm    // renormalising the integrated quaternion (madgwick.js:186, 292)

  /** What `update` leaves behind: the new filter, and the quaternion it returns (none when it
      delegated to `updateIMU`). */
  datatype Outcome = Outcome(filter: Filter, returned: Option<Quat>)

  /** A filter whose step size and gain keep every renormalisation well defined: positive
      sample frequency, gain in [0, sampleFreq) and a unit quaternion. */
  predicate Valid(f: Filter) {
    f.sampleFreq > 0.0 && 0.0 <= f.beta < f.sampleFreq && IsUnit(f.q)
  }

  /** The filter as the constructor leaves it. */
  function NewFilter(): (f: Filter)
    ensures Valid(f)
    ensures f.q == Identity && f.beta == BetaDef && f.sampleFreq == DefaultSampleFreq
  {
    Filter(Identity, BetaDef, DefaultSampleFreq)
  }

  /** Rate of change of the quaternion from the gyroscope, component by component as the
      source writes it (qDot1..qDot4). */
  function GyroDerivative(q: Quat, g: Vec3): (d: Quat)
    ensures d == Scale(0.5, Mul(q, Pure(g)))
    ensures Dot(q, d) == 0.0
  {
    OrthogonalToPureProduct(q, g);
    Quat(0.5 * (-q.q1 * g.x - q.q2 * g.y - q.q3 * g.z),
         0.5 * (q.q0 * g.x + q.q2 * g.z - q.q3 * g.y),
         0.5 * (q.q0 * g.y - q.q1 * g.z + q.q3 * g.x),
         0.5 * (q.q0 * g.z + q.q1 * g.y - q.q2 * g.x))
  }

  /** A positive multiple of v. */
  ghost predicate SameDirection(w: Quat, v: Quat) {
    exists k :: k > 0.0 && w == Scale(k, v)
  }

  /** Multiply every component by invSqrt of the sum of squares. */
  function Normalise(v: Quat, isq: real -> real, site: Site): (r: Result<Quat, Site>)
    requires IsInvSqrt(isq)
    ensures r.Success? <==> v != Zero
    ensures r.Failure? ==> r.error == site
    ensures r.Success? ==> IsUnit(r.value) && SameDirection(r.value, v)
  {
    NormSqNonNegative(v);
    match InvSqrt(isq, NormSq(v))
    case None => Failure(site)
    case Some(k) =>
      NormSqScale(k, v);
      // names k as the witness of the existential in the ensures
      assert k > 0.0 && Scale(k, v) == Scale(k, v);
      Success(Scale(k, v))
  }

  /** Normalise a sensor reading (accelerometer or magnetometer). */
  function Normalise3(v: Vec3, isq: real -> real, site: Site): (r: Result<Vec3, Site>)
    requires IsInvSqrt(isq)
    ensures r.Success? <==> !IsZero3(v)
    ensures r.Failure? ==> r.error == site
    ensures r.Success? ==> IsUnit3(r.value) && exists k :: k > 0.0 && r.value == Scale3(k, v)
  {
    NormSq3NonNegative(v);
    match InvSqrt(isq, NormSq3(v))
    case None => Failure(site)
    case Some(k) =>
      NormSq3Scale(k, v);
      // names k as the witness of the existential in the ensures
      assert k > 0.0 && Scale3(k, v) == Scale3(k, v);
      Success(Scale3(k, v))
  }

  /** Normalise the gradient step and subtract beta times it from the rate of change. */
  function ApplyFeedback(qDot: Quat, beta: real, step: Quat, isq: real -> real): (r: Result<Quat, Site>)
    requires IsInvSqrt(isq)
    ensures r.Success? <==> step != Zero
    ensures r.Failure? ==> r.error == StepNorm
    ensures r.Success? ==> exists s :: IsUnit(s) && SameDirection(s, step) && r.value == Sub(qDot, Scale(beta, s))
    ensures r.Success? && beta == 0.0 ==> r.value == qDot
  {
    match Normalise(step, isq, StepNorm)
    case Failure(e) => Failure(e)
    case Success(s) => Success(Sub(qDot, Scale(beta, s)))
  }

  /** Integrate the rate of change over one sample period 1/sampleFreq. */
  function Integrate(q: Quat, qDot: Quat, sampleFreq: real): (r: Quat)
    requires sampleFreq > 0.0
    ensures r == q <==> qDot == Zero
  {
    assert (1.0 / sampleFreq) != 0.0;
    Add(q, Scale(1.0 / sampleFreq, qDot))
  }

  /** Integrate and renormalise; gain and sample frequency are untouched. */
  function Advance(f: Filter, qDot: Quat, isq: real -> real): (r: Result<Filter, Site>)
    requires IsInvSqrt(isq) && f.sampleFreq > 0.0
    ensures r.Success? <==> Integrate(f.q, qDot, f.sampleFreq) != Zero
    ensures r.Failure? ==> r.error == QuatNorm
    ensures r.Success? ==> IsUnit(r.value.q) && SameDirection(r.value.q, Integrate(f.q, qDot, f.sampleFreq))
    ensures r.Success? ==> r.value.beta == f.beta && r.value.sampleFreq == f.sampleFreq
  {
    match Normalise(Integrate(f.q, qDot, f.sampleFreq), isq, QuatNorm)
    case Failure(e) => Failure(e)
    case Success(q) => Success(f.(q := q))
  }

  /** The gradient-descent correction: next is the renormalised integration of
      qDot − beta·s for a unit s along the step. */
  ghost predicate CorrectedAlong(f: Filter, qDot: Quat, step: Quat, next: Quat)
    requires f.sampleFreq > 0.0
  {
    exists s :: IsUnit(s) && SameDirection(s, step)
      && SameDirection(next, Integrate(f.q, Sub(qDot, Scale(f.beta, s)), f.sampleFreq))
  }

  /** Reference recurrence for pure gyroscope integration:
      q ← normalise(q + (1/sampleFreq)·½·q⊗(0,g)). */
  function KinematicStep(f: Filter, g: Vec3, isq: real -> real): (r: Result<Filter, Site>)
    requires IsInvSqrt(isq) && f.sampleFreq > 0.0
    ensures r.Success? ==> IsUnit(r.value.q) && r.value.beta == f.beta && r.value.sampleFreq == f.sampleFreq
    ensures r.Failure? ==> r.error == QuatNorm
  {
    match Normalise(Add(f.q, Scale(1.0 / f.sampleFreq, Scale(0.5, Mul(f.q, Pure(g))))), isq, QuatNorm)
    case Failure(e) => Failure(e)
    case Success(q) => Success(f.(q := q))
  }

  /** `updateIMU`: the 6-axis step (gyroscope and accelerometer). */
  function UpdateIMU(f: Filter, g: Vec3, a: Vec3, isq: real -> real): (r: Result<Filter, Site>)
    requires IsInvSqrt(isq) && f.sampleFreq > 0.0
    ensures r.Success? ==> IsUnit(r.value.q) && r.value.beta == f.beta && r.value.sampleFreq == f.sampleFreq
    ensures r.Failure? ==> r.error == StepNorm || r.error == QuatNorm
    ensures IsZero3(a) ==> r == KinematicStep(f, g, isq)
    ensures f.beta == 0.0 ==> r == KinematicStep(f, g, isq) || r == Failure(StepNorm)
  {
    var qDot := GyroDerivative(f.q, g);
    if IsZero3(a) then Advance(f, qDot, isq)
    else
      match Normalise3(a, isq, AccelNorm)
      case Failure(e) => Failure(e)
      case Success(an) =>
        match ApplyFeedback(qDot, f.beta, ImuGradient(f.q, an), isq)
        case Failure(e) => Failure(e)
        case Success(d) => Advance(f, d, isq)
  }

  /** The filter part of an update's result. */
  function FilterOf(r: Result<Outcome, Site>): Result<Filter, Site> {
    match r
    case Failure(e) => Failure(e)
    case Success(o) => Success(o.filter)
  }

  /** The result of delegating to `updateIMU`, which returns nothing. */
  function Silent(r: Result<Filter, Site>): Result<Outcome, Site> {
    match r
    case Failure(e) => Failure(e)
    case Success(f) => Success(Outcome(f, None))
  }

  /** The result of a step that returns the new quaternion. */
  function Returning(r: Result<Filter, Site>): Result<Outcome, Site> {
    match r
    case Failure(e) => Failure(e)
    case Success(f) => Success(Outcome(f, Some(f.q)))
  }

  /** The 9-axis feedback and integration once both readings are normalised and the
      earth-field reference b is known. */
  function MargStep(f: Filter, qDot: Quat, an: Vec3, mn: Vec3, b: FieldReference, isq: real -> real): (r: Result<Outcome, Site>)
    requires IsInvSqrt(isq) && f.sampleFreq > 0.0
    ensures r.Success? ==> IsUnit(r.value.filter.q) && r.value.returned == Some(r.value.filter.q)
    ensures r.Success? ==> r.value.filter.beta == f.beta && r.value.filter.sampleFreq == f.sampleFreq
    ensures r.Failure? ==> r.error == StepNorm || r.error == QuatNorm
    ensures f.beta == 0.0 ==> FilterOf(r) == Advance(f, qDot, isq) || r == Failure(StepNorm)
  {
    match ApplyFeedback(qDot, f.beta, MargGradient(f.q, an, mn, b), isq)
    case Failure(e) => Failure(e)
    case Success(d) => Returning(Advance(f, d, isq))
  }

  /** `update` as written: the 9-axis step (gyroscope, accelerometer, magnetometer) with its
      two fallbacks, the horizontal earth-field reference computed with invSqrt as at
      madgwick.js:110 (see Gradient.EarthReferenceAsWritten). */
  function Update(f: Filter, g: Vec3, a: Vec3, m: Vec3, isq: real -> real): (r: Result<Outcome, Site>)
    requires IsInvSqrt(isq) && f.sampleFreq > 0.0
    ensures r.Success? ==> IsUnit(r.value.filter.q)
    ensures r.Success? ==> r.value.filter.beta == f.beta && r.value.filter.sampleFreq == f.sampleFreq
    ensures r.Success? ==> (r.value.returned.None? <==> IsZero3(m))
    ensures r.Success? && r.value.returned.Some? ==> r.value.returned.value == r.value.filter.q
    ensures r.Failure? ==> r.error == FieldRef || r.error == StepNorm || r.error == QuatNorm
    ensures IsZero3(m) ==> r == Silent(UpdateIMU(f, g, a, isq))
    ensures IsZero3(a) ==> FilterOf(r) == KinematicStep(f, g, isq)
    ensures f.beta == 0.0 ==> FilterOf(r) == KinematicStep(f, g, isq) || r == Failure(StepNorm) || r == Failure(FieldRef)
  {
    if IsZero3(m) then Silent(UpdateIMU(f, g, a, isq))
    else
      var qDot := GyroDerivative(f.q, g);
      if IsZero3(a) then Returning(Advance(f, qDot, isq))
      else
        match Normalise3(a, isq, AccelNorm)
        case Failure(e) => Failure(e)
        case Success(an) =>
          match Normalise3(m, isq, MagNorm)
          case Failure(e) => Failure(e)
          case Success(mn) =>
            match EarthReferenceAsWritten(EarthFrameField(f.q, mn), isq)
            case None => Failure(FieldRef)
            case Some(b) => MargStep(f, qDot, an, mn, b, isq)
  }

  /** `update` with the earth-field reference Madgwick's algorithm intends,
      √(hx² + hy²) (see Gradient.EarthReference); otherwise the same as Update. */
  function UpdateIntended(f: Filter, g: Vec3, a: Vec3, m: Vec3, isq: real -> real): (r: Result<Outcome, Site>)
    requires IsInvSqrt(isq) && f.sampleFreq > 0.0
    ensures r.Success? ==> IsUnit(r.value.filter.q)
    ensures r.Success? ==> r.value.filter.beta == f.beta && r.value.filter.sampleFreq == f.sampleFreq
    ensures r.Success? ==> (r.value.returned.None? <==> IsZero3(m))
    ensures r.Success? && r.value.returned.Some? ==> r.value.returned.value == r.value.filter.q
    ensures r.Failure? ==> r.error == StepNorm || r.error == QuatNorm
    ensures IsZero3(m) ==> r == Silent(UpdateIMU(f, g, a, isq))
    ensures IsZero3(a) ==> FilterOf(r) == KinematicStep(f, g, isq)
    ensures f.beta == 0.0 ==> FilterOf(r) == KinematicStep(f, g, isq) || r == Failure(StepNorm)
  {
    if IsZero3(m) then Silent(UpdateIMU(f, g, a, isq))
    else
      var qDot := GyroDerivative(f.q, g);
      if IsZero3(a) then Returning(Advance(f, qDot, isq))
      else
        match Normalise3(a, isq, AccelNorm)
        case Failure(e) => Failure(e)
        case Success(an) =>
          match Normalise3(m, isq, MagNorm)
          case Failure(e) => Failure(e)
          case Success(mn) => MargStep(f, qDot, an, mn, EarthReference(EarthFrameField(f.q, mn), isq), isq)
  }

  /** One sensor frame as `update` receives it. */
  datatype Sample = Sample(g: Vec3, a: Vec3, m: Vec3)

  /** The earth-frame field of a non-zero magnetometer reading (taken with a non-zero
      accelerometer reading, the only case in which `update` computes it) has no horizontal
      part, so the as-written reference passes 0 to invSqrt at madgwick.js:110. */
  ghost predicate FieldVertical(f: Filter, a: Vec3, m: Vec3, isq: real -> real)
    requires IsInvSqrt(isq)
  {
    && !IsZero3(a)
    && !IsZero3(m)
    && var h := EarthFrameField(f.q, Normalise3(m, isq, MagNorm).value);
       h.x == 0.0 && h.y == 0.0
  }

  /** The gradient step of `update` as written is exactly zero: the normalised readings are
      available, the reference is defined, yet the closed-form gradient at the current
      orientation vanishes. With m = 0 this is the 6-axis step of `updateIMU`. */
  ghost predicate StepVanishes(f: Filter, a: Vec3, m: Vec3, isq: real -> real)
    requires IsInvSqrt(isq)
  {
    && !IsZero3(a)
    && var an := Normalise3(a, isq, AccelNorm).value;
       if IsZero3(m) then ImuGradient(f.q, an) == Zero
       else
         var mn := Normalise3(m, isq, MagNorm).value;
         var b := EarthReferenceAsWritten(EarthFrameField(f.q, mn), isq);
         b.Some? && MargGradient(f.q, an, mn, b.value) == Zero
  }

  /** The gradient step of UpdateIntended is exactly zero. */
  ghost predicate StepVanishesIntended(f: Filter, a: Vec3, m: Vec3, isq: real -> real)
    requires IsInvSqrt(isq)
  {
    && !IsZero3(a)
    && var an := Normalise3(a, isq, AccelNorm).value;
       if IsZero3(m) then ImuGradient(f.q, an) == Zero
       else
         var mn := Normalise3(m, isq, MagNorm).value;
         MargGradient(f.q, an, mn, EarthReference(EarthFrameField(f.q, mn), isq)) == Zero
  }

  /** Repeated `update` calls, one per sample, in order. A failed step leaves NaN in the
      quaternion, which every later step propagates, so the run stops there. */
  function Run(f: Filter, samples: seq<Sample>, isq: real -> real): (r: Result<Filter, Site>)
    requires IsInvSqrt(isq) && f.sampleFreq > 0.0
    ensures r.Success? ==> r.value.beta == f.beta && r.value.sampleFreq == f.sampleFreq
    ensures r.Success? && |samples| > 0 ==> IsUnit(r.value.q)
    ensures r.Failure? ==> r.error == FieldRef || r.error == StepNorm || r.error == QuatNorm
    decreases |samples|
  {
    if |samples| == 0 then Success(f)
    else
      match FilterOf(Update(f, samples[0].g, samples[0].a, samples[0].m, isq))
      case Failure(e) => Failure(e)
      case Success(f') => Run(f', samples[1..], isq)
  }

  /** The reference recurrence applied to a sequence of gyroscope readings. */
  function KinematicRun(f: Filter, gs: seq<Vec3>, isq: real -> real): (r: Result<Filter, Site>)
    requires IsInvSqrt(isq) && f.sampleFreq > 0.0
    ensures r.Success? ==> r.value.beta == f.beta && r.value.sampleFreq == f.sampleFreq
    ensures r.Success? && |gs| > 0 ==> IsUnit(r.value.q)
    ensures r.Failure? ==> r.error == QuatNorm
    decreases |gs|
  {
    if |gs| == 0 then Success(f)
    else
      match KinematicStep(f, gs[0], isq)
      case Failure(e) => Failure(e)
      case Success(f') => KinematicRun(f', gs[1..], isq)
  }

  /** The gyroscope readings of a sequence of samples. */
  function Gyros(samples: seq<Sample>): (gs: seq<Vec3>)
    ensures |gs| == |samples|
    ensures forall i :: 0 <= i < |samples| ==> gs[i] == samples[i].g
  {
    seq(|samples|, i requires 0 <= i < |samples| => samples[i].g)
  }
}
