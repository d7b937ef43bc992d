# Madgwick orientation filter and glove sensor shaping

This project models the sensor-fusion core of a data-glove driver in Dafny.

- **The Madgwick filter** (`madgwick.js`). It keeps an orientation quaternion q, a gain
  `beta` and a sample frequency. Each `update`/`updateIMU` call does four things:
  - it computes the gyroscope rate of change ½·q⊗(0, g);
  - when a reading is available, it subtracts beta times the normalised gradient-descent
    step that pulls the measured gravity (and magnetic field) towards their earth-frame
    references;
  - it integrates with step 1/sampleFreq;
  - it renormalises q.
- **The shaping helpers** (`utils.js`). Flex readings are mapped onto finger levels in
  [0, 1]. A flat IMU reading list is split into accelerometer, gyroscope and magnetometer
  triples, following a configured sensor order.

The filter is a set of pure functions on an immutable `Filter` value (`madgwick.dfy`). Its
closed-form gradients and the earth-field reference are in `gradient.dfy`. The quaternion
algebra is in `quaternion.dfy`.

`invSqrt` is a function parameter `isq`. The model assumes only its defining law on the
positive reals: isq(x) > 0 and isq(x)²·x = 1 (`real_roots.dfy`). A call with a
non-positive argument gives Infinity or NaN in the source, and that NaN then fills the
quaternion. The model reports such a call as `Failure(site)`, where the site names the
call: the accelerometer, magnetometer, step or quaternion normalisation, or the
horizontal earth-field reference at madgwick.js:110.

`Madgwick.Update` follows the source as written, including line 110, which takes invSqrt
of hx² + hy² where Madgwick's algorithm takes its square root (see "## Findings").
`Madgwick.UpdateIntended` is the same step with the square root.

The main results:
- From a valid filter, meaning sampleFreq > 0, 0 ≤ beta < sampleFreq and a unit q,
  `updateIMU` and the intended `update` fail only at the gradient-step normalisation, and
  they fail there exactly when the closed-form step vanishes.
- From a valid filter, `update` as written fails at line 110 exactly when the accelerometer
  reading is non-zero and the normalised field, rotated into the earth frame, is vertical
  (hx = hy = 0). Otherwise it fails only
  at the step normalisation, exactly when its step vanishes.
- At the identity orientation, the 6-axis step vanishes for a purely vertical
  accelerometer reading. That reading is gravity for a sensor at rest, so the first
  `update` of a new filter lying flat with no magnetometer reading produces NaN.

The shaping helpers are in `sensor_frames.dfy`. JavaScript's `indexOf`, `slice` and
destructuring semantics are written out there, including a sensor name missing from the
order.

## Model

| member | source | states |
|---|---|---|
| RealRoots.InvSqrt | madgwick.js:307-308 | defined exactly for positive arguments; the value is positive and is the reciprocal square root |
| RealRoots.InvSqrtAt | madgwick.js:307-308 | the reciprocal square root is unique: any positive r with r²·x = 1 is invSqrt(x) |
| RealRoots.Sqrt | madgwick.js:110 | the square root used by the intended line 110: non-negative, and its square is the argument |
| Gradient.ImuGradientIsJacobianProduct | madgwick.js:233-271 | ImuGradient, the 6-axis step s0..s3, is the transposed Jacobian times the gravity error of the objective |
| Gradient.MargGradientIsJacobianProduct | madgwick.js:124-165 | MargGradient, the 9-axis step s0..s3, is the transposed gravity Jacobian times the gravity error plus the transposed field Jacobian times the field error |
| Gradient.GravityErrorIsRotation | madgwick.js:248-271 | for a unit q, GravityError is the earth's vertical seen from the sensor frame, q*⊗(0,0,0,1)⊗q, minus the measured direction |
| Gradient.GravityJacobianIsDerivative | madgwick.js:248-271 | GravityJacobianT is the transposed derivative of the gravity objective: e · (J_g d) is the central difference of GravityError along any direction d |
| Gradient.FieldJacobianIsDerivative | madgwick.js:124-165 | FieldJacobianT is the transposed derivative of the field objective: e · (J_b d) is the central difference of FieldError along any direction d |
| Gradient.MargGradientWithoutField | madgwick.js:124-165 | with a zero field reference, the 9-axis step reduces to the 6-axis step |
| Gradient.EarthFrameFieldIsRotation | madgwick.js:92-119 | EarthFrameField, (hx, hy, _2bz), is the magnetometer reading rotated into the earth frame, q⊗(0,m)⊗q* |
| Gradient.EarthReference | madgwick.js:110-119 | the intended reference: horizontal part √(hx²+hy²) ≥ 0 and vertical part hz, so its magnitude is the field's |
| Gradient.EarthReferenceAsWritten | madgwick.js:110 | the reference as written: undefined exactly when hx = hy = 0, otherwise its horizontal part is 1/√(hx²+hy²) |
| Gradient.AsWrittenAgreesOnlyOnUnitPlane | madgwick.js:110 | the as-written and intended references agree exactly when hx² + hy² = 1 |
| Gradient.AsWrittenMismatchExample | madgwick.js:92-119 | at the identity orientation with field (0.6, 0, 0.8), the as-written horizontal reference is 5/3 where the intended one is 0.6 |
| Madgwick.NewFilter | madgwick.js:2-11 | the constructor's state: identity quaternion, beta 0.02, sampleFreq 80000; this state is valid |
| Madgwick.GyroDerivative | madgwick.js:218-222 | the component formulas qDot1..qDot4 equal ½·q⊗(0,g), which is orthogonal to q |
| Madgwick.Normalise3 | madgwick.js:225-230 | a reading normalises exactly when it is not all zero; the result is a unit vector in the same direction |
| Madgwick.Normalise | madgwick.js:272-276 | the step normalises exactly when it is non-zero; the result is a unit quaternion in the same direction |
| Madgwick.ApplyFeedback | madgwick.js:272-282 | fails exactly when the step is zero; otherwise subtracts beta times a unit vector along the step; with beta = 0 nothing is subtracted |
| Madgwick.Integrate | madgwick.js:180-183 | one integration step leaves q unchanged exactly when the rate of change is zero |
| Madgwick.Advance | madgwick.js:285-301 | integration then renormalisation: fails exactly when the integrated quaternion is zero, otherwise gives a unit quaternion along it and keeps beta and sampleFreq |
| Madgwick.KinematicStep | madgwick.js:219-222 | pure gyroscope integration gives a unit quaternion with beta and sampleFreq unchanged, and can fail only at the quaternion normalisation |
| Madgwick.UpdateIMU | madgwick.js:200-302 | the result is a unit quaternion; failures arise only at the step or quaternion normalisation; a zero accelerometer reading gives pure gyroscope integration, and so does beta = 0 unless the step normalisation fails |
| Madgwick.MargStep | madgwick.js:124-197 | the 9-axis feedback, integration and renormalisation return the new unit quaternion, keep beta and sampleFreq, and fail only at the step or quaternion normalisation; with beta = 0 they are plain integration unless the step fails |
| Madgwick.Update | madgwick.js:13-198 | update as written: a zero magnetometer reading delegates to updateIMU and returns nothing; otherwise the new quaternion is returned; failures arise only at line 110 or at the step or quaternion normalisation; a zero accelerometer reading gives pure gyroscope integration, and so does beta = 0 unless line 110 or the step fails |
| Madgwick.UpdateIntended | madgwick.js:13-198 | update with √ at line 110: as Update, but failures arise only at the step or quaternion normalisation |
| Madgwick.Run | madgwick.js:180-197 | repeated updates keep beta and sampleFreq, leave a unit quaternion after at least one update, and fail only at line 110 or at a normalisation step |
| Madgwick.KinematicRun | madgwick.js:286-289 | repeated gyroscope-only steps keep beta and the sample frequency, leave a unit quaternion after at least one step, and fail only at the quaternion normalisation |
| MadgwickLemmas.IntegratedNonZero | madgwick.js:279-289 | from a unit q, the gyroscope rate minus beta times a unit step, integrated with 0 ≤ beta/sampleFreq < 1, is never the zero quaternion |
| MadgwickLemmas.KinematicNonZero | madgwick.js:286-289 | from a unit q, integrating the gyroscope rate alone never gives the zero quaternion |
| MadgwickLemmas.AdvanceFromValid | madgwick.js:286-301 | from a valid filter, the renormalisation after feedback never fails |
| MadgwickLemmas.MargStepCorrects | madgwick.js:166-197 | a successful 9-axis step gives a unit quaternion along q + (qDot − beta·s)/sampleFreq for a unit s along the 9-axis gradient |
| MadgwickLemmas.UpdateIMUCorrects | madgwick.js:225-301 | a successful updateIMU with a non-zero accelerometer reading gives a unit quaternion along q + (½q⊗(0,g) − beta·s)/sampleFreq for a unit s along the 6-axis gradient of the normalised reading |
| MadgwickLemmas.UpdateCorrects | madgwick.js:56-197 | a successful update as written with both readings non-zero has an earth-field reference from line 110 and gives a unit quaternion along q + (½q⊗(0,g) − beta·s)/sampleFreq for a unit s along the 9-axis gradient with that reference |
| MadgwickLemmas.UpdateIntendedCorrects | madgwick.js:56-197 | the same for the intended update, with the √ earth-field reference |
| MadgwickLemmas.UpdateIMUFromValid | madgwick.js:200-302 | from a valid filter, updateIMU keeps the filter valid and fails, only at the step, exactly when the step vanishes |
| MadgwickLemmas.UpdateFromValid | madgwick.js:13-198 | from a valid filter, update as written keeps the filter valid; it fails exactly when the accelerometer reading is non-zero and the rotated normalised field has hx = hy = 0 (at line 110, and only then at line 110) or the as-written step vanishes (at the step normalisation) |
| MadgwickLemmas.UpdateIntendedFromValid | madgwick.js:13-198 | from a valid filter, the intended update keeps the filter valid and fails, only at the step, exactly when its step vanishes |
| MadgwickLemmas.RunFromValid | madgwick.js:180-197 | repeated updates from a valid filter stay valid, and any failure is at line 110 or at the step normalisation |
| MadgwickLemmas.RunWithoutAccelIsKinematic | madgwick.js:56 | a run whose accelerometer readings are all zero is pure gyroscope integration |
| MadgwickLemmas.ZeroRateIsFixedPoint | madgwick.js:286-301 | with zero rate and no accelerometer reading, a unit quaternion is left unchanged |
| MadgwickLemmas.ImuGradientAtIdentity | madgwick.js:248-271 | at the identity the 6-axis step is (0, -2ay, 2ax, 0) |
| MadgwickLemmas.VerticalAtIdentity | madgwick.js:248-271 | at the identity the 6-axis step vanishes exactly when ax = ay = 0 |
| MadgwickLemmas.VanishesAtIdentity | madgwick.js:225-271 | at the identity, for a non-zero reading, the step vanishes exactly when the reading has no horizontal part |
| MadgwickLemmas.StepVanishesAtIdentity | madgwick.js:225-272 | at the identity the 6-axis step vanishes exactly for a non-zero vertical accelerometer reading |
| MadgwickLemmas.UpdateIMUGapAtIdentity | madgwick.js:272 | at the identity, for any gain, a non-zero vertical accelerometer reading makes updateIMU pass 0 to invSqrt |
| MadgwickLemmas.NewFilterFirstStepGap | madgwick.js:44-46 | the first update of a new filter with reading (0, 0, c), c ≠ 0, and no magnetometer reading fails at the step normalisation |
| MadgwickLemmas.UpdateGapAtIdentity | madgwick.js:166 | at the identity a reading (0, 0, c) with magnetometer reading (d, 0, 0) makes the 9-axis step vanish, so update passes 0 to invSqrt |
| MadgwickLemmas.FieldRefGapAtIdentity | madgwick.js:110 | at the identity a non-zero accelerometer reading with magnetometer reading (0, 0, d) makes update pass 0 to invSqrt at line 110 |
| MadgwickLemmas.StepVanishesOnceNormalised | madgwick.js:64-166 | once both readings are normalised and the line-110 reference exists, update's step vanishes exactly when the 9-axis gradient of those values does |
| MadgwickLemmas.IntendedVanishingFails | madgwick.js:166 | with a magnetometer reading, the intended update fails at the step normalisation whenever its step vanishes, whatever the gain |
| MadgwickLemmas.WitnessAccel | madgwick.js:58-61 | the reading (0, 0, 1) normalises to itself |
| MadgwickLemmas.WitnessField | madgwick.js:64-67 | the reading (3, 0, 4) normalises to (0.6, 0, 0.8) |
| MadgwickLemmas.WitnessSteps | madgwick.js:124-165 | at the identity, for (0, 0, 1) and (0.6, 0, 0.8), the 9-axis step is zero with the intended reference (0.6, 0.8) and non-zero with the as-written one (5/3, 0.8) |
| MadgwickLemmas.WitnessNotVertical | madgwick.js:92-110 | at the identity the field (3, 0, 4) is not vertical in the earth frame |
| MadgwickLemmas.WitnessStepNonZero | madgwick.js:110-166 | at the identity, for (0, 0, 1) and (3, 0, 4), the as-written step does not vanish |
| MadgwickLemmas.SucceedsUnlessVanishing | madgwick.js:13-198 | from a valid filter, update as written succeeds whenever the earth-frame field is not vertical and its step does not vanish |
| MadgwickLemmas.WitnessUpdateSucceeds | madgwick.js:13-198 | at the identity, from a valid filter, update as written succeeds on (0, 0, 1) and (3, 0, 4) |
| MadgwickLemmas.WitnessIntendedFails | madgwick.js:110-166 | at the identity the intended update fails at the step normalisation on (0, 0, 1) and (3, 0, 4), whatever the gain |
| SensorFrames.FingerLevel | utils.js:4 | every finger level lies in [0, 1] |
| SensorFrames.FingerLevelCases | utils.js:4 | a reading of 400 or below gives 0; 750 or above gives 1; in between gives (i − 400)/350; the level is strictly inside (0, 1) exactly for readings strictly between 400 and 750 |
| SensorFrames.FingerLevelOnto | utils.js:4 | every level t in [0, 1] is the level of the reading 400 + 350·t |
| SensorFrames.FingerLevelMonotone | utils.js:4 | the finger mapping is monotone non-decreasing |
| SensorFrames.FormatFingers | utils.js:3-5 | the output has the input's length, and each element is the level of the matching reading, in [0, 1] |
| SensorFrames.FormatFingersMonotone | utils.js:4 | element-wise larger readings give element-wise larger levels |
| SensorFrames.FormatFingersKeepsOrder | utils.js:4 | sorted readings give sorted levels |
| SensorFrames.IndexOf | utils.js:18-20 | the first position of the name, or -1 exactly when the order does not contain it |
| SensorFrames.SliceBound | utils.js:23 | a slice bound resolves to a position in [0, length]: a bound in [0, length] is kept, a larger one is length, a negative one in [-length, 0) becomes length plus the bound, and a smaller one is 0 |
| SensorFrames.Slice | utils.js:23-25 | the slice holds the elements from the resolved start up to the resolved end, and it is empty when these are out of order |
| SensorFrames.ArrToObject | utils.js:7-15 | component j of the object is the j-th element, or undefined past the end |
| SensorFrames.ArrToObjectRoundTrip | utils.js:7-15 | a three-element array is recovered from its object |
| SensorFrames.ArrToObjectIgnoresTail | utils.js:8 | elements after the third do not affect the object |
| SensorFrames.Block | utils.js:18-25 | the triple for position k holds data[3k], data[3k+1], data[3k+2] (undefined past the end); for a missing name it is all undefined |
| SensorFrames.FormatOrientation | utils.js:17-27 | each sensor's triple is the block at 3 × its position in the order, or all undefined when the order does not name it |
| SensorFrames.ScaleReadings | utils.js:36 | each reading divided by 32767, with the length kept |
| SensorFrames.ScaledBlock | utils.js:35-43 | the scaled triple for position k holds data[3k..3k+3) divided by 32767 (undefined past the end); for a missing name it is all undefined |
| SensorFrames.FormatOrientation2 | utils.js:29-45 | each sensor's triple is its block of the readings divided by 32767 |
| SensorFrames.ScaledBlockReads | utils.js:35-37 | dividing each element of the slice by 32767 gives the same as slicing the scaled readings |
| SensorFrames.FormatOrientation2IsScaled | utils.js:29-45 | formatOrientationData2 is formatOrientationData applied to readings scaled by 1/32767 |
| SensorFrames.BlockPositions | utils.js:18-23 | block k occupies positions 3k, 3k+1 and 3k+2 |
| SensorFrames.BlocksDisjoint | utils.js:18-26 | two distinct sensor names present in the order read disjoint blocks |
| SensorFrames.ReadingDependsOnlyOnBlock | utils.js:23-25 | a sensor's triple depends only on the readings in its own block |

## Left out

- IEEE-754 arithmetic: reals stand in for doubles, so rounding and overflow are not modelled. NaN and Infinity appear only as the `Failure` of an invSqrt call with a non-positive argument: at a normalisation or at line 110 (site `FieldRef`). The propagation of NaN through later steps is modelled by `Run` stopping at the first failure.
- `invSqrt` is a parameter that satisfies the law of 1/√x; `Math.sqrt` itself is not modelled. The commented-out fast inverse square root (madgwick.js:309-325) is not part of this model.
- Madgwick.UpdateIMU, Madgwick.Update: these require sampleFreq > 0. The source never changes it from 80000, and a zero frequency would divide by zero.
- The return value of `updateIMU` (undefined) and the in-place mutation of the filter object: each step instead returns a new `Filter`.
- JavaScript's coercion of non-numeric arguments, such as strings or undefined sensor components.
- Convergence of the filter, or agreement with recorded orientation vectors: these are numerical claims, not properties of single steps.
- `config`: the sensor order is a parameter of `FormatOrientation` and `FormatOrientation2`. Readings are reals.
- index.js and constants.js (device I/O, serial parsing, the Mahony filter, Euler angles) are not part of this model.
- MadgwickLemmas.UpdateIMUGapAtIdentity: it states one direction, that a vertical reading fails. The converse follows from StepVanishesAtIdentity together with UpdateIMUFromValid, which are proved separately.
- MadgwickLemmas.FieldRefGapAtIdentity, MadgwickLemmas.UpdateGapAtIdentity: each states one direction, that the given reading fails. The converse follows from UpdateFromValid.

## Findings

| source | as written | input that shows it | evidently intended | confidence | as-written member | corrected member |
|---|---|---|---|---|---|---|
| madgwick.js:110 | `_2bx = invSqrt(hx * hx + hy * hy)` gives the reciprocal of the horizontal field magnitude | identity orientation, magnetometer (3, 0, 4): the normalised field is (0.6, 0, 0.8), so the as-written value is 5/3 instead of 0.6. With 0.6 the 9-axis step vanishes there, because at the identity the measured field then lies along the reference direction, and the intended update fails at the step normalisation; with 5/3 the step does not vanish and update succeeds. And hx = hy = 0 (a purely vertical field) gives invSqrt(0) | `_2bx = sqrt(hx * hx + hy * hy)`, as in Madgwick's published algorithm, so that the reference (_2bx, _2bz) has the field's magnitude | high; not executed | Gradient.EarthReferenceAsWritten, used by Madgwick.Update (Gradient.AsWrittenMismatchExample, Gradient.AsWrittenAgreesOnlyOnUnitPlane, MadgwickLemmas.FieldRefGapAtIdentity, MadgwickLemmas.WitnessUpdateSucceeds) | Gradient.EarthReference, used by Madgwick.UpdateIntended (MadgwickLemmas.UpdateIntendedFromValid) |
