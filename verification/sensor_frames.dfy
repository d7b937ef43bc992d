/** Shaping of raw glove readings: flex-sensor levels clamped to [0, 1], and the split of a
    flat IMU reading list into accelerometer, gyroscope and magnetometer triples according to
    a configured sensor order. Readings are reals; JavaScript's array semantics for
    `indexOf`, `slice` and destructuring are written out. */
module SensorFrames {
  import opened Wrappers

  /** Raw flex-sensor value at which a finger reads as fully open. */
  const FingerLow: real := 400.0

  /** Width of the raw range mapped onto [0, 1]. */
  const FingerSpan: real := 350.0

  /** Full-scale value of a signed 16-bit IMU reading. */
  const FullScale: real := 32767.0

  const AccelName: string := "accel"
  const GyroName: string := "gyro"
  const MagName: string := "mag"

  // ---------------------------------------------------------------------------------------
  // Finger levels

  /** One flex reading mapped affinely and clamped: min(1, max(0, (i - 400) / 350)). */
  function FingerLevel(i: real): (r: real)
    ensures 0.0 <= r <= 1.0
  {
    var t := (i - FingerLow) / FingerSpan;
    var lower := if t > 0.0 then t else 0.0;
    if lower < 1.0 then lower else 1.0
  }

  /** The three regimes of the finger mapping: at or below the low end, at or above the high
      end, and the affine part in between. */
  lemma FingerLevelCases(i: real)
    ensures i <= FingerLow ==> FingerLevel(i) == 0.0
    ensures i >= FingerLow + FingerSpan ==> FingerLevel(i) == 1.0
    ensures FingerLow < i < FingerLow + FingerSpan ==> FingerLevel(i) == (i - FingerLow) / FingerSpan
    ensures 0.0 < FingerLevel(i) < 1.0 <==> FingerLow < i < FingerLow + FingerSpan
  {
  }

  /** Every level in [0, 1] is reached, by the raw value 400 + 350·t. */
  lemma FingerLevelOnto(t: real)
    requires 0.0 <= t <= 1.0
    ensures FingerLevel(FingerLow + FingerSpan * t) == t
  {
  }

  lemma FingerLevelMonotone(i: real, j: real)
    requires i <= j
    ensures FingerLevel(i) <= FingerLevel(j)
  {
  }

  /** `formatFingersData`: the finger mapping applied to every reading. */
  function FormatFingers(data: seq<real>): (r: seq<real>)
    ensures |r| == |data|
    ensures forall k :: 0 <= k < |r| ==> r[k] == FingerLevel(data[k])
    ensures forall k :: 0 <= k < |r| ==> 0.0 <= r[k] <= 1.0
  {
    seq(|data|, k requires 0 <= k < |data| => FingerLevel(data[k]))
  }

  /** Element-wise larger readings give element-wise larger levels. */
  lemma FormatFingersMonotone(data: seq<real>, data': seq<real>)
    requires |data| == |data'|
    requires forall k :: 0 <= k < |data| ==> data[k] <= data'[k]
    ensures forall k :: 0 <= k < |data| ==> FormatFingers(data)[k] <= FormatFingers(data')[k]
  {
    forall k | 0 <= k < |data|
      ensures FormatFingers(data)[k] <= FormatFingers(data')[k]
    {
      FingerLevelMonotone(data[k], data'[k]);
    }
  }

  /** Readings in non-decreasing order give levels in non-decreasing order. */
  lemma FormatFingersKeepsOrder(data: seq<real>)
    requires forall k, l :: 0 <= k <= l < |data| ==> data[k] <= data[l]
    ensures forall k, l :: 0 <= k <= l < |data| ==> FormatFingers(data)[k] <= FormatFingers(data)[l]
  {
    forall k, l | 0 <= k <= l < |data|
      ensures FormatFingers(data)[k] <= FormatFingers(data)[l]
    {
      FingerLevelMonotone(data[k], data[l]);
    }
  }

  // ---------------------------------------------------------------------------------------
  // JavaScript array helpers

  /** `Array.prototype.indexOf`: the first position of x in s, or -1 when x is absent. */
  function IndexOf<T(==)>(s: seq<T>, x: T): (r: int)
    ensures -1 <= r < |s|
    ensures r == -1 <==> x !in s
    ensures r >= 0 ==> s[r] == x && forall j :: 0 <= j < r ==> s[j] != x
  {
    if |s| == 0 then -1
    else if s[0] == x then 0
    else
      var r := IndexOf(s[1..], x);
      assert forall y :: y in s[1..] ==> y in s;
      if r == -1 then -1 else r + 1
  }

  /** A `slice` bound resolved against the length: a negative bound counts from the end
      (and stops at 0), a non-negative one stops at the length. */
  function SliceBound(i: int, len: nat): (r: nat)
    ensures r <= len
    ensures i < 0 ==> (r == 0 <==> len + i <= 0)
    ensures 0 <= i ==> (r == len <==> len <= i)
    ensures i < 0 && len + i >= 0 ==> r == len + i
    ensures 0 <= i <= len ==> r == i
  {
    if i < 0 then (if len + i > 0 then len + i else 0)
    else if i < len then i else len
  }

  /** `Array.prototype.slice(start, end)`; it is empty when the resolved end does not lie
      past the resolved start. */
  function Slice<T>(s: seq<T>, start: int, end: int): (r: seq<T>)
    ensures |r| <= |s|
    ensures var from, to := SliceBound(start, |s|), SliceBound(end, |s|);
      if from < to then |r| == to - from && forall j :: 0 <= j < |r| ==> r[j] == s[from + j]
      else r == []
  {
    var from, to := SliceBound(start, |s|), SliceBound(end, |s|);
    if from < to then s[from..to] else []
  }

  /** An object {x, y, z} built by destructuring; a component the array does not reach is
      `undefined`, here None. */
  datatype Triple<T> = Triple(x: Option<T>, y: Option<T>, z: Option<T>)

  const Undefined: Triple<real> := Triple(None, None, None)

  /** Component j (0 for x, 1 for y, 2 for z) of a triple. */
  function Component<T>(t: Triple<T>, j: nat): Option<T>
    requires j < 3
  {
    if j == 0 then t.x else if j == 1 then t.y else t.z
  }

  /** `arrToObject`: the first three elements, in order, become x, y and z. */
  function ArrToObject<T>(c: seq<T>): (r: Triple<T>)
    ensures forall j :: 0 <= j < 3 ==> Component(r, j) == (if j < |c| then Some(c[j]) else None)
  {
    Triple(if 0 < |c| then Some(c[0]) else None,
           if 1 < |c| then Some(c[1]) else None,
           if 2 < |c| then Some(c[2]) else None)
  }

  /** The elements of a fully defined triple, in order. */
  function Elements<T>(t: Triple<T>): seq<T>
    requires t.x.Some? && t.y.Some? && t.z.Some?
  {
    [t.x.value, t.y.value, t.z.value]
  }

  /** A three-element array survives the trip through an object unchanged. */
  lemma ArrToObjectRoundTrip<T>(c: seq<T>)
    requires |c| == 3
    ensures var t := ArrToObject(c); t.x.Some? && t.y.Some? && t.z.Some? && Elements(t) == c
  {
  }

  /** Elements after the third are ignored. */
  lemma ArrToObjectIgnoresTail<T>(c: seq<T>, d: seq<T>)
    requires |c| >= 3
    ensures ArrToObject(c + d) == ArrToObject(c)
  {
    assert (c + d)[0] == c[0] && (c + d)[1] == c[1] && (c + d)[2] == c[2];
  }

  // ---------------------------------------------------------------------------------------
  // Orientation frames

  /** The three sensor triples of one IMU frame. */
  datatype Orientation = Orientation(accel: Triple<real>, gyro: Triple<real>, mag: Triple<real>)

  /** Triple t holds block k of the readings, data[3k .. 3k+3), a position past the end
      being undefined. */
  ghost predicate ReadsBlock(t: Triple<real>, data: seq<real>, k: nat) {
    forall j :: 0 <= j < 3 ==>
      Component(t, j) == (if 3 * k + j < |data| then Some(data[3 * k + j]) else None)
  }

  /** Triple t is what the sensor called `name` reads under `order`: its block when the
      order names it, and all-undefined when it does not. */
  ghost predicate SensorReading(t: Triple<real>, data: seq<real>, order: seq<string>, name: string) {
    var k := IndexOf(order, name);
    if k < 0 then t == Undefined else ReadsBlock(t, data, k)
  }

  /** The triple for the sensor at position k of the order (-1 when it is missing): the
      slice from 3k to 3k + 3, as an object. */
  function Block(data: seq<real>, k: int): (t: Triple<real>)
    requires k >= -1
    ensures k == -1 ==> t == Undefined
    ensures k >= 0 ==> ReadsBlock(t, data, k)
  {
    var start := k * 3;
    ArrToObject(Slice(data, start, start + 3))
  }

  /** `formatOrientationData`. */
  function FormatOrientation(data: seq<real>, order: seq<string>): (r: Orientation)
    ensures SensorReading(r.accel, data, order, AccelName)
    ensures SensorReading(r.gyro, data, order, GyroName)
    ensures SensorReading(r.mag, data, order, MagName)
  {
    Orientation(Block(data, IndexOf(order, AccelName)),
                Block(data, IndexOf(order, GyroName)),
                Block(data, IndexOf(order, MagName)))
  }

  /** A raw reading as a fraction of full scale. */
  function Scaled(i: real): real {
    i / FullScale
  }

  /** The readings, each as a fraction of full scale. */
  function ScaleReadings(data: seq<real>): (r: seq<real>)
    ensures |r| == |data|
    ensures forall k :: 0 <= k < |r| ==> r[k] == data[k] / FullScale
  {
    seq(|data|, k requires 0 <= k < |data| => Scaled(data[k]))
  }

  /** The scaled triple for the sensor at position k: each element of the slice is divided
      by 32767 before the object is built. */
  function ScaledBlock(data: seq<real>, k: int): (t: Triple<real>)
    requires k >= -1
    ensures k == -1 ==> t == Undefined
    ensures k >= 0 ==> ReadsBlock(t, ScaleReadings(data), k)
  {
    var start := k * 3;
    assert ScaleReadings(Slice(data, start, start + 3)) == Slice(ScaleReadings(data), start, start + 3);
    ArrToObject(ScaleReadings(Slice(data, start, start + 3)))
  }

  /** `formatOrientationData2`. */
  function FormatOrientation2(data: seq<real>, order: seq<string>): (r: Orientation)
    ensures SensorReading(r.accel, ScaleReadings(data), order, AccelName)
    ensures SensorReading(r.gyro, ScaleReadings(data), order, GyroName)
    ensures SensorReading(r.mag, ScaleReadings(data), order, MagName)
  {
    ScaledBlockReads(data, IndexOf(order, AccelName));
    ScaledBlockReads(data, IndexOf(order, GyroName));
    ScaledBlockReads(data, IndexOf(order, MagName));
    Orientation(ScaledBlock(data, IndexOf(order, AccelName)),
                ScaledBlock(data, IndexOf(order, GyroName)),
                ScaledBlock(data, IndexOf(order, MagName)))
  }

  /** Scaling after slicing equals slicing the scaled readings. */
  lemma ScaledBlockReads(data: seq<real>, k: int)
    requires k >= -1
    ensures ScaledBlock(data, k) == Block(ScaleReadings(data), k)
  {
    var start := k * 3;
    assert ScaleReadings(Slice(data, start, start + 3)) == Slice(ScaleReadings(data), start, start + 3);
  }

  /** `formatOrientationData2` is `formatOrientationData` on readings scaled to full scale. */
  lemma FormatOrientation2IsScaled(data: seq<real>, order: seq<string>)
    ensures FormatOrientation2(data, order) == FormatOrientation(ScaleReadings(data), order)
  {
    ScaledBlockReads(data, IndexOf(order, AccelName));
    ScaledBlockReads(data, IndexOf(order, GyroName));
    ScaledBlockReads(data, IndexOf(order, MagName));
  }

  /** The positions of the readings that block k occupies. */
  function BlockPositions(k: nat): (r: set<int>)
    ensures forall i :: i in r <==> 3 * k <= i < 3 * k + 3
  {
    {3 * k, 3 * k + 1, 3 * k + 2}
  }

  /** Two sensors the order names under different names read disjoint blocks. */
  lemma BlocksDisjoint(order: seq<string>, n1: string, n2: string)
    requires n1 in order && n2 in order && n1 != n2
    ensures IndexOf(order, n1) >= 0 && IndexOf(order, n2) >= 0
    ensures BlockPositions(IndexOf(order, n1)) !! BlockPositions(IndexOf(order, n2))
  {
    var k1, k2 := IndexOf(order, n1), IndexOf(order, n2);
    assert k1 != k2;
    forall i | i in BlockPositions(k1) ensures i !in BlockPositions(k2) {
      if k1 < k2 { assert i < 3 * k2; } else { assert i >= 3 * k2 + 3; }
    }
  }

  /** A sensor's triple depends only on the readings in its own block: readings of the same
      length that agree there give the same triple. */
  lemma ReadingDependsOnlyOnBlock(data: seq<real>, data': seq<real>, order: seq<string>, name: string)
    requires |data| == |data'|
    requires IndexOf(order, name) >= 0
    requires forall i :: i in BlockPositions(IndexOf(order, name)) && 0 <= i < |data| ==> data[i] == data'[i]
    ensures Block(data, IndexOf(order, name)) == Block(data', IndexOf(order, name))
  {
    var k := IndexOf(order, name);
    var t, t' := Block(data, k), Block(data', k);
    forall j | 0 <= j < 3 ensures Component(t, j) == Component(t', j) {
      if 3 * k + j < |data| {
        assert 3 * k + j in BlockPositions(k);
      }
    }
    assert Component(t, 0) == Component(t', 0);
    assert Component(t, 1) == Component(t', 1);
    assert Component(t, 2) == Component(t', 2);
  }
}
