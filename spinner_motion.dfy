/** The motion arithmetic of the loading spinner: correction of the angle
    parameters, the derived speeds, the four truncated phase boundaries, the
    start-angle keyframes, the extra-rotation period, and the keyframe tables
    handed to the animation engine. Kotlin `Float` is modelled by `real`. */
module SpinnerMotion {
  import opened KotlinNumbers

  /** The arc's minimum and maximum sweep extent, in degrees. */
  datatype Angles = Angles(min: real, max: real)

  /** What the correction guarantees: an ordered range inside one full turn. */
  predicate ValidAngles(a: Angles) {
    0.0 <= a.min <= a.max <= 360.0
  }

  /** `sweepTimeMillis` is a Kotlin `Int`; the derivation divides by it. */
  predicate ValidSweepTime(sweepTimeMillis: int) {
    0 < sweepTimeMillis <= IntMax
  }

  // ---------------------------------------------------------------------------
  // Angle correction
  // ---------------------------------------------------------------------------

  /** A minimum angle outside [0, 360] is replaced by 0. */
  function CorrectMinAngle(minAngle: real): (r: real)
    ensures 0.0 <= r <= 360.0
    ensures r == minAngle || r == 0.0
    ensures r == minAngle <==> 0.0 <= minAngle <= 360.0
  {
    if 0.0 <= minAngle <= 360.0 then minAngle else 0.0
  }

  /** A maximum angle outside [0, 360], or below the (already corrected)
      minimum, is replaced by 360. */
  function CorrectMaxAngle(maxAngle: real, correctedMin: real): (r: real)
    ensures 0.0 <= correctedMin <= 360.0 ==> correctedMin <= r <= 360.0
    ensures r == maxAngle || r == 360.0
    ensures correctedMin <= 360.0 ==>
              (r == maxAngle <==> 0.0 <= maxAngle <= 360.0 && maxAngle >= correctedMin)
  {
    if 0.0 <= maxAngle <= 360.0 && maxAngle >= correctedMin then maxAngle else 360.0
  }

  /** Both corrections, in source order: the maximum is checked against the
      corrected minimum, not the parameter. */
  function CorrectAngles(minAngle: real, maxAngle: real): (a: Angles)
    ensures ValidAngles(a)
    ensures a.min == CorrectMinAngle(minAngle)
    ensures a.max == CorrectMaxAngle(maxAngle, a.min)
    ensures ValidAngles(Angles(minAngle, maxAngle)) ==> a == Angles(minAngle, maxAngle)
  {
    var min := CorrectMinAngle(minAngle);
    Angles(min, CorrectMaxAngle(maxAngle, min))
  }

  /** Correcting an already corrected pair changes nothing. */
  lemma CorrectAnglesIdempotent(minAngle: real, maxAngle: real)
    ensures var a := CorrectAngles(minAngle, maxAngle);
            CorrectAngles(a.min, a.max) == a
  {
  }

  /** The two checks run in order: with minAngle = 400 the minimum becomes 0
      first, so maxAngle = 50 is kept (it would have been replaced had it been
      compared with 400). A maximum below a valid minimum becomes 360. */
  lemma CorrectionOrder()
    ensures CorrectAngles(400.0, 50.0) == Angles(0.0, 50.0)
    ensures CorrectAngles(100.0, 50.0) == Angles(100.0, 360.0)
    ensures CorrectAngles(-1.0, 361.0) == Angles(0.0, 360.0)
  {
  }

  // ---------------------------------------------------------------------------
  // Speeds
  // ---------------------------------------------------------------------------

  /** The degrees the four phases are measured in: min (uncurl), max - min
      (grow), 360 - max (hold), max - min (shrink). */
  function CycleDegrees(a: Angles): (d: real)
    requires ValidAngles(a)
    ensures 360.0 <= d <= 720.0
    ensures d == a.min + (a.max - a.min) + (360.0 - a.max) + (a.max - a.min)
  {
    360.0 + a.max - a.min
  }

  /** `sweepSpeed`: the fraction of a turn per millisecond at which the cycle's
      degrees are covered in exactly one sweep time. */
  function SweepSpeed(a: Angles, sweepTimeMillis: int): (s: real)
    requires ValidAngles(a) && sweepTimeMillis > 0
    ensures s > 0.0
    ensures s * (360.0 * sweepTimeMillis as real) == CycleDegrees(a)
  {
    (360.0 + a.max - a.min) / (360.0 * sweepTimeMillis as real)
  }

  /** `rotationSpeed`: degrees per millisecond; over one sweep time the arc's
      start turns by the part of the circle the arc leaves uncovered at most. */
  function RotationSpeed(a: Angles, sweepTimeMillis: int): (r: real)
    requires ValidAngles(a) && sweepTimeMillis > 0
    ensures r >= 0.0
    ensures sweepTimeMillis as real * r == 360.0 + a.min - a.max
    ensures sweepTimeMillis as real * r <= 360.0
    ensures r == 0.0 <==> a == Angles(0.0, 360.0)
  {
    (360.0 + a.min - a.max) / sweepTimeMillis as real
  }

  /** `extraRotationSpeed`: what the multiplier adds on top of the rotation speed. */
  function ExtraRotationSpeed(multiplier: real, rotationSpeed: real): (e: real)
    requires rotationSpeed >= 0.0
    ensures e > 0.0 <==> multiplier > 1.0 && rotationSpeed > 0.0
    ensures e < 0.0 <==> multiplier < 1.0 && rotationSpeed > 0.0
    ensures e + rotationSpeed == multiplier * rotationSpeed
  {
    ProductSign(multiplier - 1.0, rotationSpeed);
    (multiplier - 1.0) * rotationSpeed
  }

  /** The sign of a product with a non-negative factor. */
  lemma ProductSign(x: real, y: real)
    requires y >= 0.0
    ensures x * y > 0.0 <==> x > 0.0 && y > 0.0
    ensures x * y < 0.0 <==> x < 0.0 && y > 0.0
  {
    if y > 0.0 {
      if x > 0.0 {
        MulStrict(0.0, x, y);
      } else if x < 0.0 {
        MulStrict(x, 0.0, y);
      }
    }
  }

  // ---------------------------------------------------------------------------
  // Phase boundaries
  // ---------------------------------------------------------------------------

  /** The time, in milliseconds, the sweep takes to cover `degrees` at
      `sweepSpeed`: `degrees / (360 * sweepSpeed)`. */
  function PhaseLength(degrees: real, a: Angles, sweepTimeMillis: int): (d: real)
    requires ValidAngles(a) && sweepTimeMillis > 0
    ensures d * CycleDegrees(a) == degrees * sweepTimeMillis as real
    ensures 0.0 <= degrees ==> 0.0 <= d
  {
    var unit := 360.0 * SweepSpeed(a, sweepTimeMillis);
    assert unit * sweepTimeMillis as real == CycleDegrees(a);
    degrees / unit
  }

  /** The four phase lengths fill one sweep time exactly. */
  lemma PhaseLengthsFillSweepTime(a: Angles, sweepTimeMillis: int)
    requires ValidAngles(a) && sweepTimeMillis > 0
    ensures PhaseLength(a.min, a, sweepTimeMillis)
            + PhaseLength(a.max - a.min, a, sweepTimeMillis)
            + PhaseLength(360.0 - a.max, a, sweepTimeMillis)
            + PhaseLength(a.max - a.min, a, sweepTimeMillis)
            == sweepTimeMillis as real
  {
    var t := sweepTimeMillis as real;
    var c := CycleDegrees(a);
    var l1 := PhaseLength(a.min, a, sweepTimeMillis);
    var l2 := PhaseLength(a.max - a.min, a, sweepTimeMillis);
    var l3 := PhaseLength(360.0 - a.max, a, sweepTimeMillis);
    calc {
      (l1 + l2 + l3 + l2) * c;
      l1 * c + l2 * c + l3 * c + l2 * c;
      a.min * t + (a.max - a.min) * t + (360.0 - a.max) * t + (a.max - a.min) * t;
      c * t;
    }
    assert (l1 + l2 + l3 + l2) * c == t * c;
    CancelPositive(l1 + l2 + l3 + l2, t, c);
  }

  /** Dividing out a positive factor. */
  lemma CancelPositive(x: real, y: real, c: real)
    requires c > 0.0 && x * c == y * c
    ensures x == y
  {
  }

  /** Multiplying by a positive factor keeps strict order. */
  lemma MulStrict(x: real, y: real, r: real)
    requires x < y && r > 0.0
    ensures x * r < y * r
  {
  }

  /** The phase boundaries, in milliseconds since the start of a cycle. */
  datatype Phases = Phases(p1: int, p2: int, p3: int, p4: int)

  /** The lengths of the four phases, in cycle order: uncurl the minimum arc,
      grow to the maximum, hold, shrink back. */
  function PhaseLengths(a: Angles, sweepTimeMillis: int): (ls: seq<real>)
    requires ValidAngles(a) && sweepTimeMillis > 0
    ensures |ls| == 4
    ensures ls[0] * CycleDegrees(a) == a.min * sweepTimeMillis as real
    ensures ls[1] * CycleDegrees(a) == (a.max - a.min) * sweepTimeMillis as real
    ensures ls[2] * CycleDegrees(a) == (360.0 - a.max) * sweepTimeMillis as real
    ensures ls[3] == ls[1]
    ensures forall i :: 0 <= i < |ls| ==> 0.0 <= ls[i]
    ensures Sum(ls) == sweepTimeMillis as real
  {
    var l1 := PhaseLength(a.min, a, sweepTimeMillis);
    var l2 := PhaseLength(a.max - a.min, a, sweepTimeMillis);
    var l3 := PhaseLength(360.0 - a.max, a, sweepTimeMillis);
    PhaseLengthsFillSweepTime(a, sweepTimeMillis);
    var ls := [l1, l2, l3, l2];
    assert Sum(ls[3..]) == l2;
    assert Sum(ls[2..]) == l3 + l2 by { assert ls[2..][1..] == ls[3..]; }
    assert Sum(ls[1..]) == l2 + l3 + l2 by { assert ls[1..][1..] == ls[2..]; }
    ls
  }

  /** The sum of a sequence of lengths. */
  function Sum(s: seq<real>): real {
    if s == [] then 0.0 else s[0] + Sum(s[1..])
  }

  /** Non-negative lengths have a non-negative sum. */
  lemma {:induction false} SumNonNegative(s: seq<real>)
    requires forall i :: 0 <= i < |s| ==> 0.0 <= s[i]
    ensures 0.0 <= Sum(s)
  {
    if s != [] {
      SumNonNegative(s[1..]);
    }
  }

  /** A prefix sum splits into the head and a prefix sum of the tail. */
  lemma PrefixSumSplit(s: seq<real>)
    requires s != []
    ensures forall k :: 1 <= k <= |s| ==> Sum(s[..k]) == s[0] + Sum(s[1..][..k - 1])
  {
    forall k | 1 <= k <= |s|
      ensures Sum(s[..k]) == s[0] + Sum(s[1..][..k - 1])
    {
      assert s[..k][1..] == s[1..][..k - 1];
    }
  }

  /** Boundaries as running sums, each truncated with `toInt()` before the next
      length is added. */
  function TruncatedRunningSums(previous: int, lengths: seq<real>): (bs: seq<int>)
    ensures |bs| == |lengths|
    decreases |lengths|
  {
    if lengths == [] then []
    else
      var b := ToInt(previous as real + lengths[0]);
      [b] + TruncatedRunningSums(b, lengths[1..])
  }

  /** From a non-negative start, over non-negative lengths whose total stays in
      the `Int` range, the truncated running sums never decrease, and each is at
      or before the exact running sum and less than one millisecond per
      truncation so far behind it. */
  lemma {:induction false} RunningSumsNearExact(previous: int, lengths: seq<real>)
    requires 0 <= previous
    requires forall i :: 0 <= i < |lengths| ==> 0.0 <= lengths[i]
    requires previous as real + Sum(lengths) <= IntMax as real
    ensures forall i :: 0 <= i < |lengths| ==> previous <= TruncatedRunningSums(previous, lengths)[i]
    ensures forall i, j :: 0 <= i < j < |lengths| ==>
              TruncatedRunningSums(previous, lengths)[i] <= TruncatedRunningSums(previous, lengths)[j]
    ensures forall i :: 0 <= i < |lengths| ==>
              TruncatedRunningSums(previous, lengths)[i] as real <= previous as real + Sum(lengths[..i + 1])
              < (TruncatedRunningSums(previous, lengths)[i] + i + 1) as real
    decreases |lengths|
  {
    if lengths != [] {
      var tail := lengths[1..];
      SumNonNegative(tail);
      var b := ToInt(previous as real + lengths[0]);
      assert b as real <= previous as real + lengths[0] < b as real + 1.0;
      var bs := TruncatedRunningSums(previous, lengths);
      var rest := TruncatedRunningSums(b, tail);
      assert bs == [b] + rest;
      RunningSumsNearExact(b, tail);
      PrefixSumSplit(lengths);
      forall i | 0 <= i < |bs|
        ensures previous <= bs[i]
        ensures bs[i] as real <= previous as real + Sum(lengths[..i + 1]) < (bs[i] + i + 1) as real
      {
        if i > 0 {
          var k := i - 1;
          assert bs[i] == rest[k];
          assert rest[k] as real <= b as real + Sum(tail[..k + 1]) < (rest[k] + k + 1) as real;
          assert Sum(lengths[..i + 1]) == lengths[0] + Sum(tail[..k + 1]);
        } else {
          assert lengths[..1][1..] == [];
        }
      }
      forall i, j | 0 <= i < j < |bs|
        ensures bs[i] <= bs[j]
      {
        assert bs[j] == rest[j - 1];
        if i > 0 {
          assert bs[i] == rest[i - 1];
        }
      }
    }
  }

  /** `phase1Duration` .. `phase4Duration`: the truncated running sums of the
      phase lengths. They are ordered, lie within one sweep time, and each is
      within one millisecond per truncation of the exact running sum, so the
      last falls at most 3 ms short of the sweep time. */
  function PhaseTimes(a: Angles, sweepTimeMillis: int): (p: Phases)
    requires ValidAngles(a) && ValidSweepTime(sweepTimeMillis)
    ensures 0 <= p.p1 <= p.p2 <= p.p3 <= p.p4 <= sweepTimeMillis
    ensures sweepTimeMillis - 3 <= p.p4
    ensures var ls := PhaseLengths(a, sweepTimeMillis);
            && p.p1 as real <= Sum(ls[..1]) < p.p1 as real + 1.0
            && p.p2 as real <= Sum(ls[..2]) < p.p2 as real + 2.0
            && p.p3 as real <= Sum(ls[..3]) < p.p3 as real + 3.0
  {
    var ls := PhaseLengths(a, sweepTimeMillis);
    var bs := TruncatedRunningSums(0, ls);
    RunningSumsNearExact(0, ls);
    assert bs[0] <= bs[1] <= bs[2] <= bs[3];
    assert bs[3] as real <= Sum(ls[..4]) < (bs[3] + 4) as real;
    assert ls[..4] == ls;
    Phases(bs[0], bs[1], bs[2], bs[3])
  }

  // ---------------------------------------------------------------------------
  // Start-angle keyframes
  // ---------------------------------------------------------------------------

  /** The start angle reached at the ends of the first three phases. */
  datatype StartAngles = StartAngles(a1: real, a2: real, a3: real)

  /** `phase1StartAngle` .. `phase3StartAngle`: running sums of the rotation
      speed times each phase's length. The sums telescope: the start angle at a
      boundary is that boundary's time times the rotation speed. */
  function StartAngleKeys(p: Phases, rotationSpeed: real): (s: StartAngles)
    ensures s.a1 == p.p1 as real * rotationSpeed
    ensures s.a2 == p.p2 as real * rotationSpeed
    ensures s.a3 == p.p3 as real * rotationSpeed
  {
    var a1 := p.p1 as real * rotationSpeed;
    var a2 := a1 + (p.p2 - p.p1) as real * rotationSpeed;
    var a3 := a2 + (p.p3 - p.p2) as real * rotationSpeed;
    StartAngles(a1, a2, a3)
  }

  /** Multiplying by a non-negative factor keeps order. */
  lemma MulMonotone(x: real, y: real, r: real)
    requires x <= y && r >= 0.0
    ensures x * r <= y * r
  {
  }

  /** For corrected angles and ordered boundaries within the sweep time (as
      `PhaseTimes` produces), the start-angle keyframes never decrease, never
      pass 360 + min - max, and so never exceed the pinned final 360. */
  lemma StartAnglesBounded(a: Angles, sweepTimeMillis: int, p: Phases)
    requires ValidAngles(a) && ValidSweepTime(sweepTimeMillis)
    requires 0 <= p.p1 <= p.p2 <= p.p3 <= p.p4 <= sweepTimeMillis
    ensures var s := StartAngleKeys(p, RotationSpeed(a, sweepTimeMillis));
            0.0 <= s.a1 <= s.a2 <= s.a3 <= 360.0 + a.min - a.max <= 360.0
  {
    var r := RotationSpeed(a, sweepTimeMillis);
    StartAnglesOrdered(p, r, sweepTimeMillis, 360.0 + a.min - a.max);
  }

  /** Ordered boundaries within one sweep time and a non-negative speed give
      ordered start angles, up to the turn `turn` made in one sweep time. */
  lemma StartAnglesOrdered(p: Phases, rotationSpeed: real, sweepTimeMillis: int, turn: real)
    requires 0 <= p.p1 <= p.p2 <= p.p3 <= sweepTimeMillis && rotationSpeed >= 0.0
    requires sweepTimeMillis as real * rotationSpeed == turn
    ensures var s := StartAngleKeys(p, rotationSpeed);
            0.0 <= s.a1 <= s.a2 <= s.a3 <= turn
  {
    MulMonotone(0.0, p.p1 as real, rotationSpeed);
    MulMonotone(p.p1 as real, p.p2 as real, rotationSpeed);
    MulMonotone(p.p2 as real, p.p3 as real, rotationSpeed);
    MulMonotone(p.p3 as real, sweepTimeMillis as real, rotationSpeed);
    var s := StartAngleKeys(p, rotationSpeed);
    assert s.a3 == p.p3 as real * rotationSpeed <= sweepTimeMillis as real * rotationSpeed == turn;
  }

  // ---------------------------------------------------------------------------
  // Extra rotation
  // ---------------------------------------------------------------------------

  /** `extraRotationDurationMillis = (360f / extraRotationSpeed).toInt()`: the
      whole milliseconds one turn takes at the extra speed. A zero speed makes
      the float quotient infinite, which `toInt()` saturates; the zero is
      negative exactly when the multiplier is below 1, because the rotation
      speed is never negative. */
  function ExtraRotationDurationMillis(multiplier: real, rotationSpeed: real): (d: int)
    requires rotationSpeed >= 0.0
    ensures IntMin <= d <= IntMax
    ensures var e := ExtraRotationSpeed(multiplier, rotationSpeed);
            && (e > 0.0 ==> 0 <= d && d as real <= 360.0 / e)
            && (e > 0.0 && d < IntMax ==> 360.0 / e < (d + 1) as real)
            && (e > 0.0 ==> (1 <= d <==> e <= 360.0))
            && (e < 0.0 ==> d <= 0 && 360.0 / e <= d as real)
            && (e < 0.0 && IntMin < d ==> (d - 1) as real < 360.0 / e)
            && (e == 0.0 ==> d == if multiplier >= 1.0 then IntMax else IntMin)
  {
    var e := ExtraRotationSpeed(multiplier, rotationSpeed);
    if e != 0.0 then
      QuotientAtLeastOne(e);
      ToInt(360.0 / e)
    else if multiplier >= 1.0 then IntMax
    else IntMin
  }

  /** A turn takes at least a millisecond exactly when the speed is at most
      360 degrees per millisecond. */
  lemma QuotientAtLeastOne(e: real)
    requires e != 0.0
    ensures e > 0.0 ==> (1.0 <= 360.0 / e <==> e <= 360.0)
  {
    var q := 360.0 / e;
    assert q * e == 360.0;
    if e < 0.0 {
    } else if e <= 360.0 {
      assert (q - 1.0) * e == 360.0 - e;
    } else {
      assert (1.0 - q) * e == e - 360.0;
    }
  }

  // ---------------------------------------------------------------------------
  // Keyframe tables handed to the animation engine
  // ---------------------------------------------------------------------------

  /** A value to be reached at a time within one animation iteration. */
  datatype Keyframe = Keyframe(value: real, atMillis: int)

  /** A repeating keyframes animation: the value at time 0, the value at
      `durationMillis`, and the keyframes in between. */
  datatype KeyframesSpec = KeyframesSpec(
    initialValue: real, targetValue: real, durationMillis: int, frames: seq<Keyframe>)

  /** A repeating linear tween from `initialValue` to `targetValue`. */
  datatype TweenSpec = TweenSpec(initialValue: real, targetValue: real, durationMillis: int)

  /** Every keyframe lies inside the iteration and they are listed in time order. */
  predicate WellTimed(k: KeyframesSpec) {
    && (forall i :: 0 <= i < |k.frames| ==> 0 <= k.frames[i].atMillis <= k.durationMillis)
    && (forall i, j :: 0 <= i < j < |k.frames| ==> k.frames[i].atMillis <= k.frames[j].atMillis)
  }

  /** Initial value, keyframe values and target value, in that order, never decrease. */
  predicate ValuesNonDecreasing(k: KeyframesSpec) {
    && (forall i :: 0 <= i < |k.frames| ==> k.initialValue <= k.frames[i].value <= k.targetValue)
    && (forall i, j :: 0 <= i < j < |k.frames| ==> k.frames[i].value <= k.frames[j].value)
  }

  /** Initial value, keyframe values and target value all lie in [lo, hi]. */
  predicate ValuesWithin(k: KeyframesSpec, lo: real, hi: real) {
    && lo <= k.initialValue <= hi
    && lo <= k.targetValue <= hi
    && (forall i :: 0 <= i < |k.frames| ==> lo <= k.frames[i].value <= hi)
  }

  /** The `startAngle` animation: 0 to 360 over one sweep time, through the
      three start-angle keyframes, with the last keyframe pinned to 360. */
  function StartAngleTrack(sweepTimeMillis: int, p: Phases, s: StartAngles): (k: KeyframesSpec)
    ensures k.initialValue == 0.0 && k.durationMillis == sweepTimeMillis
    ensures |k.frames| == 4 && k.frames[3].value == k.targetValue == 360.0
    ensures k.frames[0].value == s.a1 && k.frames[1].value == s.a2 && k.frames[2].value == s.a3
    ensures k.frames[0].atMillis == p.p1 && k.frames[1].atMillis == p.p2
    ensures k.frames[2].atMillis == p.p3 && k.frames[3].atMillis == p.p4
    ensures (0 <= p.p1 <= p.p2 <= p.p3 <= p.p4 <= sweepTimeMillis) ==> WellTimed(k)
    ensures (0.0 <= s.a1 <= s.a2 <= s.a3 <= 360.0) ==> ValuesNonDecreasing(k)
  {
    var fs := [Keyframe(s.a1, p.p1), Keyframe(s.a2, p.p2), Keyframe(s.a3, p.p3), Keyframe(360.0, p.p4)];
    assert fs[0].atMillis == p.p1 && fs[1].atMillis == p.p2 && fs[2].atMillis == p.p3 && fs[3].atMillis == p.p4;
    assert fs[0].value == s.a1 && fs[1].value == s.a2 && fs[2].value == s.a3 && fs[3].value == 360.0;
    KeyframesSpec(0.0, 360.0, sweepTimeMillis, fs)
  }

  /** The `sweepAngle` animation: min, min, max, max, min over one sweep time. */
  function SweepAngleTrack(sweepTimeMillis: int, a: Angles, p: Phases): (k: KeyframesSpec)
    ensures k.initialValue == k.targetValue == a.min && k.durationMillis == sweepTimeMillis
    ensures |k.frames| == 4
    ensures k.frames[0].value == k.frames[3].value == a.min
    ensures k.frames[1].value == k.frames[2].value == a.max
    ensures k.frames[0].atMillis == p.p1 && k.frames[1].atMillis == p.p2
    ensures k.frames[2].atMillis == p.p3 && k.frames[3].atMillis == p.p4
    ensures (0 <= p.p1 <= p.p2 <= p.p3 <= p.p4 <= sweepTimeMillis) ==> WellTimed(k)
    ensures a.min <= a.max ==> ValuesWithin(k, a.min, a.max)
  {
    KeyframesSpec(a.min, a.min, sweepTimeMillis,
      [Keyframe(a.min, p.p1), Keyframe(a.max, p.p2), Keyframe(a.max, p.p3), Keyframe(a.min, p.p4)])
  }

  /** The `extraRotateAngle` animation: one full turn per extra-rotation period. */
  function ExtraRotateTrack(extraRotationDurationMillis: int): (t: TweenSpec)
    ensures t.initialValue == 0.0 && t.targetValue == 360.0
    ensures t.durationMillis == extraRotationDurationMillis
  {
    TweenSpec(0.0, 360.0, extraRotationDurationMillis)
  }
}
