/** The `LoadingSpinner` composable's configuration and the whole derivation
    from configuration to the data handed to the animation engine and the
    canvas: corrected angles, speeds, phase boundaries, keyframe tables, the
    extra-rotation tween and the arc geometry. */
module LoadingSpinner {
  import opened KotlinNumbers
  import opened SpinnerMotion
  import opened ArcGeometry

  /** The composable's parameters, lengths already in pixels. The colour and the
      modifier only reach the renderer and are not part of the model. */
  datatype Config = Config(
    size: real,
    strokeWidth: real,
    sweepTimeMillis: int,
    rotationSpeedMultiplier: real,
    minAngle: real,
    maxAngle: real)

  /** The default stroke width is a sixth of the size. */
  function DefaultStrokeWidth(size: real): (w: real)
    ensures 6.0 * w == size
  {
    size / 6.0
  }

  /** The default parameters: size 36, stroke 36 / 6, 1300 ms, multiplier 2,
      angles 3 and 270. */
  const Defaults: Config := Config(36.0, DefaultStrokeWidth(36.0), 1300, 2.0, 3.0, 270.0)

  /** Everything the composable computes from its parameters. */
  datatype Spinner = Spinner(
    angles: Angles,
    sweepSpeed: real,
    rotationSpeed: real,
    extraRotationSpeed: real,
    phases: Phases,
    startAngles: StartAngles,
    extraRotationDurationMillis: int,
    startAngle: KeyframesSpec,
    sweepAngle: KeyframesSpec,
    extraRotateAngle: TweenSpec,
    arc: Arc)

  /** The derivation, in source order. Its contract is the schedule's
      consistency: keyframes inside one sweep time and in time order, a start
      angle that only moves forward from 0 to the pinned 360, a sweep angle that
      starts and ends at the minimum, holds the maximum at the second and third
      boundaries and stays within the corrected range. */
  function Derive(c: Config): (s: Spinner)
    requires ValidSweepTime(c.sweepTimeMillis)
    ensures ValidAngles(s.angles)
    ensures s.angles == CorrectAngles(c.minAngle, c.maxAngle)
    ensures 0 <= s.phases.p1 <= s.phases.p2 <= s.phases.p3 <= s.phases.p4 <= c.sweepTimeMillis
    ensures c.sweepTimeMillis - 3 <= s.phases.p4
    ensures s.startAngle.durationMillis == s.sweepAngle.durationMillis == c.sweepTimeMillis
    ensures WellTimed(s.startAngle) && WellTimed(s.sweepAngle)
    ensures |s.startAngle.frames| == |s.sweepAngle.frames| == 4
    ensures s.startAngle.initialValue == 0.0 && s.startAngle.targetValue == 360.0
    ensures s.startAngle.frames[3].value == 360.0
    ensures s.phases == PhaseTimes(s.angles, c.sweepTimeMillis)
    ensures s.sweepSpeed == SweepSpeed(s.angles, c.sweepTimeMillis)
    ensures s.rotationSpeed == RotationSpeed(s.angles, c.sweepTimeMillis)
    ensures s.extraRotationSpeed == ExtraRotationSpeed(c.rotationSpeedMultiplier, s.rotationSpeed)
    ensures s.extraRotationDurationMillis
            == ExtraRotationDurationMillis(c.rotationSpeedMultiplier, s.rotationSpeed)
    ensures s.startAngles == StartAngleKeys(s.phases, s.rotationSpeed)
    ensures s.startAngle.frames[0].value == s.startAngles.a1
    ensures s.startAngle.frames[1].value == s.startAngles.a2
    ensures s.startAngle.frames[2].value == s.startAngles.a3
    ensures s.startAngle.frames[0].atMillis == s.sweepAngle.frames[0].atMillis == s.phases.p1
    ensures s.startAngle.frames[1].atMillis == s.sweepAngle.frames[1].atMillis == s.phases.p2
    ensures s.startAngle.frames[2].atMillis == s.sweepAngle.frames[2].atMillis == s.phases.p3
    ensures s.startAngle.frames[3].atMillis == s.sweepAngle.frames[3].atMillis == s.phases.p4
    ensures ValuesNonDecreasing(s.startAngle)
    ensures s.sweepAngle.initialValue == s.sweepAngle.targetValue == s.angles.min
    ensures s.sweepAngle.frames[0].value == s.sweepAngle.frames[3].value == s.angles.min
    ensures s.sweepAngle.frames[1].value == s.sweepAngle.frames[2].value == s.angles.max
    ensures ValuesWithin(s.sweepAngle, s.angles.min, s.angles.max)
    ensures s.extraRotateAngle.durationMillis == s.extraRotationDurationMillis
    ensures s.extraRotateAngle.initialValue == 0.0 && s.extraRotateAngle.targetValue == 360.0
    ensures s.arc == ArcOf(c.size, c.strokeWidth)
    ensures s.arc.arcSize == c.size - c.strokeWidth
  {
    var t := c.sweepTimeMillis;
    var a := CorrectAngles(c.minAngle, c.maxAngle);
    var sweepSpeed := SweepSpeed(a, t);
    var rotationSpeed := RotationSpeed(a, t);
    var extraRotationSpeed := ExtraRotationSpeed(c.rotationSpeedMultiplier, rotationSpeed);
    var p := PhaseTimes(a, t);
    var keys := StartAngleKeys(p, rotationSpeed);
    StartAnglesBounded(a, t, p);
    var extraDuration := ExtraRotationDurationMillis(c.rotationSpeedMultiplier, rotationSpeed);
    var startTrack := StartAngleTrack(t, p, keys);
    var sweepTrack := SweepAngleTrack(t, a, p);
    assert WellTimed(startTrack) && ValuesNonDecreasing(startTrack);
    assert WellTimed(sweepTrack) && ValuesWithin(sweepTrack, a.min, a.max);
    Spinner(a, sweepSpeed, rotationSpeed, extraRotationSpeed, p, keys, extraDuration,
      startTrack, sweepTrack, ExtraRotateTrack(extraDuration), ArcOf(c.size, c.strokeWidth))
  }

  /** With the defaults, truncation leaves the last boundary two milliseconds
      short of the sweep time: boundaries 6, 559, 745, 1298. The arc's square
      has side 30 at (3, 3), and one extra turn takes 5032 ms. */
  lemma DefaultSchedule()
    ensures var s := Derive(Defaults);
            && s.angles == Angles(3.0, 270.0)
            && s.phases == Phases(6, 559, 745, 1298)
            && s.phases.p4 < Defaults.sweepTimeMillis
            && s.extraRotationDurationMillis == 5032
            && s.arc.arcSize == 30.0 && s.arc.topLeft == Offset(3.0, 3.0)
  {
    var a := Angles(3.0, 270.0);
    assert CorrectAngles(3.0, 270.0) == a;
    DefaultPhases();
    DefaultExtraRotation();
  }

  /** The default boundaries: 3900/627, 559.59, 745.6 and 1298.59 truncated. */
  lemma DefaultPhases()
    ensures PhaseTimes(Angles(3.0, 270.0), 1300) == Phases(6, 559, 745, 1298)
  {
    DefaultPhaseLengths();
    DefaultRunningSums();
  }

  /** Truncating after each addition: 6.22 gives 6, 6 + 553.59 gives 559,
      559 + 186.6 gives 745 and 745 + 553.59 gives 1298. */
  lemma DefaultRunningSums()
    ensures TruncatedRunningSums(0, [3900.0 / 627.0, 347100.0 / 627.0, 117000.0 / 627.0, 347100.0 / 627.0])
            == [6, 559, 745, 1298]
  {
    var l1, l2, l3 := 3900.0 / 627.0, 347100.0 / 627.0, 117000.0 / 627.0;
    TruncatedStep(0, l1, 6);
    TruncatedStep(6, l2, 559);
    TruncatedStep(559, l3, 745);
    TruncatedStep(745, l2, 1298);
    assert TruncatedRunningSums(745, [l2]) == [1298];
    assert TruncatedRunningSums(559, [l3, l2]) == [745, 1298] by { assert [l3, l2][1..] == [l2]; }
    assert TruncatedRunningSums(6, [l2, l3, l2]) == [559, 745, 1298] by { assert [l2, l3, l2][1..] == [l3, l2]; }
    assert [l1, l2, l3, l2][1..] == [l2, l3, l2];
  }

  /** One step of the running sums: `toInt()` of a boundary plus a length that
      lands in `[next, next + 1)` is `next`. */
  lemma TruncatedStep(previous: int, length: real, next: int)
    requires 0 <= next <= IntMax - 1
    requires next as real <= previous as real + length < next as real + 1.0
    ensures ToInt(previous as real + length) == next
  {
  }

  /** With the default angles and sweep time the cycle spans 627 degrees, so
      the phase lengths are 3, 267, 90 and 267 degrees times 1300 / 627 ms. */
  lemma DefaultPhaseLengths()
    ensures PhaseLengths(Angles(3.0, 270.0), 1300)
            == [3900.0 / 627.0, 347100.0 / 627.0, 117000.0 / 627.0, 347100.0 / 627.0]
  {
    var ls := PhaseLengths(Angles(3.0, 270.0), 1300);
    assert ls[0] * 627.0 == 3900.0 && ls[1] * 627.0 == 347100.0;
    assert ls[2] * 627.0 == 117000.0 && ls[3] * 627.0 == 347100.0;
  }

  /** The default rotation speed is 93/1300 degrees per millisecond, and with
      multiplier 2 one extra turn takes 468000/93 = 5032.26 ms, truncated. */
  lemma DefaultExtraRotation()
    ensures ExtraRotationDurationMillis(2.0, RotationSpeed(Angles(3.0, 270.0), 1300)) == 5032
  {
    var r := RotationSpeed(Angles(3.0, 270.0), 1300);
    assert r == 93.0 / 1300.0;
    assert ExtraRotationSpeed(2.0, r) == r;
    assert 360.0 / r == 468000.0 / 93.0;
  }

  /** A full-circle configuration (minimum 0, maximum 360) has no base
      rotation: every start-angle keyframe before the pinned 360 is 0, and the
      extra rotation's period saturates to the largest `Int`. */
  lemma FullCircleDoesNotRotate(c: Config)
    requires ValidSweepTime(c.sweepTimeMillis)
    requires CorrectAngles(c.minAngle, c.maxAngle) == Angles(0.0, 360.0)
    requires c.rotationSpeedMultiplier >= 1.0
    ensures var s := Derive(c);
            && s.rotationSpeed == 0.0
            && s.startAngles == StartAngles(0.0, 0.0, 0.0)
            && s.extraRotationDurationMillis == IntMax
  {
    var a := Angles(0.0, 360.0);
    var r := RotationSpeed(a, c.sweepTimeMillis);
    assert r == 0.0;
    var p := PhaseTimes(a, c.sweepTimeMillis);
    assert StartAngleKeys(p, r) == StartAngles(0.0, 0.0, 0.0);
    assert ExtraRotationSpeed(c.rotationSpeedMultiplier, r) == 0.0;
  }
}
