# LoadingSpinner motion model

A Dafny model of the arithmetic inside the `LoadingSpinner` composable of the
LoadingSpinner Compose Multiplatform project. From its parameters (size, stroke
width, sweep time, rotation-speed multiplier, minimum and maximum sweep angle)
the composable:

- corrects the two angles into an ordered range inside one turn;
- derives the sweep speed, the rotation speed and the extra rotation speed;
- computes four phase boundaries as truncated running sums;
- computes three start-angle keyframes as running sums;
- computes the period of an extra full-turn rotation;
- hands two keyframe tables (`startAngle`, `sweepAngle`) and one tween
  (`extraRotateAngle`) to the animation engine;
- places the arc's bounding square on the canvas.

The model is a chain of pure functions, as the source is a chain of immutable
`val` bindings:

- `kotlin_numbers.dfy`, module `KotlinNumbers`: the 32-bit `Int` range and
  `Float.toInt()`.
- `spinner_motion.dfy`, module `SpinnerMotion`: angle correction, speeds, phase
  boundaries, start angles, the extra-rotation period and the keyframe tables.
- `arc_geometry.dfy`, module `ArcGeometry`: the arc's bounding square.
- `loading_spinner.dfy`, module `LoadingSpinner`: the configuration, the
  defaults, the whole derivation `Derive`, and the default and full-circle
  scenarios.

Numeric abstraction. Kotlin `Float` is modelled by exact `real`, with no
rounding. `Float.toInt()` is modelled by `KotlinNumbers.ToInt`: it truncates
toward zero and saturates at `Int.MIN_VALUE` / `Int.MAX_VALUE`. Every phase
boundary is computed from non-negative values no larger than the sweep time. For
those values `ToInt` is the floor (`KotlinNumbers.ToIntIsFloor`). The one place
where a float division by zero can occur is the extra-rotation period. There it
is modelled by its IEEE outcome. `360f / +0f` is +Infinity and saturates to
`Int.MAX_VALUE`; `360f / -0f` is -Infinity and saturates to `Int.MIN_VALUE`. The
zero speed is negative exactly when the multiplier is below 1, because the
rotation speed is never negative.

Phase boundaries. The source writes the four boundaries as four `val`
bindings, each `toInt()` of the previous boundary plus the next phase length.
The model states that chain once, as a fold over the list of the four lengths
(`SpinnerMotion.TruncatedRunningSums`); `SpinnerMotion.PhaseTimes` applies it to
the lengths in cycle order and reads off the four results.

Three consequences of the code that are easy to misread:

- The last phase boundary is not always the sweep time. Each running sum is
  truncated, so the defaults give 6, 559, 745 and 1298 for a sweep time of 1300
  (`LoadingSpinner.DefaultSchedule`). The keyframe tables still last the full
  sweep time.
- The extra-rotation period is `360 / extraRotationSpeed` truncated with
  `toInt()`, not the exact quotient.
- For minimum 400 and maximum 50 the minimum is first reset to 0. The maximum
  50 is then kept, because it is checked against the corrected minimum
  (`SpinnerMotion.CorrectionOrder`).

## Model

| member | source | states |
|---|---|---|
| `KotlinNumbers.Trunc` | composeApp/src/commonMain/kotlin/com/component/loadingspinner/App.kt:55 | truncation toward zero: for x ≥ 0 the result r satisfies r ≤ x < r + 1; for x < 0 it satisfies r − 1 < x ≤ r |
| `KotlinNumbers.ToInt` | composeApp/src/commonMain/kotlin/com/component/loadingspinner/App.kt:55 | `Float.toInt()`: the result lies in the `Int` range; inside that range it is the truncation of x; at or beyond either end it saturates to that end; it has the sign of x |
| `KotlinNumbers.ToIntIsFloor` | composeApp/src/commonMain/kotlin/com/component/loadingspinner/App.kt:54-61 | on a non-negative value within the `Int` range, `toInt()` is the floor |
| `SpinnerMotion.CorrectMinAngle` | composeApp/src/commonMain/kotlin/com/component/loadingspinner/App.kt:45 | the result lies in [0, 360]; it equals the parameter exactly when the parameter is in [0, 360], and is 0 otherwise |
| `SpinnerMotion.CorrectMaxAngle` | composeApp/src/commonMain/kotlin/com/component/loadingspinner/App.kt:46 | for a corrected minimum, the result lies in [min, 360]; it equals the parameter exactly when the parameter is in [0, 360] and not below the corrected minimum, and is 360 otherwise |
| `SpinnerMotion.CorrectAngles` | composeApp/src/commonMain/kotlin/com/component/loadingspinner/App.kt:45-46 | after correction 0 ≤ min ≤ max ≤ 360; the maximum is checked against the corrected minimum; an already valid pair passes through unchanged |
| `SpinnerMotion.CorrectAnglesIdempotent` | composeApp/src/commonMain/kotlin/com/component/loadingspinner/App.kt:45-46 | correcting a corrected pair changes nothing |
| `SpinnerMotion.CorrectionOrder` | composeApp/src/commonMain/kotlin/com/component/loadingspinner/App.kt:45-46 | (400, 50) becomes (0, 50), because the check uses the corrected minimum; (100, 50) becomes (100, 360); (−1, 361) becomes (0, 360) |
| `SpinnerMotion.CycleDegrees` | composeApp/src/commonMain/kotlin/com/component/loadingspinner/App.kt:49 | the numerator 360 + max − min lies in [360, 720]; it is the sum of the four phases' degree spans min, max − min, 360 − max and max − min |
| `SpinnerMotion.SweepSpeed` | composeApp/src/commonMain/kotlin/com/component/loadingspinner/App.kt:49 | for corrected angles and a positive sweep time, sweepSpeed > 0, and over one sweep time it covers exactly the cycle's degrees |
| `SpinnerMotion.RotationSpeed` | composeApp/src/commonMain/kotlin/com/component/loadingspinner/App.kt:50 | rotationSpeed ≥ 0; over one sweep time it turns by 360 + min − max ≤ 360; it is zero exactly for the full circle (0, 360) |
| `SpinnerMotion.ExtraRotationSpeed` | composeApp/src/commonMain/kotlin/com/component/loadingspinner/App.kt:51 | positive exactly when multiplier > 1 and rotationSpeed > 0; negative exactly when multiplier < 1 and rotationSpeed > 0; base plus extra equals multiplier × base |
| `SpinnerMotion.PhaseLength` | composeApp/src/commonMain/kotlin/com/component/loadingspinner/App.kt:54-61 | `degrees / (360 × sweepSpeed)` equals degrees × sweepTime / (360 + max − min), and is non-negative for non-negative degrees |
| `SpinnerMotion.PhaseLengthsFillSweepTime` | composeApp/src/commonMain/kotlin/com/component/loadingspinner/App.kt:54-61 | the four untruncated phase lengths add up to exactly the sweep time |
| `SpinnerMotion.PhaseLengths` | composeApp/src/commonMain/kotlin/com/component/loadingspinner/App.kt:54-61 | in cycle order, the lengths are the spans min, max − min, 360 − max and again max − min degrees, each times sweepTime / (360 + max − min) (the fourth equals the second); they are non-negative and add up to exactly the sweep time |
| `SpinnerMotion.SumNonNegative` | composeApp/src/commonMain/kotlin/com/component/loadingspinner/App.kt:54-61 | a sum of non-negative phase lengths is non-negative, so each running sum stays within the `Int` range |
| `SpinnerMotion.TruncatedRunningSums` | composeApp/src/commonMain/kotlin/com/component/loadingspinner/App.kt:54-61 | defined as the chain in which each boundary is `toInt()` of the previous boundary plus the next length; its contract gives one boundary per length, and its bounds are proved by `SpinnerMotion.RunningSumsNearExact` |
| `SpinnerMotion.RunningSumsNearExact` | composeApp/src/commonMain/kotlin/com/component/loadingspinner/App.kt:54-61 | from a non-negative start over non-negative lengths within the `Int` range, the truncated running sums never decrease, never fall below the start, and the k-th lies at or before the exact running sum and less than k ms behind it |
| `SpinnerMotion.PhaseTimes` | composeApp/src/commonMain/kotlin/com/component/loadingspinner/App.kt:54-61 | the truncated boundaries satisfy 0 ≤ phase1 ≤ phase2 ≤ phase3 ≤ phase4 ≤ sweepTime and phase4 ≥ sweepTime − 3; phase k is at or before the exact running sum of the first k phase lengths and less than k ms behind it |
| `SpinnerMotion.StartAngleKeys` | composeApp/src/commonMain/kotlin/com/component/loadingspinner/App.kt:63-68 | the running sums telescope: the start angle at boundary k is phase_k × rotationSpeed |
| `SpinnerMotion.StartAnglesBounded` | composeApp/src/commonMain/kotlin/com/component/loadingspinner/App.kt:63-68 | for corrected angles and ordered boundaries within the sweep time, 0 ≤ a1 ≤ a2 ≤ a3 ≤ 360 + min − max ≤ 360, so the pinned final 360 is never below an earlier keyframe |
| `SpinnerMotion.StartAnglesOrdered` | composeApp/src/commonMain/kotlin/com/component/loadingspinner/App.kt:63-68 | ordered boundaries within the sweep time and a non-negative speed give ordered start angles, bounded by the turn made in one sweep time |
| `SpinnerMotion.ExtraRotationDurationMillis` | composeApp/src/commonMain/kotlin/com/component/loadingspinner/App.kt:75 | for a positive extra speed e, the period is the whole milliseconds in 360 / e, saturated at `Int.MAX_VALUE`, and it is at least 1 exactly when e ≤ 360; for a negative speed the period is ≤ 0 and is 360 / e truncated toward zero, saturated at `Int.MIN_VALUE`; for a zero speed it saturates to `Int.MAX_VALUE` when the multiplier is ≥ 1 and to `Int.MIN_VALUE` otherwise |
| `SpinnerMotion.QuotientAtLeastOne` | composeApp/src/commonMain/kotlin/com/component/loadingspinner/App.kt:75 | for a positive speed, one turn takes at least a millisecond exactly when the speed is at most 360°/ms |
| `SpinnerMotion.StartAngleTrack` | composeApp/src/commonMain/kotlin/com/component/loadingspinner/App.kt:79-92 | goes from 0 to 360 over one sweep time; the keyframes fall at phase1, phase2, phase3 and phase4 and carry the start angles a1, a2, a3 and the pinned 360; ordered boundaries make it well timed; ordered start angles up to 360 make its values non-decreasing |
| `SpinnerMotion.SweepAngleTrack` | composeApp/src/commonMain/kotlin/com/component/loadingspinner/App.kt:93-106 | goes min → min → max → max → min with keyframes at phase1 .. phase4: it starts and ends at min, holds max at phase2 and phase3, is well timed for ordered boundaries, and every value lies in [min, max] |
| `SpinnerMotion.ExtraRotateTrack` | composeApp/src/commonMain/kotlin/com/component/loadingspinner/App.kt:107-116 | one full turn, from 0 to 360, per extra-rotation period |
| `ArcGeometry.ArcOf` | composeApp/src/commonMain/kotlin/com/component/loadingspinner/App.kt:117-126 | the side is size − strokeWidth; topLeft is (strokeWidth/2, strokeWidth/2); the square is centred on the canvas centre; a centred stroke reaches the canvas edges exactly; the box fits in the canvas when 0 ≤ strokeWidth ≤ size |
| `LoadingSpinner.DefaultStrokeWidth` | composeApp/src/commonMain/kotlin/com/component/loadingspinner/App.kt:37 | the default stroke width is a sixth of the size |
| `LoadingSpinner.Derive` | composeApp/src/commonMain/kotlin/com/component/loadingspinner/App.kt:44-126 | the whole schedule: the angles are corrected; the sweep speed, rotation speed, extra rotation speed, phases and extra period are the ones `SweepSpeed`, `RotationSpeed`, `ExtraRotationSpeed`, `PhaseTimes` and `ExtraRotationDurationMillis` characterise; 0 ≤ phase1 ≤ phase2 ≤ phase3 ≤ phase4 ≤ sweepTime and sweepTime − 3 ≤ phase4; both tables last one sweep time, have their keyframes at phase1 .. phase4 and are well timed; the start angle runs 0 → the running-sum angles (phase_k × rotationSpeed, through `StartAngleKeys`) → pinned 360 without decreasing; the sweep angle starts and ends at min, holds max at phase2 and phase3, and stays within [min, max]; the extra tween turns 0 → 360 over the extra period; the arc is `ArcOf(size, strokeWidth)`: side size − strokeWidth, centred on the canvas, top-left corner half a stroke in |
| `LoadingSpinner.DefaultSchedule` | composeApp/src/commonMain/kotlin/com/component/loadingspinner/App.kt:35-126 | with the defaults: angles (3, 270); boundaries 6, 559, 745, 1298, so phase4 < sweepTime; extra period 5032 ms; arc side 30 at (3, 3) |
| `LoadingSpinner.DefaultPhases` | composeApp/src/commonMain/kotlin/com/component/loadingspinner/App.kt:54-61 | the default boundaries are 6, 559, 745 and 1298 |
| `LoadingSpinner.DefaultPhaseLengths` | composeApp/src/commonMain/kotlin/com/component/loadingspinner/App.kt:49-61 | with angles (3, 270) and 1300 ms the cycle spans 627°, and the phase lengths are 3, 267, 90 and 267 degrees times 1300/627 ms |
| `LoadingSpinner.DefaultRunningSums` | composeApp/src/commonMain/kotlin/com/component/loadingspinner/App.kt:54-61 | truncating after each addition turns those lengths into the boundaries 6, 559, 745 and 1298 |
| `LoadingSpinner.DefaultExtraRotation` | composeApp/src/commonMain/kotlin/com/component/loadingspinner/App.kt:49-75 | with the default angles and multiplier 2, one extra turn takes 5032 ms |
| `LoadingSpinner.FullCircleDoesNotRotate` | composeApp/src/commonMain/kotlin/com/component/loadingspinner/App.kt:50-75 | for corrected angles (0, 360) and a multiplier ≥ 1, the rotation speed is 0; the first three start-angle keyframes are 0; the extra period saturates to `Int.MAX_VALUE` |

## Left out

- The animation engine (`rememberInfiniteTransition`, `animateFloat`, `keyframes`, `tween`, `LinearEasing`, `RepeatMode`): how the tables are interpolated over time and restarted belongs to the Compose library. The tables are modelled as data only.
- Rendering (`Canvas`, `drawArc`, `Modifier.rotate`, `Stroke`, `StrokeCap`, `MaterialTheme`): these are calls into the UI library. The colour and the modifier parameters are therefore not part of `LoadingSpinner.Config`.
- `remember {}` memoization: the blocks have no keys, so the values are computed once and never recomputed when the parameters change. This is framework behaviour. The model computes the schedule from the configuration it is given.
- `LocalDensity` / `toPx()`: density conversion is a foreign call. `ArcGeometry.ArcOf` and `LoadingSpinner.Config` take lengths in pixels.
- IEEE `Float` rounding and NaN inputs: reals are exact. A NaN angle would fail the range test and be reset; this is not modelled.
- LoadingSpinner.Derive: requires a sweep time in 1..`Int.MAX_VALUE`. A non-positive sweep time is a caller error: zero makes lines 49-50 divide by zero, and a negative one gives negative rates, negative phase lengths and negative keyframe times. The model does not describe either case.
- SpinnerMotion.StartAnglesBounded: holds for any ordered boundaries within the sweep time. `LoadingSpinner.Derive` applies it to the boundaries `PhaseTimes` produces.
- Dead values: `phase4StartAngle` is a lambda that is never invoked. `phase5Duration` to `phase8Duration` are never read. Nothing depends on them.
- `composeApp/src/desktopMain/.../main.kt` (window launcher), `shared/.../Greeting.kt` and `shared/.../Platform.wasmJs.kt` (platform-name string), and `server/build.gradle.kts` (build configuration) are not part of this model: they carry no logic of the spinner.
