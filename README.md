# Circular seekbar: a verified model

A Dafny model of the logic inside an Android circular seekbar widget. It covers:

- **The progress model** (`BaseSeekbar`): the current, minimum and maximum progress, a single
  listener slot, and the thickness, thumb and touch settings.
- **The full-circle seekbar** (`CircularSeekbar`): a ring that starts drawing at one of four
  directions and turns the pointer's angle into progress.
- **The arc or "rainbow" seekbar** (`RainbowSeekbar`): an arc of configurable sweep, centred
  on the top of the circle with the gap at the bottom. A pointer up to 10 degrees past
  either end snaps the progress to that end.
- **The four start angles** (`StartAngle`) and their index lookup.
- **The earlier draft** of the library (directory `cicularseekbar`). Its progress must lie in
  [1, 100] and other values throw instead of being clamped.

Modules: one per source file, plus two shared modules (`Wrappers`, `SeekbarMath`):

| module | file | models |
|---|---|---|
| `Wrappers` | wrappers.dfy | `Option`, `Result` and `Outcome` values |
| `SeekbarMath` | seekbar_math.dfy | shared arithmetic: clamp, angle normalisation, hit band, ring layout, arc sweep |
| `StartAngles` | start_angle.dfy | StartAngle.kt |
| `Progress` | progress_model.dfy | BaseSeekbar.kt, as a class |
| `Circular` | circular_seekbar.dfy | CircularSeekbar.kt |
| `Rainbow` | rainbow_seekbar.dfy | RainbowSeekbar.kt |
| `DraftBase` | draft_base_seekbar.dfy | the draft BaseSeekbar.kt |
| `DraftCircular` | draft_circular_seekbar.dfy | the draft CircularSeekbar.kt |

The draft CircularSeekbar.kt nests its own `StartAngle` class (lines 256-272), with the same four
constants and the same `get`; `StartAngles` models both, and `DraftCircular` imports it.

How the model represents the source:

- **Types.** Kotlin `Float` is `real`.
- **Touch events.** A touch event is `TouchEvent(action, rawAngle, distance)`. `rawAngle` is
  the value of `atan2` in degrees, in [-180, 180]. `distance` is the pointer's distance from
  the centre. Both are inputs because the trigonometry is not modelled.
- **Listener callbacks.** The listener slot holds at most one listener identity. Each
  callback is appended to a `notifications` log as a `Notification(listener, event)`. With an
  empty slot, nothing is appended.
- **Error-log lines.** Each `Log.e` line is appended to a `warnings` log.
- **Inheritance.** Each variant holds its `BaseSeekbar` as a `const base` field. Its methods
  name the exact base fields they may change.
- **Exceptions.** `StartAngle.get` and the draft's `setProgress` throw. The model returns a
  `Result` or `Outcome` instead. A view whose construction would throw is never built.
- **Division by zero.** When `max == min`, or the sweep is 0, the source divides by zero.
  The model gives `None` there.

Behaviour of the code worth noting, which the model follows:

- Both released `onDraw`s bound the radius by `center.y - paddingRight`, not by the top
  padding. `ComputeLayout` does the same. `LayoutInsideContentBox` shows that this is harmless
  when the padding is uniform.
- The released `onTouchEvent` returns false, with no state change, for every action other
  than DOWN, UP and MOVE (CANCEL included).
- `StartAngle.get(0)` is `LEFT`. So a view built from attributes without a start angle starts
  at the left, while a view built in code starts at the top.
- A rainbow move exactly on a band's edge belongs to the band. The ranges are closed, as in
  the source.

## Model

| member | source | states |
|---|---|---|
| SeekbarMath.Clamp | circularseekbar/src/main/java/com/rajatsangrame/circularseekbar/BaseSeekbar.kt:103 | The result lies in [lo, hi] when lo <= hi. It equals the value when the value is in range, and one of the bounds otherwise. |
| SeekbarMath.ClampIdempotent | circularseekbar/src/main/java/com/rajatsangrame/circularseekbar/BaseSeekbar.kt:103 | Clamping a clamped value changes nothing. |
| SeekbarMath.PositiveAngle | circularseekbar/src/main/java/com/rajatsangrame/circularseekbar/CircularSeekbar.kt:70-73 | An atan2 angle becomes an angle in [0, 360) that differs from it by 0 or 360. |
| SeekbarMath.Atan2Of | circularseekbar/src/main/java/com/rajatsangrame/circularseekbar/CircularSeekbar.kt:68-69 | For a direction within one and a half turns of zero, its atan2 reading lies in (-180, 180]; for every direction the reading differs from it by whole turns. It is the pointer input the round-trip lemmas use. |
| SeekbarMath.TouchReach | circularseekbar/src/main/java/com/rajatsangrame/circularseekbar/CircularSeekbar.kt:63 | The touch reach is the larger of the touch padding and twice the thumb radius. |
| SeekbarMath.InBandMonotonic | circularseekbar/src/main/java/com/rajatsangrame/circularseekbar/CircularSeekbar.kt:60-65 | A wider touch reach never turns a hit into a miss. |
| SeekbarMath.InBandEitherReach | circularseekbar/src/main/java/com/rajatsangrame/circularseekbar/CircularSeekbar.kt:63-64 | The band widened by the larger reach is the union of the band widened by the touch padding and the band widened by twice the thumb radius. |
| SeekbarMath.ComputeLayout | circularseekbar/src/main/java/com/rajatsangrame/circularseekbar/CircularSeekbar.kt:33-44 | The centre is half the view size. The outer radius is the smaller of the two padded half-sizes, using the right padding vertically. The inner radius is half the thickness less. The arc rectangle is a square of side twice the inner radius, centred on the centre. |
| SeekbarMath.LayoutInsideContentBox | circularseekbar/src/main/java/com/rajatsangrame/circularseekbar/CircularSeekbar.kt:36 | With uniform padding, the ring's outer edge stays inside the padded content box. |
| SeekbarMath.ProgressSweep | circularseekbar/src/main/java/com/rajatsangrame/circularseekbar/CircularSeekbar.kt:45 | The sweep is defined exactly when max differs from min, and it is 0 at the minimum. |
| SeekbarMath.FractionInUnit | circularseekbar/src/main/java/com/rajatsangrame/circularseekbar/CircularSeekbar.kt:45 | For a value in [0, d] and d > 0, the fraction value/d lies in [0, 1]. It equals 1 only at d. |
| SeekbarMath.LerpInRange | circularseekbar/src/main/java/com/rajatsangrame/circularseekbar/CircularSeekbar.kt:113 | Interpolating between lo and hi by a fraction in [0, 1) stays in [lo, hi). A fraction of 0 gives lo. |
| SeekbarMath.ProgressSweepBounds | circularseekbar/src/main/java/com/rajatsangrame/circularseekbar/CircularSeekbar.kt:45 | On a non-empty range, an in-range progress draws a sweep in [0, full sweep]. The sweep is short of a full sweep exactly when the progress is below the maximum. |
| SeekbarMath.ThumbOnTrack | circularseekbar/src/main/java/com/rajatsangrame/circularseekbar/CircularSeekbar.kt:45-53 | For in-range progress on a non-empty range, the progress arc lies within the track. The thumb is drawn exactly when it is shown, always on the track between its start and its end, and at the end exactly for the maximum. |
| StartAngles.Degrees | circularseekbar/src/main/java/com/rajatsangrame/circularseekbar/StartAngle.kt:4-7 | TOP is -90, LEFT -180, RIGHT 0 and BOTTOM -270. |
| StartAngles.DegreesInjective | circularseekbar/src/main/java/com/rajatsangrame/circularseekbar/StartAngle.kt:4-7 | The four constants are distinct. |
| StartAngles.IndexOf | circularseekbar/src/main/java/com/rajatsangrame/circularseekbar/StartAngle.kt:10-14 | The attribute index of each constant is in 0..3: LEFT 0, TOP 1, RIGHT 2, BOTTOM 3. |
| StartAngles.Get | circularseekbar/src/main/java/com/rajatsangrame/circularseekbar/StartAngle.kt:9-16 | Lookup succeeds exactly for 0..3 and returns the constant of that index. Any other index fails with an invalid-index error carrying the index. |
| StartAngles.GetIsBijection | circularseekbar/src/main/java/com/rajatsangrame/circularseekbar/StartAngle.kt:9-16 | Get and IndexOf are inverse, so Get on 0..3 is a bijection onto the four constants. |
| Progress.FrameValue | circularseekbar/src/main/java/com/rajatsangrame/circularseekbar/BaseSeekbar.kt:115-116 | A frame at fraction 0 is the animation's start and at fraction 1 its end; an animation whose ends agree stays constant. |
| Progress.FrameInRange | circularseekbar/src/main/java/com/rajatsangrame/circularseekbar/BaseSeekbar.kt:111-119 | Every frame at a fraction in [0, 1] of an animation between two in-range values is in range. |
| Progress.BaseSeekbar.constructor | circularseekbar/src/main/java/com/rajatsangrame/circularseekbar/BaseSeekbar.kt:273-332 | Defaults apply without attributes. With attributes, the initial progress is clamped into the attribute [min, max]. The constructor's listener hears the initial progress once, with fromUser false. |
| Progress.BaseSeekbar.SetThickness | circularseekbar/src/main/java/com/rajatsangrame/circularseekbar/BaseSeekbar.kt:79-87 | Only the thickness changes. |
| Progress.BaseSeekbar.SetThumbRadius | circularseekbar/src/main/java/com/rajatsangrame/circularseekbar/BaseSeekbar.kt:226-232 | Only the thumb radius changes. |
| Progress.BaseSeekbar.SetTouchPadding | circularseekbar/src/main/java/com/rajatsangrame/circularseekbar/BaseSeekbar.kt:240-246 | Only the touch padding changes. |
| Progress.BaseSeekbar.SetShowThumb | circularseekbar/src/main/java/com/rajatsangrame/circularseekbar/BaseSeekbar.kt:250-252 | Only the thumb flag changes. |
| Progress.BaseSeekbar.SetEnableTouch | circularseekbar/src/main/java/com/rajatsangrame/circularseekbar/BaseSeekbar.kt:256-258 | Only the touch flag changes. |
| Progress.BaseSeekbar.SetProgressChangeListener | circularseekbar/src/main/java/com/rajatsangrame/circularseekbar/BaseSeekbar.kt:91-93 | The slot now holds exactly the given listener, or nothing for null. |
| Progress.BaseSeekbar.SetProgress | circularseekbar/src/main/java/com/rajatsangrame/circularseekbar/BaseSeekbar.kt:95-107 | The stored progress is the clamped value, so it is in range whenever min <= max. An in-range value is stored exactly. An out-of-range value adds one warning instead of throwing. The current listener hears the stored value once, with the caller's fromUser flag. |
| Progress.BaseSeekbar.SetAnimatedProgress | circularseekbar/src/main/java/com/rajatsangrame/circularseekbar/BaseSeekbar.kt:109-121 | The animation starts at the current progress. Its target is clamped into range: it is the target itself when in range, otherwise min or max. |
| Progress.BaseSeekbar.ApplyAnimationFrame | circularseekbar/src/main/java/com/rajatsangrame/circularseekbar/BaseSeekbar.kt:115-119 | A frame stores the animation's value at the given fraction, unchecked, and reports it with fromUser false. A frame of an animation between in-range values keeps the progress in range. |
| Progress.AnimatedFrameStaysInRange | circularseekbar/src/main/java/com/rajatsangrame/circularseekbar/BaseSeekbar.kt:109-121 | On an in-range seekbar, requesting an animation to any target and applying any frame keeps the progress in range. |
| Progress.BaseSeekbar.SetMaximumProgress | circularseekbar/src/main/java/com/rajatsangrame/circularseekbar/BaseSeekbar.kt:125-127 | The maximum is stored unconditionally, and nothing else changes. The range invariant then holds exactly when min <= progress <= the new maximum, so the call can break min < max. |
| Progress.BaseSeekbar.SetMinimumProgress | circularseekbar/src/main/java/com/rajatsangrame/circularseekbar/BaseSeekbar.kt:129-137 | A value not below the maximum changes nothing but adds a warning. A smaller value is stored without re-clamping the progress. min < max is preserved. |
| Progress.BaseSeekbar.SetPadding | circularseekbar/src/main/java/com/rajatsangrame/circularseekbar/BaseSeekbar.kt:266-271 | The padding is stored. Exactly one warning is added when the four sides differ, none otherwise. |
| Progress.BaseSeekbar.ApplyLayout | circularseekbar/src/main/java/com/rajatsangrame/circularseekbar/CircularSeekbar.kt:33-44 | The geometry fields become the layout of the current size, padding and thickness. |
| Progress.BaseSeekbar.InTouchBand | circularseekbar/src/main/java/com/rajatsangrame/circularseekbar/CircularSeekbar.kt:60-65 | The radial hit test holds exactly when the pointer's distance lies in the ring widened by the touch padding, or in the ring widened by twice the thumb radius. |
| Circular.ProgressAngle | circularseekbar/src/main/java/com/rajatsangrame/circularseekbar/CircularSeekbar.kt:67-81 | For an atan2 angle and any start angle, the result is in [0, 360). It is the pointer's displacement from the start direction, up to whole turns. |
| Circular.TouchProgress | circularseekbar/src/main/java/com/rajatsangrame/circularseekbar/CircularSeekbar.kt:113 | Angle 0 gives min, a whole turn would give max, and an empty range gives min everywhere. Its range is stated by TouchProgressInRange. |
| Circular.TouchProgressInRange | circularseekbar/src/main/java/com/rajatsangrame/circularseekbar/CircularSeekbar.kt:113 | A touch angle in [0, 360) maps into [min, max], and below max when min < max. Angle 0 maps to min. |
| Circular.ArcEndRoundTrip | circularseekbar/src/main/java/com/rajatsangrame/circularseekbar/CircularSeekbar.kt:45 | For progress in [min, max), a pointer at the end of the drawn progress arc sets the progress back to exactly that value. |
| Circular.FullArcTouchesAsMinimum | circularseekbar/src/main/java/com/rajatsangrame/circularseekbar/CircularSeekbar.kt:45 | The maximum is drawn as a full turn, whose end is the start direction, and touching there gives the minimum. |
| Circular.CircularSeekbar.Create | circularseekbar/src/main/java/com/rajatsangrame/circularseekbar/CircularSeekbar.kt:122-130 | Without attributes the start angle is TOP. With an attribute, construction succeeds exactly for an index in 0..3 and uses that index's constant. Otherwise it fails with the invalid-index error. |
| Circular.CircularSeekbar.SetStartAngle | circularseekbar/src/main/java/com/rajatsangrame/circularseekbar/CircularSeekbar.kt:25-27 | Only the start angle changes. |
| Circular.CircularSeekbar.IsProgressBarRegion | circularseekbar/src/main/java/com/rajatsangrame/circularseekbar/CircularSeekbar.kt:60-65 | A pointer hits exactly when its distance lies in the ring widened by the touch padding or by twice the thumb radius; the angle plays no part. |
| Circular.CircularSeekbar.OnTouchEvent | circularseekbar/src/main/java/com/rajatsangrame/circularseekbar/CircularSeekbar.kt:83-120 | With touch disabled, or for another action, the result is false and nothing changes. DOWN presses when the band is hit and otherwise keeps the pressed flag; it reports StartTouch and returns true. UP releases, reports StopTouch and returns true. A MOVE while released returns true and changes nothing. A MOVE while pressed stores min + angle*(max-min)/360, which is in [min, max) for an atan2 angle when min < max, and reports it with fromUser true. |
| Circular.CircularSeekbar.OnDraw | circularseekbar/src/main/java/com/rajatsangrame/circularseekbar/CircularSeekbar.kt:32-54 | The geometry is recomputed. The track is a full turn from the start angle. The progress arc is the progress's share of 360 degrees, in [0, 360] for in-range progress. The thumb is drawn exactly when shown, at the arc's end, which lies on the track. |
| Circular.HitTestIgnoresAngle | circularseekbar/src/main/java/com/rajatsangrame/circularseekbar/CircularSeekbar.kt:60-65 | The full circle's hit test depends only on the distance. |
| Rainbow.ArcStart | circularseekbar/src/main/java/com/rajatsangrame/circularseekbar/RainbowSeekbar.kt:146 | The arc starts half a sweep before the top, so the arc is centred on the top. |
| Rainbow.ProgressAngle | circularseekbar/src/main/java/com/rajatsangrame/circularseekbar/RainbowSeekbar.kt:60-76 | For an atan2 angle and a sweep in [0, 360], the result is in [0, 360). It is the pointer's displacement from the arc's start, up to whole turns. |
| Rainbow.TentativeProgress | circularseekbar/src/main/java/com/rajatsangrame/circularseekbar/RainbowSeekbar.kt:109-110 | The tentative progress is defined exactly for a non-zero sweep. |
| Rainbow.ClassifyMove | circularseekbar/src/main/java/com/rajatsangrame/circularseekbar/RainbowSeekbar.kt:115-121 | The three-way rule, in order. An in-range move carries a progress in [min, max]. Snapping to max needs the angle in [sweep, sweep+10], and snapping to min needs it in [350, 360]. A rejected angle lies in neither band, and no branch except the first has an in-range tentative value. |
| Rainbow.MoveTarget | circularseekbar/src/main/java/com/rajatsangrame/circularseekbar/RainbowSeekbar.kt:115-120 | An accepted move stores a progress in [min, max]. |
| Rainbow.InRangeMoveIsTheArc | circularseekbar/src/main/java/com/rajatsangrame/circularseekbar/RainbowSeekbar.kt:115-116 | On a non-empty range and a positive sweep, the in-range branch is taken exactly when the angle is at most the sweep. It stores min + angle*(max-min)/sweep. |
| Rainbow.PastTheArc | circularseekbar/src/main/java/com/rajatsangrame/circularseekbar/RainbowSeekbar.kt:117-121 | Past the arc, within 10 degrees the move snaps to max. Otherwise, in [350, 360] it snaps to min, and anywhere else it is rejected. |
| Rainbow.JustPastTheArcSnapsToMax | circularseekbar/src/main/java/com/rajatsangrame/circularseekbar/RainbowSeekbar.kt:117-118 | Five degrees past the arc snaps to the maximum. |
| Rainbow.NearFullTurnSnapsToMin | circularseekbar/src/main/java/com/rajatsangrame/circularseekbar/RainbowSeekbar.kt:119-120 | At 350 degrees, on an arc shorter than 340, the move snaps to the minimum. |
| Rainbow.FarPastTheArcIsRejected | circularseekbar/src/main/java/com/rajatsangrame/circularseekbar/RainbowSeekbar.kt:121 | Fifty degrees past an arc shorter than 300, the move is rejected. |
| Rainbow.AngleAtArcEnd | circularseekbar/src/main/java/com/rajatsangrame/circularseekbar/RainbowSeekbar.kt:60-76 | A pointer at the end of an arc of any length up to the sweep, short of a full turn, reads back as that length. |
| Rainbow.ShareOfSweepIsProgress | circularseekbar/src/main/java/com/rajatsangrame/circularseekbar/RainbowSeekbar.kt:109-110 | The tentative progress of a progress's share of the sweep is that progress. |
| Rainbow.ArcEndRoundTrip | circularseekbar/src/main/java/com/rajatsangrame/circularseekbar/RainbowSeekbar.kt:144 | A pointer at the end of the drawn progress arc is an in-range move back to the same progress. On a full-turn arc the maximum is excluded. |
| Rainbow.RainbowSeekbar.constructor | circularseekbar/src/main/java/com/rajatsangrame/circularseekbar/RainbowSeekbar.kt:158-169 | The sweep angle is the attribute as given, unclamped, or 270 without one. |
| Rainbow.RainbowSeekbar.SetSweepAngle | circularseekbar/src/main/java/com/rajatsangrame/circularseekbar/RainbowSeekbar.kt:28-37 | The sweep is clamped into [0, 360], and a value already there is stored exactly. One warning is added exactly when the value is outside [1, 360]. |
| Rainbow.RainbowSeekbar.IsProgressBarRegion | circularseekbar/src/main/java/com/rajatsangrame/circularseekbar/RainbowSeekbar.kt:48-55 | A pointer hits exactly when its distance lies in the ring widened by the touch padding or by twice the thumb radius, and its angle from the arc's start is in [0, sweep]. |
| Rainbow.WindowHitIsInRangeMove | circularseekbar/src/main/java/com/rajatsangrame/circularseekbar/RainbowSeekbar.kt:48-55 | A pointer inside the hit window is, on a non-empty range and a positive sweep, an in-range move that stores min + angle*(max-min)/sweep. |
| Rainbow.RainbowSeekbar.OnTouchEvent | circularseekbar/src/main/java/com/rajatsangrame/circularseekbar/RainbowSeekbar.kt:79-129 | The same DOWN, UP and released-MOVE machine as the full circle; the hit test adds the angle window [0, sweep]. A pressed MOVE follows ClassifyMove. A rejected move returns false and changes nothing. An accepted one stores MoveTarget, reports it with fromUser true and returns true. The progress never leaves [min, max] once inside it. |
| Rainbow.RainbowSeekbar.OnDraw | circularseekbar/src/main/java/com/rajatsangrame/circularseekbar/RainbowSeekbar.kt:131-156 | The track spans the sweep from ArcStart. The progress arc is the progress's share of the sweep, in [0, sweep] for in-range progress. The thumb is drawn exactly when shown, on the track. |
| DraftBase.BaseSeekbar.constructor | cicularseekbar/src/main/java/com/rajatsangrame/circularseekbar/BaseSeekbar.kt:195-246 | Defaults apply without attributes. With attributes, the progress is stored with no range check. The listener hears it once. |
| DraftBase.BaseSeekbar.SetThickness | cicularseekbar/src/main/java/com/rajatsangrame/circularseekbar/BaseSeekbar.kt:73-81 | Only the thickness changes. |
| DraftBase.BaseSeekbar.SetThumbRadius | cicularseekbar/src/main/java/com/rajatsangrame/circularseekbar/BaseSeekbar.kt:133-139 | Only the thumb radius changes. |
| DraftBase.BaseSeekbar.SetThumbPadding | cicularseekbar/src/main/java/com/rajatsangrame/circularseekbar/BaseSeekbar.kt:147-153 | Only the thumb padding changes. |
| DraftBase.BaseSeekbar.SetShowThumb | cicularseekbar/src/main/java/com/rajatsangrame/circularseekbar/BaseSeekbar.kt:157-159 | Only the thumb flag changes. |
| DraftBase.BaseSeekbar.SetEnableTouch | cicularseekbar/src/main/java/com/rajatsangrame/circularseekbar/BaseSeekbar.kt:174-176 | Only the touch flag changes. |
| DraftBase.BaseSeekbar.SetProgressChangeListener | cicularseekbar/src/main/java/com/rajatsangrame/circularseekbar/BaseSeekbar.kt:85-87 | The slot holds only the new listener. |
| DraftBase.BaseSeekbar.RemoveProgressChangeListener | cicularseekbar/src/main/java/com/rajatsangrame/circularseekbar/BaseSeekbar.kt:89-91 | The slot is emptied. |
| DraftBase.BaseSeekbar.SetProgress | cicularseekbar/src/main/java/com/rajatsangrame/circularseekbar/BaseSeekbar.kt:93-102 | The call succeeds exactly for values in [1, 100]. A rejected value fails with an error carrying it, leaves the progress unchanged and notifies no one. An accepted value is stored exactly and reported once with the caller's fromUser flag. |
| DraftBase.BaseSeekbar.SetAnimatedProgress | cicularseekbar/src/main/java/com/rajatsangrame/circularseekbar/BaseSeekbar.kt:104-116 | The animation runs from the current progress to the target as given, neither checked nor clamped. |
| DraftBase.BaseSeekbar.ApplyAnimationFrame | cicularseekbar/src/main/java/com/rajatsangrame/circularseekbar/BaseSeekbar.kt:110-114 | A frame stores the animation's value at the given fraction, unchecked, and reports it with fromUser false. Only an animation between two accepted values is sure to produce accepted values. |
| DraftBase.BaseSeekbar.SetPadding | cicularseekbar/src/main/java/com/rajatsangrame/circularseekbar/BaseSeekbar.kt:188-193 | The padding is stored, with one warning exactly when the sides differ. |
| DraftBase.RemovedListenerHearsNothing | cicularseekbar/src/main/java/com/rajatsangrame/circularseekbar/BaseSeekbar.kt:89-91 | After the listener is removed, setProgress leaves the notification log unchanged. |
| DraftBase.NewestListenerHearsProgress | cicularseekbar/src/main/java/com/rajatsangrame/circularseekbar/BaseSeekbar.kt:85-87 | After two registrations, an accepted setProgress reaches only the second listener. |
| DraftCircular.SweepAngle | cicularseekbar/src/main/java/com/rajatsangrame/circularseekbar/CircularSeekbar.kt:203-217 | For an atan2 angle, the result lies in [0, 360) for every start angle. It is the same rule as the released full circle. |
| DraftCircular.MoveProgress | cicularseekbar/src/main/java/com/rajatsangrame/circularseekbar/CircularSeekbar.kt:248 | An angle in [0, 360) gives a progress in [0, 100). It is the released touch mapping on the fixed range [0, 100]. |
| DraftCircular.DrawSweep | cicularseekbar/src/main/java/com/rajatsangrame/circularseekbar/CircularSeekbar.kt:102 | A progress in [0, 100] draws an arc in [0, 360]. It is the released sweep on the fixed range [0, 100]. |
| DraftCircular.ArcEndRoundTrip | cicularseekbar/src/main/java/com/rajatsangrame/circularseekbar/CircularSeekbar.kt:240-251 | For progress in [0, 100), touching the end of the drawn arc stores the same progress. |
| DraftCircular.TouchStoresWhatSetterRejects | cicularseekbar/src/main/java/com/rajatsangrame/circularseekbar/CircularSeekbar.kt:248 | A pointer at the start direction stores 0, a value that setProgress rejects. |
| DraftCircular.FullProgressWrapsToZero | cicularseekbar/src/main/java/com/rajatsangrame/circularseekbar/CircularSeekbar.kt:102 | Progress 100 draws a full turn, and touching its end stores 0. |
| DraftCircular.CircularSeekbar.constructor | cicularseekbar/src/main/java/com/rajatsangrame/circularseekbar/CircularSeekbar.kt:44-58 | The field defaults: progress 0.1, start angle TOP, and sizes scaled by the display density. |
| DraftCircular.CircularSeekbar.Create | cicularseekbar/src/main/java/com/rajatsangrame/circularseekbar/CircularSeekbar.kt:274-321 | Construction succeeds without attributes. With attributes it succeeds exactly for a start index in 0..3, and then stores every attribute as given, the progress unchecked. Otherwise it fails with the invalid-index error. |
| DraftCircular.CircularSeekbar.SetStartAngle | cicularseekbar/src/main/java/com/rajatsangrame/circularseekbar/CircularSeekbar.kt:113-115 | Only the start angle changes. |
| DraftCircular.CircularSeekbar.SetThickness | cicularseekbar/src/main/java/com/rajatsangrame/circularseekbar/CircularSeekbar.kt:117-125 | Only the thickness changes. |
| DraftCircular.CircularSeekbar.SetThumbRadius | cicularseekbar/src/main/java/com/rajatsangrame/circularseekbar/CircularSeekbar.kt:164-170 | Only the thumb radius changes. |
| DraftCircular.CircularSeekbar.SetThumbPadding | cicularseekbar/src/main/java/com/rajatsangrame/circularseekbar/CircularSeekbar.kt:176-182 | Only the thumb padding changes. |
| DraftCircular.CircularSeekbar.SetShowThumb | cicularseekbar/src/main/java/com/rajatsangrame/circularseekbar/CircularSeekbar.kt:184-186 | Only the thumb flag changes. |
| DraftCircular.CircularSeekbar.SetEnableTouch | cicularseekbar/src/main/java/com/rajatsangrame/circularseekbar/CircularSeekbar.kt:188-190 | Only the touch flag changes. |
| DraftCircular.CircularSeekbar.IsProgressBarRegion | cicularseekbar/src/main/java/com/rajatsangrame/circularseekbar/CircularSeekbar.kt:196-201 | A pointer hits exactly when its distance lies in the ring widened by the thumb padding or by twice the thumb radius. |
| DraftCircular.CircularSeekbar.SetPadding | cicularseekbar/src/main/java/com/rajatsangrame/circularseekbar/CircularSeekbar.kt:80-85 | The padding is stored, with one warning exactly when the sides differ. |
| DraftCircular.CircularSeekbar.SetProgress | cicularseekbar/src/main/java/com/rajatsangrame/circularseekbar/CircularSeekbar.kt:127-134 | The call succeeds exactly for values in [1, 100]. A rejected value fails and leaves the progress unchanged. An accepted value is stored exactly. |
| DraftCircular.CircularSeekbar.SetAnimatedProgress | cicularseekbar/src/main/java/com/rajatsangrame/circularseekbar/CircularSeekbar.kt:138-149 | The animation runs from the current progress to the target as given, with no check. |
| DraftCircular.CircularSeekbar.ApplyAnimationFrame | cicularseekbar/src/main/java/com/rajatsangrame/circularseekbar/CircularSeekbar.kt:144-147 | A frame stores the animation's value at the given fraction, unchecked. An animation whose ends lie in [0, 100] stays there. |
| DraftCircular.CircularSeekbar.OnTouchEvent | cicularseekbar/src/main/java/com/rajatsangrame/circularseekbar/CircularSeekbar.kt:219-254 | With touch disabled, the result is false and nothing changes. DOWN presses only on a hit and returns true. UP releases. A MOVE while released changes nothing. A MOVE while pressed stores the angle's share of [0, 100], which is in [0, 100) for an atan2 angle. Any other action returns the View's own answer. |
| DraftCircular.CircularSeekbar.OnDraw | cicularseekbar/src/main/java/com/rajatsangrame/circularseekbar/CircularSeekbar.kt:87-111 | The geometry is recomputed. The progress arc is 360*progress/100, in [0, 360] for progress in [0, 100]. The thumb is drawn exactly when shown, at the arc's end, on the track. |

## Left out

- The animator's timing and easing. Only the request (`SetAnimatedProgress`) and a single frame at a given eased fraction (`ApplyAnimationFrame`) are modelled.
- `atan2`, `sqrt`, `pow`, `cos` and `sin`. The pointer's angle and distance are inputs, and the thumb's pixel position is not computed; the thumb is located by its angle only.
- IEEE float arithmetic. Values are exact reals, so rounding is not captured. Examples are an angle just below 0 that becomes 360f after adding 360, and the NaN or infinity of a division by zero, which is shown as `None`.
- Paints, shaders, gradients, colours, stroke caps, round corners (`setRoundCorners`) and the canvas calls. These are rendering.
- Density conversion (`dpToPx`, `pxToDp`). Setters take sizes in pixels, and the constructors take the display density as a parameter.
- Reading styled attributes. The constructors take the already-read values as an `Attributes` record, or `None` when the view has no attributes.
- The text of error-log lines, `invalidate()` and `View.setPadding`'s own effects beyond storing the padding.
- The listener interface and its Java adapter. Their effect is the notification log.
- The getters. They return a field, converted back to dp where the source does so.
- The sample activities. They are UI glue.
- The draft RainbowSeekbar. It has only unimplemented stubs.
- The draft BaseSeekbar's abstract touch and draw members and its geometry fields. The draft module has no subclass that implements them.
- DraftCircular.CircularSeekbar.OnTouchEvent: the View's default touch handling, reached for actions other than DOWN, UP and MOVE, is a parameter (`viewResult`) rather than modelled.
