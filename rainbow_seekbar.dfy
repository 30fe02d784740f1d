/** The arc ("rainbow") seekbar (RainbowSeekbar.kt): an arc of a configurable sweep angle,
    centred on the top of the circle with the gap at the bottom, with a 10 degree tolerance
    past either end of the arc within which a move snaps to that end. */
module Rainbow {
  import opened Wrappers
  import opened SeekbarMath
  import opened StartAngles
  import opened Progress

  const DEFAULT_SWEEP_ANGLE: real := 270.0

  /** How far past either end of the arc a move still snaps to that end, in degrees. */
  const SWEEP_ANGLE_PADDING: real := 10.0

  /** Where the arc is drawn from: half the sweep back from the top, so that the arc is
      centred on the top and the gap of 360 - sweep degrees on the bottom. */
  function ArcStart(sweep: real): (start: real)
    ensures start + sweep / 2.0 == Degrees(Top)
  {
    -(sweep / 2.0) - 90.0
  }

  /** getProgressAngle: the pointer's angle measured from BOTTOM, less half the gap; that
      is, its clockwise displacement from the start of the drawn arc. For an atan2
      angle and a sweep in [0, 360] it lies in [0, 360). */
  function ProgressAngle(sweep: real, raw: real): (a: real)
    ensures IsAtan2Degrees(raw) && InRange(sweep, 0.0, 360.0) ==> 0.0 <= a < 360.0
    ensures a - (raw - ArcStart(sweep)) in {-360.0, 0.0, 360.0}
  {
    var positive := PositiveAngle(raw);
    var fromBottom := positive - (360.0 + Degrees(Bottom));
    var adjusted := fromBottom - (360.0 - sweep) / 2.0;
    if adjusted < 0.0 then adjusted + 360.0 else adjusted
  }

  /** The progress a move computes before the tolerance rules: the angle's share of the
      sweep, laid onto [min, max]. None for a zero sweep, where the float division gives an
      infinity or NaN that no range test accepts. */
  function TentativeProgress(angle: real, sweep: real, min: real, max: real): (t: Option<real>)
    ensures t.Some? <==> sweep != 0.0
  {
    if sweep == 0.0 then None else Some(min + angle * (max - min) / sweep)
  }

  /** The three-way rule of a pressed move, in the order the source tests it. */
  datatype MoveOutcome = InRangeMove(progress: real) | SnapToMax | SnapToMin | Rejected

  function ClassifyMove(angle: real, sweep: real, min: real, max: real): (o: MoveOutcome)
    ensures o.InRangeMove? ==> InRange(o.progress, min, max)
    ensures o.SnapToMax? ==> InRange(angle, sweep, sweep + SWEEP_ANGLE_PADDING)
    ensures o.SnapToMin? ==> InRange(angle, 360.0 - SWEEP_ANGLE_PADDING, 360.0)
    ensures o.Rejected? ==>
      && !InRange(angle, sweep, sweep + SWEEP_ANGLE_PADDING)
      && !InRange(angle, 360.0 - SWEEP_ANGLE_PADDING, 360.0)
    ensures !o.InRangeMove? ==> !(TentativeProgress(angle, sweep, min, max).Some?
                                  && InRange(TentativeProgress(angle, sweep, min, max).value, min, max))
  {
    var t := TentativeProgress(angle, sweep, min, max);
    if t.Some? && InRange(t.value, min, max) then InRangeMove(t.value)
    else if InRange(angle, sweep, sweep + SWEEP_ANGLE_PADDING) then SnapToMax
    else if InRange(angle, 360.0 - SWEEP_ANGLE_PADDING, 360.0) then SnapToMin
    else Rejected
  }

  /** The progress an accepted move stores: the tentative progress, or one end of the range. */
  function MoveTarget(o: MoveOutcome, min: real, max: real): (p: real)
    requires !o.Rejected?
    ensures o.InRangeMove? ==> p == o.progress
    ensures min <= max && (o.InRangeMove? ==> InRange(o.progress, min, max)) ==> InRange(p, min, max)
  {
    match o
    case InRangeMove(p) => p
    case SnapToMax => max
    case SnapToMin => min
  }

  /** On a non-empty range and a positive sweep, the in-range branch is taken exactly for
      the angles on the drawn arc. */
  lemma {:induction false} InRangeMoveIsTheArc(angle: real, sweep: real, min: real, max: real)
    requires min < max && 0.0 < sweep && 0.0 <= angle
    ensures ClassifyMove(angle, sweep, min, max).InRangeMove? <==> angle <= sweep
    ensures angle <= sweep ==>
      ClassifyMove(angle, sweep, min, max) == InRangeMove(min + angle * (max - min) / sweep)
  {
    var f := angle / sweep;
    var d := max - min;
    assert angle * d / sweep == f * d;
    assert TentativeProgress(angle, sweep, min, max) == Some(min + f * d);
    MulSignAndOrder(f, d);
    assert f <= 1.0 <==> angle <= sweep by {
      MulSignAndOrder(f, sweep);
      assert f * sweep == angle;
    }
  }

  /** Past the end of the arc the tolerance rules decide: within 10 degrees the move snaps to
      the maximum, otherwise within 10 degrees of a full turn it snaps to the minimum, and
      anywhere else it is rejected. The maximum wins where the two bands overlap. */
  lemma {:induction false} PastTheArc(angle: real, sweep: real, min: real, max: real)
    requires min < max && 0.0 < sweep < angle
    ensures ClassifyMove(angle, sweep, min, max) ==
      if angle <= sweep + SWEEP_ANGLE_PADDING then SnapToMax
      else if 360.0 - SWEEP_ANGLE_PADDING <= angle <= 360.0 then SnapToMin
      else Rejected
  {
    InRangeMoveIsTheArc(angle, sweep, min, max);
  }

  /** Five degrees past the arc snaps to the maximum. */
  lemma JustPastTheArcSnapsToMax(sweep: real, min: real, max: real)
    requires min < max && 0.0 < sweep
    ensures ClassifyMove(sweep + 5.0, sweep, min, max) == SnapToMax
  {
    PastTheArc(sweep + 5.0, sweep, min, max);
  }

  /** At 350 degrees, on an arc that ends well before it, the move snaps to the minimum. */
  lemma NearFullTurnSnapsToMin(sweep: real, min: real, max: real)
    requires min < max && 0.0 < sweep < 340.0
    ensures ClassifyMove(350.0, sweep, min, max) == SnapToMin
  {
    PastTheArc(350.0, sweep, min, max);
  }

  /** Fifty degrees past the arc, short of the minimum's band, the move is rejected. */
  lemma FarPastTheArcIsRejected(sweep: real, min: real, max: real)
    requires min < max && 0.0 < sweep < 300.0
    ensures ClassifyMove(sweep + 50.0, sweep, min, max) == Rejected
  {
    PastTheArc(sweep + 50.0, sweep, min, max);
  }

  /** A pointer at the end of an arc of length arc (short of a full turn) is read back as
      that same angle. */
  lemma {:induction false} AngleAtArcEnd(sweep: real, arc: real)
    requires 0.0 < sweep <= 360.0 && 0.0 <= arc <= sweep && arc < 360.0
    ensures ProgressAngle(sweep, Atan2Of(ArcStart(sweep) + arc)) == arc
  {
    var raw := Atan2Of(ArcStart(sweep) + arc);
    assert IsAtan2Degrees(raw);
  }

  /** The tentative progress of the angle sweep * (p - min) / (max - min) is p. */
  lemma {:induction false} ShareOfSweepIsProgress(sweep: real, progress: real, min: real, max: real)
    requires 0.0 < sweep && min < max
    ensures TentativeProgress(sweep * (progress - min) / (max - min), sweep, min, max) == Some(progress)
  {
    var d := max - min;
    var arc := sweep * (progress - min) / d;
    assert arc * d == sweep * (progress - min);
    assert arc * d / sweep == progress - min;
  }

  /** Drawing and touching agree: a pointer at the end of the drawn progress arc moves the
      progress back to exactly where it was (on a full-turn arc the maximum is excluded, as
      its end coincides with the start). */
  lemma {:induction false} ArcEndRoundTrip(sweep: real, progress: real, min: real, max: real)
    requires 0.0 < sweep <= 360.0 && min < max && InRange(progress, min, max)
    requires sweep < 360.0 || progress < max
    ensures ProgressSweep(progress, min, max, sweep).Some?
    ensures var arc := ProgressSweep(progress, min, max, sweep).value;
      ClassifyMove(ProgressAngle(sweep, Atan2Of(ArcStart(sweep) + arc)), sweep, min, max)
        == InRangeMove(progress)
  {
    ProgressSweepBounds(progress, min, max, sweep);
    var arc := ProgressSweep(progress, min, max, sweep).value;
    AngleAtArcEnd(sweep, arc);
    ShareOfSweepIsProgress(sweep, progress, min, max);
    assert TentativeProgress(arc, sweep, min, max) == Some(progress);
    assert ClassifyMove(arc, sweep, min, max) == InRangeMove(progress);
  }

  class RainbowSeekbar {
    const base: BaseSeekbar
    var sweepAngle: real

    /** The subclass part of construction, on a base that is already initialised. The sweep
        angle attribute (or its default when absent) is stored as it is, without the clamp
        setSweepAngle applies; without attributes the default of 270 degrees is used. */
    constructor (base: BaseSeekbar, sweepAngleAttr: Option<real>)
      ensures this.base == base
      ensures sweepAngleAttr.None? ==> sweepAngle == DEFAULT_SWEEP_ANGLE
      ensures sweepAngleAttr.Some? ==> sweepAngle == sweepAngleAttr.value
    {
      this.base := base;
      sweepAngle := if sweepAngleAttr.Some? then sweepAngleAttr.value else DEFAULT_SWEEP_ANGLE;
    }

    /** setSweepAngle: a value outside [1, 360] is logged; the value is clamped into [0, 360]
        (so 0 passes the clamp with a warning). */
    method SetSweepAngle(value: real)
      modifies this`sweepAngle, base`warnings
      ensures sweepAngle == Clamp(value, 0.0, 360.0)
      ensures InRange(sweepAngle, 0.0, 360.0)
      ensures InRange(value, 0.0, 360.0) ==> sweepAngle == value
      ensures base.warnings == old(base.warnings) +
        (if InRange(value, 1.0, 360.0) then [] else [SweepAngleOutOfRange(value)])
    {
      if !InRange(value, 1.0, 360.0) {
        base.warnings := base.warnings + [SweepAngleOutOfRange(value)];
      }
      sweepAngle := Clamp(value, 0.0, 360.0);
    }

    /** isProgressBarRegion: the radial band of the ring, and an angle on the drawn arc. */
    predicate IsProgressBarRegion(e: TouchEvent): (hit: bool)
      reads this, base
      ensures hit <==>
        && (InBand(e.distance, base.innerRadius, base.outerRadius, base.touchPadding) ||
            InBand(e.distance, base.innerRadius, base.outerRadius, 2.0 * base.thumbRadius))
        && 0.0 <= ProgressAngle(sweepAngle, e.rawAngle) <= sweepAngle
    {
      base.InTouchBand(e.distance) && InRange(ProgressAngle(sweepAngle, e.rawAngle), 0.0, sweepAngle)
    }

    /** onTouchEvent: the same Idle/Pressed machine as the full circle, except that a pressed
        MOVE goes through the three-way rule: in range, snap to the maximum, snap to the
        minimum, or reject. A rejected move is not consumed and changes nothing. */
    method OnTouchEvent(e: TouchEvent) returns (consumed: bool)
      modifies base`isThumbPressed, base`progress, base`notifications
      ensures !base.enableTouch ==> !consumed && unchanged(base)
      ensures e.action == OtherAction ==> !consumed && unchanged(base)
      ensures base.enableTouch && e.action == Down ==>
        && consumed
        && base.isThumbPressed == (old(base.isThumbPressed) || IsProgressBarRegion(e))
        && base.progress == old(base.progress)
        && base.notifications == old(base.notifications) + Deliver(base.listener, StartTouch)
      ensures base.enableTouch && e.action == Up ==>
        && consumed
        && !base.isThumbPressed
        && base.progress == old(base.progress)
        && base.notifications == old(base.notifications) + Deliver(base.listener, StopTouch)
      ensures base.enableTouch && e.action == Move && !old(base.isThumbPressed) ==>
        consumed && unchanged(base)
      ensures base.enableTouch && e.action == Move && old(base.isThumbPressed) ==>
        var o := ClassifyMove(ProgressAngle(sweepAngle, e.rawAngle), sweepAngle,
                              base.minProgress, base.maxProgress);
        && (o.Rejected? ==> !consumed && unchanged(base))
        && (!o.Rejected? ==>
              && consumed
              && base.isThumbPressed
              && base.progress == MoveTarget(o, base.minProgress, base.maxProgress)
              && base.notifications ==
                   old(base.notifications) + Deliver(base.listener, ProgressChanged(base.progress, true)))
      ensures base.minProgress <= base.maxProgress && old(base.ProgressInRange()) ==> base.ProgressInRange()
      ensures base.enableTouch && e.action == Move && old(base.isThumbPressed) && consumed &&
              base.minProgress <= base.maxProgress ==>
                base.ProgressInRange()
    {
      if !base.enableTouch {
        return false;
      }
      match e.action {
        case Down =>
          if IsProgressBarRegion(e) {
            base.isThumbPressed := true;
          }
          base.Notify(StartTouch);
          return true;
        case Up =>
          base.isThumbPressed := false;
          base.Notify(StopTouch);
          return true;
        case Move =>
          if !base.isThumbPressed {
            return true;
          }
          var angle := ProgressAngle(sweepAngle, e.rawAngle);
          var tentative := TentativeProgress(angle, sweepAngle, base.minProgress, base.maxProgress);
          if tentative.Some? && InRange(tentative.value, base.minProgress, base.maxProgress) {
            base.progress := tentative.value;
          } else if InRange(angle, sweepAngle, sweepAngle + SWEEP_ANGLE_PADDING) {
            base.progress := base.maxProgress;
          } else if InRange(angle, 360.0 - SWEEP_ANGLE_PADDING, 360.0) {
            base.progress := base.minProgress;
          } else {
            return false;
          }
          base.Notify(ProgressChanged(base.progress, true));
          return true;
        case OtherAction =>
          return false;
      }
    }

    /** onDraw: recompute the ring geometry, then draw the track over the sweep angle from
        the arc start, the progress arc over its share of the sweep, and the thumb at the
        progress arc's end. */
    method OnDraw(width: int, height: int) returns (d: Drawing)
      modifies base`center, base`innerRadius, base`outerRadius, base`rect
      ensures base.CurrentLayout() == ComputeLayout(width, height, base.padding, base.thickness)
      ensures d == MakeDrawing(ArcStart(sweepAngle), sweepAngle,
                               ProgressSweep(base.progress, base.minProgress, base.maxProgress, sweepAngle),
                               base.showThumb)
      ensures base.minProgress < base.maxProgress && base.ProgressInRange() && 0.0 < sweepAngle ==>
        && InRange(d.progressSweep.value, 0.0, sweepAngle)
        && (d.thumbAngle.Some? <==> base.showThumb)
        && (d.thumbAngle.Some? ==> InRange(d.thumbAngle.value, d.startAngle, d.startAngle + sweepAngle))
    {
      base.ApplyLayout(width, height);
      var arc := ProgressSweep(base.progress, base.minProgress, base.maxProgress, sweepAngle);
      if base.minProgress < base.maxProgress && base.ProgressInRange() && 0.0 < sweepAngle {
        ThumbOnTrack(ArcStart(sweepAngle), sweepAngle, base.progress, base.minProgress,
                     base.maxProgress, base.showThumb);
      }
      d := MakeDrawing(ArcStart(sweepAngle), sweepAngle, arc, base.showThumb);
    }
  }

  /** The hit test's angular window is exactly the arc the in-range rule accepts: a move at
      the pointer position that pressed the thumb, on a non-empty range and a positive sweep,
      takes the in-range branch and stores the tentative progress, the angle's share of the
      range. */
  lemma {:induction false} WindowHitIsInRangeMove(s: RainbowSeekbar, e: TouchEvent)
    requires s.IsProgressBarRegion(e)
    requires s.base.minProgress < s.base.maxProgress && 0.0 < s.sweepAngle
    ensures TentativeProgress(ProgressAngle(s.sweepAngle, e.rawAngle), s.sweepAngle,
                              s.base.minProgress, s.base.maxProgress).Some?
    ensures ClassifyMove(ProgressAngle(s.sweepAngle, e.rawAngle), s.sweepAngle,
                         s.base.minProgress, s.base.maxProgress)
         == InRangeMove(TentativeProgress(ProgressAngle(s.sweepAngle, e.rawAngle), s.sweepAngle,
                                          s.base.minProgress, s.base.maxProgress).value)
  {
    var sweep, min, max := s.sweepAngle, s.base.minProgress, s.base.maxProgress;
    var angle := ProgressAngle(sweep, e.rawAngle);
    assert InRange(angle, 0.0, sweep);
    InRangeMoveIsTheArc(angle, sweep, min, max);
  }

}
