/** The full-circle seekbar (CircularSeekbar.kt): a ring that starts drawing at one of four
    directions, lays the pointer's angle linearly onto the progress range, and accepts a
    press anywhere on the ring. */
module Circular {
  import opened Wrappers
  import opened SeekbarMath
  import opened StartAngles
  import opened Progress

  /** getProgressAngle: the pointer's clockwise displacement from the start direction. For
      an atan2 angle it lies in [0, 360); in any case it differs from raw - start by whole
      turns only. */
  function ProgressAngle(start: StartAngle, raw: real): (a: real)
    ensures IsAtan2Degrees(raw) ==> 0.0 <= a < 360.0
    ensures a - (raw - Degrees(start)) in {-360.0, 0.0, 360.0}
  {
    var positive := PositiveAngle(raw);
    var adjusted := positive - (360.0 + Degrees(start));
    if adjusted < 0.0 then adjusted + 360.0 else adjusted
  }

  /** The progress a pressed move stores: the angle's share of a full turn, laid onto
      [min, max]. The start of the turn gives min, a whole turn would give max, and an empty
      range gives min everywhere. */
  function TouchProgress(angle: real, min: real, max: real): (p: real)
    ensures angle == 0.0 ==> p == min
    ensures angle == 360.0 ==> p == max
    ensures min == max ==> p == min
  {
    min + angle * (max - min) / 360.0
  }

  /** A pointer angle in [0, 360) gives a progress in [min, max): the turn's start gives min,
      and max itself is never reached by touch. */
  lemma {:induction false} TouchProgressInRange(angle: real, min: real, max: real)
    requires 0.0 <= angle < 360.0 && min <= max
    ensures InRange(TouchProgress(angle, min, max), min, max)
    ensures min < max ==> TouchProgress(angle, min, max) < max
    ensures angle == 0.0 ==> TouchProgress(angle, min, max) == min
  {
    var f := angle / 360.0;
    assert angle * (max - min) / 360.0 == f * (max - min);
    LerpInRange(min, max, f);
  }

  /** Drawing and touching agree: for progress in [min, max) a pointer at the end of the
      drawn progress arc moves the progress back to exactly where it was. */
  lemma {:induction false} ArcEndRoundTrip(start: StartAngle, progress: real, min: real, max: real)
    requires min < max && min <= progress < max
    ensures ProgressSweep(progress, min, max, 360.0).Some?
    ensures var sweep := ProgressSweep(progress, min, max, 360.0).value;
      TouchProgress(ProgressAngle(start, Atan2Of(Degrees(start) + sweep)), min, max) == progress
  {
    ProgressSweepBounds(progress, min, max, 360.0);
    var sweep := ProgressSweep(progress, min, max, 360.0).value;
    var raw := Atan2Of(Degrees(start) + sweep);
    var a := ProgressAngle(start, raw);
    assert a == sweep;
    var d := max - min;
    assert sweep * d == 360.0 * (progress - min);
    assert sweep * d / 360.0 == progress - min;
  }

  /** The drawn arc of the maximum is a full turn, so its end coincides with the start and
      touching there yields the minimum. */
  lemma {:induction false} FullArcTouchesAsMinimum(start: StartAngle, min: real, max: real)
    requires min < max
    ensures ProgressSweep(max, min, max, 360.0) == Some(360.0)
    ensures TouchProgress(ProgressAngle(start, Atan2Of(Degrees(start) + 360.0)), min, max) == min
  {
    assert 360.0 * (max - min) / (max - min) == 360.0;
    assert ProgressAngle(start, Atan2Of(Degrees(start) + 360.0)) == 0.0;
  }

  class CircularSeekbar {
    const base: BaseSeekbar
    var startAngle: StartAngle

    constructor Init(base: BaseSeekbar, startAngle: StartAngle)
      ensures this.base == base && this.startAngle == startAngle
    {
      this.base := base;
      this.startAngle := startAngle;
    }

    /** The subclass part of construction, on a base that is already initialised. Without
        attributes the ring starts at TOP. With attributes the start angle is looked up by
        the attribute's index (0, that is LEFT, when the attribute is absent), and an index
        outside 0..3 aborts construction with the invalid-argument error. */
    static method Create(base: BaseSeekbar, startAngleAttr: Option<int>)
      returns (r: Result<CircularSeekbar, AngleError>)
      ensures startAngleAttr.None? ==> r.Success? && r.value.startAngle == Top
      ensures startAngleAttr.Some? ==>
        (r.Success? <==> 0 <= startAngleAttr.value <= 3)
        && (r.Success? ==> Get(startAngleAttr.value) == Success(r.value.startAngle))
        && (r.Failure? ==> r.error == InvalidStartAngleIndex(startAngleAttr.value))
      ensures r.Success? ==> fresh(r.value) && r.value.base == base
    {
      var start := Top;
      if startAngleAttr.Some? {
        var looked := Get(startAngleAttr.value);
        if looked.Failure? {
          return Failure(looked.error);
        }
        start := looked.value;
      }
      var s := new CircularSeekbar.Init(base, start);
      r := Success(s);
    }

    method SetStartAngle(a: StartAngle)
      modifies this`startAngle
      ensures startAngle == a
    {
      startAngle := a;
    }

    /** isProgressBarRegion: only the pointer's distance from the centre matters; it must lie
        in the ring widened by the touch padding or by twice the thumb radius. */
    predicate IsProgressBarRegion(e: TouchEvent): (hit: bool)
      reads base
      ensures hit <==> InBand(e.distance, base.innerRadius, base.outerRadius, base.touchPadding) ||
                       InBand(e.distance, base.innerRadius, base.outerRadius, 2.0 * base.thumbRadius)
    {
      base.InTouchBand(e.distance)
    }

    /** onTouchEvent: the Idle/Pressed machine. Disabled touch ignores everything. A DOWN
        on the ring presses (a DOWN elsewhere keeps the previous state), an UP releases,
        and a MOVE while pressed sets the progress from the pointer's angle without a
        range check or a warning. DOWN, UP and MOVE are consumed; other actions are not. */
    method OnTouchEvent(e: TouchEvent) returns (consumed: bool)
      modifies base`isThumbPressed, base`progress, base`notifications
      ensures !base.enableTouch ==> !consumed && unchanged(base)
      ensures base.enableTouch ==> (consumed <==> e.action != OtherAction)
      ensures e.action == OtherAction ==> unchanged(base)
      ensures base.enableTouch && e.action == Down ==>
        && base.isThumbPressed == (old(base.isThumbPressed) || IsProgressBarRegion(e))
        && base.progress == old(base.progress)
        && base.notifications == old(base.notifications) + Deliver(base.listener, StartTouch)
      ensures base.enableTouch && e.action == Up ==>
        && !base.isThumbPressed
        && base.progress == old(base.progress)
        && base.notifications == old(base.notifications) + Deliver(base.listener, StopTouch)
      ensures base.enableTouch && e.action == Move && !old(base.isThumbPressed) ==> unchanged(base)
      ensures base.enableTouch && e.action == Move && old(base.isThumbPressed) ==>
        && base.isThumbPressed
        && base.progress == TouchProgress(ProgressAngle(startAngle, e.rawAngle), base.minProgress, base.maxProgress)
        && base.notifications == old(base.notifications) + Deliver(base.listener, ProgressChanged(base.progress, true))
      ensures IsAtan2Degrees(e.rawAngle) && old(base.ProgressInRange()) ==> base.ProgressInRange()
      ensures base.enableTouch && e.action == Move && old(base.isThumbPressed) &&
              IsAtan2Degrees(e.rawAngle) && base.minProgress < base.maxProgress ==>
                base.minProgress <= base.progress < base.maxProgress
    {
      if !base.enableTouch {
        return false;
      }
      match e.action {
        case Down =>
          if IsProgressBarRegion(e) {
            base.isThumbPressed := true;
          }
          base.Notify(StartTouch);
          return true;
        case Up =>
          base.isThumbPressed := false;
          base.Notify(StopTouch);
          return true;
        case Move =>
          if !base.isThumbPressed {
            return true;
          }
          var angle := ProgressAngle(startAngle, e.rawAngle);
          if IsAtan2Degrees(e.rawAngle) && base.minProgress <= base.maxProgress {
            TouchProgressInRange(angle, base.minProgress, base.maxProgress);
          }
          base.progress := TouchProgress(angle, base.minProgress, base.maxProgress);
          base.Notify(ProgressChanged(base.progress, true));
          return true;
        case OtherAction =>
          return false;
      }
    }

    /** onDraw: recompute the ring geometry, then draw the full track from the start angle,
        the progress arc over its share of the turn, and the thumb at the arc's end. */
    method OnDraw(width: int, height: int) returns (d: Drawing)
      modifies base`center, base`innerRadius, base`outerRadius, base`rect
      ensures base.CurrentLayout() == ComputeLayout(width, height, base.padding, base.thickness)
      ensures d == MakeDrawing(Degrees(startAngle), 360.0,
                               ProgressSweep(base.progress, base.minProgress, base.maxProgress, 360.0),
                               base.showThumb)
      ensures base.minProgress < base.maxProgress && base.ProgressInRange() ==>
        && InRange(d.progressSweep.value, 0.0, 360.0)
        && (d.thumbAngle.Some? <==> base.showThumb)
        && (d.thumbAngle.Some? ==> InRange(d.thumbAngle.value, d.startAngle, d.startAngle + 360.0))
    {
      base.ApplyLayout(width, height);
      var sweep := ProgressSweep(base.progress, base.minProgress, base.maxProgress, 360.0);
      if base.minProgress < base.maxProgress && base.ProgressInRange() {
        ThumbOnTrack(Degrees(startAngle), 360.0, base.progress, base.minProgress, base.maxProgress,
                     base.showThumb);
      }
      d := MakeDrawing(Degrees(startAngle), 360.0, sweep, base.showThumb);
    }
  }

  /** The hit test of the full circle does not look at the angle: two pointers at the same
      distance are both on the ring or both off it. */
  lemma HitTestIgnoresAngle(s: CircularSeekbar, e1: TouchEvent, e2: TouchEvent)
    requires e1.distance == e2.distance
    ensures s.IsProgressBarRegion(e1) == s.IsProgressBarRegion(e2)
  {
  }
}
