/** The earlier draft of the full-circle seekbar (the `cicularseekbar` module's
    CircularSeekbar.kt): a self-contained view with no listener and no minimum or maximum.
    It draws and touches on the fixed scale [0, 100], yet its setter only accepts [1, 100]. */
module DraftCircular {
  import opened Wrappers
  import opened SeekbarMath
  import opened StartAngles
  import Progress
  import Circular
  import DraftBase

  const DEFAULT_THICKNESS_DP: real := 20.0
  const DEFAULT_THUMB_RADIUS_DP: real := 10.0
  const DEFAULT_THUMB_PADDING_DP: real := 4.0
  const DEFAULT_PROGRESS: real := 0.1
  /** The fixed scale the draft draws and touches on. */
  const SCALE: real := 100.0

  /** The styled attributes the draft reads (colours left out); the start angle is the raw
      index, checked by StartAngle.get. */
  datatype Attributes = Attributes(
    thickness: real, thumbPadding: real, thumbRadius: real, progress: real,
    showThumb: bool, enableTouch: bool, startAngleIndex: int)

  /** getSweepAngle: the same angle rule as the released full circle. */
  function SweepAngle(start: StartAngle, raw: real): (a: real)
    ensures IsAtan2Degrees(raw) ==> 0.0 <= a < 360.0
    ensures a - (raw - Degrees(start)) in {-360.0, 0.0, 360.0}
  {
    Circular.ProgressAngle(start, raw)
  }

  /** The progress a pressed move stores: the angle's share of a turn on the scale [0, 100]. */
  function MoveProgress(angle: real): (p: real)
    ensures 0.0 <= angle < 360.0 ==> 0.0 <= p < SCALE
    ensures p == Circular.TouchProgress(angle, 0.0, SCALE)
  {
    angle * SCALE / 360.0
  }

  /** onDraw's progress arc: the progress's share of a full turn on the scale [0, 100]. */
  function DrawSweep(progress: real): (sweep: real)
    ensures InRange(progress, 0.0, SCALE) ==> InRange(sweep, 0.0, 360.0)
    ensures Some(sweep) == ProgressSweep(progress, 0.0, SCALE, 360.0)
  {
    360.0 * progress / SCALE
  }

  /** Drawing and touching agree: for progress in [0, 100) a pointer at the end of the drawn
      arc stores the same progress again. */
  lemma {:induction false} ArcEndRoundTrip(start: StartAngle, progress: real)
    requires 0.0 <= progress < SCALE
    ensures MoveProgress(SweepAngle(start, Atan2Of(Degrees(start) + DrawSweep(progress)))) == progress
  {
    Circular.ArcEndRoundTrip(start, progress, 0.0, SCALE);
  }

  /** A touch can store a progress that setProgress would refuse: pointing exactly at the
      start direction stores 0, which lies outside [1, 100]. */
  lemma {:induction false} TouchStoresWhatSetterRejects(start: StartAngle)
    ensures MoveProgress(SweepAngle(start, Atan2Of(Degrees(start)))) == 0.0
    ensures !DraftBase.AcceptsProgress(0.0)
  {
    assert SweepAngle(start, Atan2Of(Degrees(start))) == 0.0;
  }

  /** The largest accepted progress, 100, is drawn as a full turn whose end is the start
      direction, and touching there stores 0. */
  lemma {:induction false} FullProgressWrapsToZero(start: StartAngle)
    ensures DrawSweep(SCALE) == 360.0
    ensures MoveProgress(SweepAngle(start, Atan2Of(Degrees(start) + DrawSweep(SCALE)))) == 0.0
  {
    assert SweepAngle(start, Atan2Of(Degrees(start) + 360.0)) == 0.0;
  }

  class CircularSeekbar {
    var progress: real
    var thumbPadding: real
    var thickness: real
    var thumbRadius: real
    var startAngle: StartAngle
    var showThumb: bool
    var enableTouch: bool
    var isThumbTouchEvent: bool
    var center: Point
    var innerRadius: real
    var outerRadius: real
    var rect: Rect
    var padding: Padding
    var warnings: seq<Progress.Warning>

    /** The property initialisers: defaults scaled by the display density. */
    constructor (density: real)
      ensures progress == DEFAULT_PROGRESS && startAngle == Top
      ensures thumbPadding == DEFAULT_THUMB_PADDING_DP * density
      ensures thickness == DEFAULT_THICKNESS_DP * density
      ensures thumbRadius == DEFAULT_THUMB_RADIUS_DP * density
      ensures showThumb && enableTouch && !isThumbTouchEvent
      ensures padding == Padding(0, 0, 0, 0) && warnings == []
    {
      progress := DEFAULT_PROGRESS;
      thumbPadding := DEFAULT_THUMB_PADDING_DP * density;
      thickness := DEFAULT_THICKNESS_DP * density;
      thumbRadius := DEFAULT_THUMB_RADIUS_DP * density;
      startAngle := Top;
      showThumb, enableTouch, isThumbTouchEvent := true, true, false;
      center, innerRadius, outerRadius := Point(0.0, 0.0), 0.0, 0.0;
      rect := Rect(0.0, 0.0, 0.0, 0.0);
      padding := Padding(0, 0, 0, 0);
      warnings := [];
    }

    /** Construction with optional attributes. An attribute start index outside 0..3 makes
        StartAngle.get throw, so no view is built; otherwise every attribute is stored as
        given, the progress without a range check. */
    static method Create(density: real, attrs: Option<Attributes>)
      returns (r: Result<CircularSeekbar, AngleError>)
      ensures attrs.None? ==> r.Success? && r.value.progress == DEFAULT_PROGRESS && r.value.startAngle == Top
      ensures attrs.Some? ==> (r.Success? <==> 0 <= attrs.value.startAngleIndex <= 3)
      ensures r.Failure? ==> r.error == InvalidStartAngleIndex(attrs.value.startAngleIndex)
      ensures attrs.Some? && r.Success? ==>
        && r.value.progress == attrs.value.progress
        && IndexOf(r.value.startAngle) == attrs.value.startAngleIndex
        && r.value.thickness == attrs.value.thickness
        && r.value.thumbPadding == attrs.value.thumbPadding
        && r.value.thumbRadius == attrs.value.thumbRadius
        && r.value.showThumb == attrs.value.showThumb
        && r.value.enableTouch == attrs.value.enableTouch
      ensures r.Success? ==> fresh(r.value) && !r.value.isThumbTouchEvent && r.value.warnings == []
    {
      var s := new CircularSeekbar(density);
      if attrs.None? {
        return Success(s);
      }
      var a := attrs.value;
      var angle := Get(a.startAngleIndex);
      if angle.Failure? {
        return Failure(angle.error);
      }
      s.thickness, s.thumbRadius, s.thumbPadding := a.thickness, a.thumbRadius, a.thumbPadding;
      s.showThumb, s.enableTouch := a.showThumb, a.enableTouch;
      s.progress := a.progress;
      s.startAngle := angle.value;
      r := Success(s);
    }

    method SetStartAngle(a: StartAngle)
      modifies this`startAngle
      ensures startAngle == a
    {
      startAngle := a;
    }

    /** setThickness (pixel overload); both paints follow, which is not modelled. */
    method SetThickness(size: real)
      modifies this`thickness
      ensures thickness == size
    {
      thickness := size;
    }

    method SetThumbRadius(radius: real)
      modifies this`thumbRadius
      ensures thumbRadius == radius
    {
      thumbRadius := radius;
    }

    method SetThumbPadding(p: real)
      modifies this`thumbPadding
      ensures thumbPadding == p
    {
      thumbPadding := p;
    }

    method SetShowThumb(b: bool)
      modifies this`showThumb
      ensures showThumb == b
    {
      showThumb := b;
    }

    method SetEnableTouch(b: bool)
      modifies this`enableTouch
      ensures enableTouch == b
    {
      enableTouch := b;
    }

    /** setPadding: the padding is stored; unequal sides are logged. */
    method SetPadding(left: int, top: int, right: int, bottom: int)
      modifies this`padding, this`warnings
      ensures padding == Padding(left, top, right, bottom)
      ensures warnings == old(warnings) + Progress.PaddingWarnings(padding)
    {
      padding := Padding(left, top, right, bottom);
      warnings := warnings + Progress.PaddingWarnings(padding);
    }

    /** setProgress: a value outside [1, 100] throws and leaves the progress alone; an
        accepted one is stored exactly. */
    method SetProgress(value: real) returns (r: Outcome<DraftBase.ProgressError>)
      modifies this`progress
      ensures r.Pass? <==> DraftBase.AcceptsProgress(value)
      ensures r.Fail? ==> r.error == DraftBase.IllegalProgress(value) && progress == old(progress)
      ensures r.Pass? ==> progress == value
    {
      if !DraftBase.AcceptsProgress(value) {
        return Fail(DraftBase.IllegalProgress(value));
      }
      progress := value;
      r := Pass;
    }

    /** setAnimatedProgress: an animation from the current progress to the target as given,
        with no check at all. */
    method SetAnimatedProgress(target: real) returns (anim: Progress.Animation)
      ensures anim.from == progress && anim.to == target
    {
      anim := Progress.Animation(progress, target);
    }

    /** One animation frame at an eased fraction of the run: the frame's value is stored as
        is. An animation whose ends lie on the drawing scale [0, 100] stays on it. */
    method ApplyAnimationFrame(anim: Progress.Animation, fraction: real)
      modifies this`progress
      ensures progress == Progress.FrameValue(anim, fraction)
      ensures InRange(anim.from, 0.0, SCALE) && InRange(anim.to, 0.0, SCALE) && 0.0 <= fraction <= 1.0 ==>
        InRange(progress, 0.0, SCALE)
    {
      var value := Progress.FrameValue(anim, fraction);
      if InRange(anim.from, 0.0, SCALE) && InRange(anim.to, 0.0, SCALE) && 0.0 <= fraction <= 1.0 {
        Progress.FrameInRange(anim, fraction, 0.0, SCALE);
      }
      progress := value;
    }

    /** isProgressBarRegion: the pointer's distance lies in the ring widened by the touch
        reach. */
    predicate IsProgressBarRegion(e: TouchEvent): (hit: bool)
      reads this
      ensures hit <==> InBand(e.distance, innerRadius, outerRadius, thumbPadding) ||
                       InBand(e.distance, innerRadius, outerRadius, 2.0 * thumbRadius)
    {
      InBandEitherReach(e.distance, innerRadius, outerRadius, thumbPadding, thumbRadius);
      InBand(e.distance, innerRadius, outerRadius, TouchReach(thumbPadding, thumbRadius))
    }

    /** onTouchEvent. Touch disabled: not consumed, nothing changes. DOWN: pressed when the
        hit test passes (an earlier press is kept otherwise). UP: released. MOVE while
        pressed: the progress becomes the angle's share of [0, 100]. Every other action is
        left to the View's own handling, whose answer is `viewResult`. */
    method OnTouchEvent(e: TouchEvent, viewResult: bool) returns (consumed: bool)
      modifies this`isThumbTouchEvent, this`progress
      ensures !old(enableTouch) ==> !consumed && unchanged(this)
      ensures old(enableTouch) ==> match e.action {
        case Down =>
          consumed && progress == old(progress) &&
          isThumbTouchEvent == (old(isThumbTouchEvent) || IsProgressBarRegion(e))
        case Up => consumed && !isThumbTouchEvent && progress == old(progress)
        case Move =>
          consumed && isThumbTouchEvent == old(isThumbTouchEvent) &&
          progress == (if old(isThumbTouchEvent)
                       then MoveProgress(SweepAngle(startAngle, e.rawAngle)) else old(progress))
        case OtherAction => consumed == viewResult && unchanged(this)
      }
      ensures old(enableTouch) && e.action == Move && old(isThumbTouchEvent) && IsAtan2Degrees(e.rawAngle) ==>
        0.0 <= progress < SCALE
    {
      if !enableTouch {
        return false;
      }
      match e.action {
        case Down =>
          if IsProgressBarRegion(e) {
            isThumbTouchEvent := true;
          }
          consumed := true;
        case Up =>
          isThumbTouchEvent := false;
          consumed := true;
        case Move =>
          if isThumbTouchEvent {
            progress := MoveProgress(SweepAngle(startAngle, e.rawAngle));
          }
          consumed := true;
        case OtherAction =>
          consumed := viewResult;
      }
    }

    /** onDraw: recompute the ring geometry, then the full track and the progress arc from the
        start angle, and the thumb at the arc's end. */
    method OnDraw(width: int, height: int) returns (d: Drawing)
      modifies this`center, this`innerRadius, this`outerRadius, this`rect
      ensures var l := ComputeLayout(width, height, padding, thickness);
        center == l.center && outerRadius == l.outerRadius && innerRadius == l.innerRadius && rect == l.rect
      ensures d == MakeDrawing(Degrees(startAngle), 360.0, Some(DrawSweep(progress)), showThumb)
      ensures InRange(progress, 0.0, SCALE) ==>
        && InRange(d.progressSweep.value, 0.0, 360.0)
        && (d.thumbAngle.Some? <==> showThumb)
        && (d.thumbAngle.Some? ==> InRange(d.thumbAngle.value, d.startAngle, d.startAngle + 360.0))
    {
      var l := ComputeLayout(width, height, padding, thickness);
      center, outerRadius, innerRadius, rect := l.center, l.outerRadius, l.innerRadius, l.rect;
      if InRange(progress, 0.0, SCALE) {
        ThumbOnTrack(Degrees(startAngle), 360.0, progress, 0.0, SCALE, showThumb);
      }
      d := MakeDrawing(Degrees(startAngle), 360.0, Some(DrawSweep(progress)), showThumb);
    }
  }
}
