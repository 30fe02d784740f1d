/** The progress model of the released seekbars (BaseSeekbar.kt): current, minimum and
    maximum progress, a single listener slot, the touch and thumb settings, and the ring
    geometry that every draw pass recomputes. Listener callbacks are recorded in an event
    log and error-log lines in a warning log. */
module Progress {
  import opened Wrappers
  import opened SeekbarMath

  /** Listeners are told apart by an identity; the slot holds at most one. */
  type ListenerId = nat

  /** The three callbacks of OnProgressChangeListener. */
  datatype Event =
    | ProgressChanged(progress: real, fromUser: bool)
    | StartTouch
    | StopTouch

  /** One callback, with the listener that received it. */
  datatype Notification = Notification(listener: ListenerId, event: Event)

  /** What `listener?.callback(...)` delivers: one notification to the listener in the slot,
      none when the slot is empty. */
  function Deliver(slot: Option<ListenerId>, e: Event): seq<Notification>
  {
    match slot
    case None => []
    case Some(l) => [Notification(l, e)]
  }

  /** Lines written to the error log where the source reports a problem and carries on. */
  datatype Warning =
    | ProgressOutOfRange(value: real, min: real, max: real)
    | MinimumNotBelowMaximum(value: real, max: real)
    | SweepAngleOutOfRange(value: real)
    | UnevenPadding(padding: Padding)

  /** The warnings setPadding writes: one when the four sides differ. */
  function PaddingWarnings(p: Padding): seq<Warning>
  {
    if Uniform(p) then [] else [UnevenPadding(p)]
  }

  /** An animation request: the animator runs from the progress at the time of the call to
      the target. */
  datatype Animation = Animation(from: real, to: real)

  /** The value an animation frame reports for an eased fraction of its run (the float
      evaluator's start + fraction * (end - start)): the start at fraction 0, the end at
      fraction 1, and constant when start and end agree. */
  function FrameValue(a: Animation, fraction: real): (v: real)
    ensures fraction == 0.0 ==> v == a.from
    ensures fraction == 1.0 ==> v == a.to
    ensures a.from == a.to ==> v == a.from
  {
    a.from + fraction * (a.to - a.from)
  }

  /** Every frame of an animation between two in-range values is in range, whatever the
      easing, as long as the eased fraction stays in [0, 1]. */
  lemma {:induction false} FrameInRange(a: Animation, fraction: real, lo: real, hi: real)
    requires InRange(a.from, lo, hi) && InRange(a.to, lo, hi)
    requires 0.0 <= fraction <= 1.0
    ensures InRange(FrameValue(a, fraction), lo, hi)
    ensures fraction == 0.0 ==> FrameValue(a, fraction) == a.from
    ensures fraction == 1.0 ==> FrameValue(a, fraction) == a.to
  {
    if a.from <= a.to {
      LerpInRange(a.from, a.to, fraction);
    } else {
      var rest := 1.0 - fraction;
      LerpInRange(a.to, a.from, rest);
      assert rest * (a.from - a.to) == (a.from - a.to) - fraction * (a.from - a.to);
      assert a.to + rest * (a.from - a.to) == FrameValue(a, fraction);
    }
  }

  /** The styled attributes the base seekbar reads from layout markup (colours left out). */
  datatype Attributes = Attributes(
    thickness: real, thumbPadding: real, thumbRadius: real,
    progress: real, minProgress: real, maxProgress: real,
    showThumb: bool, enableTouch: bool)

  const DEFAULT_MAX_PROGRESS: real := 100.0
  const DEFAULT_MIN_PROGRESS: real := 0.0
  const DEFAULT_THICKNESS_DP: real := 20.0
  const DEFAULT_THUMB_RADIUS_DP: real := 12.0
  const DEFAULT_TOUCHING_PADDING_DP: real := 8.0
  const DEFAULT_PROGRESS: real := 0.1

  class BaseSeekbar {
    var progress: real
    var minProgress: real
    var maxProgress: real
    var listener: Option<ListenerId>
    var touchPadding: real
    var thickness: real
    var thumbRadius: real
    var showThumb: bool
    var enableTouch: bool
    /** Whether the current gesture grabbed the ring. */
    var isThumbPressed: bool
    // Ring geometry, recomputed by each draw pass.
    var center: Point
    var innerRadius: real
    var outerRadius: real
    var rect: Rect
    var padding: Padding
    // What the listeners were told, and what went to the error log.
    var notifications: seq<Notification>
    var warnings: seq<Warning>

    /** The documented invariant of the progress model; not every setter keeps it. */
    predicate ProgressInRange()
      reads this
    {
      InRange(progress, minProgress, maxProgress)
    }

    /** The layout fields as one value. */
    function CurrentLayout(): Layout
      reads this
    {
      Layout(center, outerRadius, innerRadius, rect)
    }

    /** Construction: defaults scaled by the display density, or the attribute values with
        the initial progress clamped into the attribute range; then the listener passed to
        the constructor hears the initial progress. */
    constructor (density: real, attrs: Option<Attributes>, listener: Option<ListenerId>)
      ensures this.listener == listener
      ensures attrs.None? ==>
        && progress == DEFAULT_PROGRESS && minProgress == DEFAULT_MIN_PROGRESS
        && maxProgress == DEFAULT_MAX_PROGRESS
        && touchPadding == DEFAULT_TOUCHING_PADDING_DP * density
        && thickness == DEFAULT_THICKNESS_DP * density
        && thumbRadius == DEFAULT_THUMB_RADIUS_DP * density
        && showThumb && enableTouch
      ensures attrs.Some? ==>
        && minProgress == attrs.value.minProgress && maxProgress == attrs.value.maxProgress
        && progress == Clamp(attrs.value.progress, minProgress, maxProgress)
        && touchPadding == attrs.value.thumbPadding && thickness == attrs.value.thickness
        && thumbRadius == attrs.value.thumbRadius
        && showThumb == attrs.value.showThumb && enableTouch == attrs.value.enableTouch
      ensures minProgress <= maxProgress ==> ProgressInRange()
      ensures attrs.Some? && InRange(attrs.value.progress, minProgress, maxProgress) ==>
        progress == attrs.value.progress
      ensures !isThumbPressed && padding == Padding(0, 0, 0, 0)
      ensures CurrentLayout() == Layout(Point(0.0, 0.0), 0.0, 0.0, Rect(0.0, 0.0, 0.0, 0.0))
      ensures notifications == Deliver(listener, ProgressChanged(progress, false))
      ensures warnings == []
    {
      this.listener := listener;
      isThumbPressed := false;
      center, innerRadius, outerRadius := Point(0.0, 0.0), 0.0, 0.0;
      rect := Rect(0.0, 0.0, 0.0, 0.0);
      padding := Padding(0, 0, 0, 0);
      warnings := [];
      var p: real;
      match attrs {
        case None =>
          p := DEFAULT_PROGRESS;
          minProgress, maxProgress := DEFAULT_MIN_PROGRESS, DEFAULT_MAX_PROGRESS;
          touchPadding := DEFAULT_TOUCHING_PADDING_DP * density;
          thickness := DEFAULT_THICKNESS_DP * density;
          thumbRadius := DEFAULT_THUMB_RADIUS_DP * density;
          showThumb, enableTouch := true, true;
        case Some(a) =>
          thickness, thumbRadius, touchPadding := a.thickness, a.thumbRadius, a.thumbPadding;
          showThumb, enableTouch := a.showThumb, a.enableTouch;
          minProgress, maxProgress := a.minProgress, a.maxProgress;
          p := Clamp(a.progress, a.minProgress, a.maxProgress);
      }
      progress := p;
      notifications := Deliver(listener, ProgressChanged(p, false));
    }

    /** Invoke a callback on the listener in the slot, if any. */
    method Notify(e: Event)
      modifies this`notifications
      ensures notifications == old(notifications) + Deliver(listener, e)
    {
      notifications := notifications + Deliver(listener, e);
    }

    /** setThickness (pixel overload): the stroke width of both arcs. */
    method SetThickness(size: real)
      modifies this`thickness
      ensures thickness == size
    {
      thickness := size;
    }

    /** setThumbRadius (pixel overload). */
    method SetThumbRadius(radius: real)
      modifies this`thumbRadius
      ensures thumbRadius == radius
    {
      thumbRadius := radius;
    }

    /** setTouchPadding (pixel overload). */
    method SetTouchPadding(p: real)
      modifies this`touchPadding
      ensures touchPadding == p
    {
      touchPadding := p;
    }

    method SetShowThumb(b: bool)
      modifies this`showThumb
      ensures showThumb == b
    {
      showThumb := b;
    }

    method SetEnableTouch(b: bool)
      modifies this`enableTouch
      ensures enableTouch == b
    {
      enableTouch := b;
    }

    /** setProgressChangeListener: the single slot is overwritten (null empties it), so from
        now on only the new listener hears anything. */
    method SetProgressChangeListener(l: Option<ListenerId>)
      modifies this`listener
      ensures listener == l
    {
      listener := l;
    }

    /** setProgress: an out-of-range value is logged, not rejected; the clamped value is
        stored and reported once to the current listener with the caller's fromUser flag. */
    method SetProgress(value: real, fromUser: bool)
      modifies this`progress, this`notifications, this`warnings
      ensures progress == Clamp(value, minProgress, maxProgress)
      ensures minProgress <= maxProgress ==> ProgressInRange()
      ensures InRange(value, minProgress, maxProgress) ==> progress == value
      ensures warnings == old(warnings) +
        (if InRange(value, minProgress, maxProgress) then []
         else [ProgressOutOfRange(value, minProgress, maxProgress)])
      ensures notifications == old(notifications) + Deliver(listener, ProgressChanged(progress, fromUser))
    {
      if !InRange(value, minProgress, maxProgress) {
        warnings := warnings + [ProgressOutOfRange(value, minProgress, maxProgress)];
      }
      var p := Clamp(value, minProgress, maxProgress);
      progress := p;
      Notify(ProgressChanged(p, fromUser));
    }

    /** setAnimatedProgress: the request handed to the animator. It starts at the current
        progress and ends at the target clamped into range; nothing changes until frames
        arrive. */
    method SetAnimatedProgress(target: real) returns (anim: Animation)
      ensures anim.from == progress
      ensures minProgress <= maxProgress ==> InRange(anim.to, minProgress, maxProgress)
      ensures InRange(target, minProgress, maxProgress) ==> anim.to == target
      ensures anim.to == target || anim.to == minProgress || anim.to == maxProgress
    {
      anim := Animation(progress, Clamp(target, minProgress, maxProgress));
    }

    /** One animation frame at an eased fraction of the run: the frame's value is stored as
        it is, without a range check, and reported with fromUser false. A frame of an
        animation between in-range values keeps the progress in range. */
    method ApplyAnimationFrame(anim: Animation, fraction: real)
      modifies this`progress, this`notifications
      ensures progress == FrameValue(anim, fraction)
      ensures notifications == old(notifications) + Deliver(listener, ProgressChanged(progress, false))
      ensures InRange(anim.from, minProgress, maxProgress) && InRange(anim.to, minProgress, maxProgress) &&
              0.0 <= fraction <= 1.0 ==>
                ProgressInRange()
    {
      var value := FrameValue(anim, fraction);
      if InRange(anim.from, minProgress, maxProgress) && InRange(anim.to, minProgress, maxProgress)
         && 0.0 <= fraction <= 1.0 {
        FrameInRange(anim, fraction, minProgress, maxProgress);
      }
      progress := value;
      Notify(ProgressChanged(value, false));
    }

    /** setMaximumProgress: stored unconditionally; nothing checks it against the minimum or
        the progress, so it keeps the range invariant exactly when it stays above both. */
    method SetMaximumProgress(value: real)
      modifies this`maxProgress
      ensures maxProgress == value
      ensures ProgressInRange() <==> minProgress <= progress <= value
      ensures old(minProgress < maxProgress) && value <= minProgress ==> !(minProgress < maxProgress)
    {
      maxProgress := value;
    }

    /** setMinimumProgress: a value not below the maximum is logged and ignored; otherwise it
        is stored, and the progress is not re-clamped. */
    method SetMinimumProgress(value: real)
      modifies this`minProgress, this`warnings
      ensures value >= maxProgress ==>
        minProgress == old(minProgress) && warnings == old(warnings) + [MinimumNotBelowMaximum(value, maxProgress)]
      ensures value < maxProgress ==> minProgress == value && warnings == old(warnings)
      ensures old(minProgress) < maxProgress ==> minProgress < maxProgress
      ensures old(ProgressInRange()) && value <= progress ==> ProgressInRange()
    {
      if value >= maxProgress {
        warnings := warnings + [MinimumNotBelowMaximum(value, maxProgress)];
        return;
      }
      minProgress := value;
    }

    /** setPadding: the padding is stored; unequal sides are logged. */
    method SetPadding(left: int, top: int, right: int, bottom: int)
      modifies this`padding, this`warnings
      ensures padding == Padding(left, top, right, bottom)
      ensures warnings == old(warnings) + PaddingWarnings(padding)
      ensures |warnings| == |old(warnings)| + 1 <==> !Uniform(padding)
    {
      padding := Padding(left, top, right, bottom);
      warnings := warnings + PaddingWarnings(padding);
    }

    /** The geometry part of a draw pass (shared by both variants' onDraw). */
    method ApplyLayout(width: int, height: int)
      modifies this`center, this`innerRadius, this`outerRadius, this`rect
      ensures CurrentLayout() == ComputeLayout(width, height, padding, thickness)
    {
      var l := ComputeLayout(width, height, padding, thickness);
      center, outerRadius, innerRadius, rect := l.center, l.outerRadius, l.innerRadius, l.rect;
    }

    /** The radial hit test both variants share: the pointer's distance lies in the ring
        widened by the touch reach, that is, the touch padding or twice the thumb radius
        reaches it. */
    predicate InTouchBand(distance: real): (hit: bool)
      reads this
      ensures hit <==> InBand(distance, innerRadius, outerRadius, touchPadding) ||
                       InBand(distance, innerRadius, outerRadius, 2.0 * thumbRadius)
    {
      InBandEitherReach(distance, innerRadius, outerRadius, touchPadding, thumbRadius);
      InBand(distance, innerRadius, outerRadius, TouchReach(touchPadding, thumbRadius))
    }
  }

  /** An animation requested on an in-range seekbar keeps the progress in range at every
      frame: the request starts at the current progress and ends at the clamped target. */
  method AnimatedFrameStaysInRange(s: BaseSeekbar, target: real, fraction: real)
    requires s.minProgress <= s.maxProgress && s.ProgressInRange()
    requires 0.0 <= fraction <= 1.0
    modifies s
    ensures s.ProgressInRange()
    ensures s.minProgress == old(s.minProgress) && s.maxProgress == old(s.maxProgress)
  {
    var anim := s.SetAnimatedProgress(target);
    s.ApplyAnimationFrame(anim, fraction);
  }
}
