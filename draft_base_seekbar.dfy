/** The earlier draft of the base seekbar (the `cicularseekbar` module's BaseSeekbar.kt).
    Unlike the released one it has no minimum or maximum: progress must lie in [1, 100]
    and anything else throws instead of being clamped. Its touch and drawing members are
    abstract and have no implementation in that module. */
module DraftBase {
  import opened Wrappers
  import opened SeekbarMath
  import Progress

  const DEFAULT_THICKNESS_DP: real := 20.0
  const DEFAULT_THUMB_RADIUS_DP: real := 10.0
  const DEFAULT_THUMB_PADDING_DP: real := 4.0
  const DEFAULT_PROGRESS: real := 0.1

  /** The draft's accepted progress range, [1, 100]. */
  predicate AcceptsProgress(v: real)
  {
    InRange(v, 1.0, 100.0)
  }

  /** The IllegalArgumentException a rejected progress value throws. */
  datatype ProgressError = IllegalProgress(value: real)

  /** The styled attributes the draft base reads (colours left out). */
  datatype Attributes = Attributes(
    thickness: real, thumbPadding: real, thumbRadius: real, progress: real,
    showThumb: bool, enableTouch: bool)

  class BaseSeekbar {
    var listener: Option<Progress.ListenerId>
    var progress: real
    var thumbPadding: real
    var thickness: real
    var thumbRadius: real
    var showThumb: bool
    var enableTouch: bool
    var padding: Padding
    var notifications: seq<Progress.Notification>
    var warnings: seq<Progress.Warning>

    /** Construction: defaults scaled by the display density, or the attribute values, the
        progress stored without any range check; then the constructor's listener hears the
        initial progress. */
    constructor (density: real, attrs: Option<Attributes>, listener: Option<Progress.ListenerId>)
      ensures this.listener == listener
      ensures attrs.None? ==>
        && progress == DEFAULT_PROGRESS
        && thumbPadding == DEFAULT_THUMB_PADDING_DP * density
        && thickness == DEFAULT_THICKNESS_DP * density
        && thumbRadius == DEFAULT_THUMB_RADIUS_DP * density
        && showThumb && enableTouch
      ensures attrs.Some? ==>
        && progress == attrs.value.progress
        && thumbPadding == attrs.value.thumbPadding && thickness == attrs.value.thickness
        && thumbRadius == attrs.value.thumbRadius
        && showThumb == attrs.value.showThumb && enableTouch == attrs.value.enableTouch
      ensures padding == Padding(0, 0, 0, 0) && warnings == []
      ensures notifications == Progress.Deliver(listener, Progress.ProgressChanged(progress, false))
    {
      this.listener := listener;
      padding := Padding(0, 0, 0, 0);
      warnings := [];
      var p: real;
      match attrs {
        case None =>
          p := DEFAULT_PROGRESS;
          thumbPadding := DEFAULT_THUMB_PADDING_DP * density;
          thickness := DEFAULT_THICKNESS_DP * density;
          thumbRadius := DEFAULT_THUMB_RADIUS_DP * density;
          showThumb, enableTouch := true, true;
        case Some(a) =>
          thickness, thumbRadius, thumbPadding := a.thickness, a.thumbRadius, a.thumbPadding;
          showThumb, enableTouch := a.showThumb, a.enableTouch;
          p := a.progress;
      }
      progress := p;
      notifications := Progress.Deliver(listener, Progress.ProgressChanged(p, false));
    }

    /** setThickness (pixel overload). */
    method SetThickness(size: real)
      modifies this`thickness
      ensures thickness == size
    {
      thickness := size;
    }

    /** setThumbRadius (pixel overload). */
    method SetThumbRadius(radius: real)
      modifies this`thumbRadius
      ensures thumbRadius == radius
    {
      thumbRadius := radius;
    }

    /** setThumbPadding (pixel overload). */
    method SetThumbPadding(p: real)
      modifies this`thumbPadding
      ensures thumbPadding == p
    {
      thumbPadding := p;
    }

    method SetShowThumb(b: bool)
      modifies this`showThumb
      ensures showThumb == b
    {
      showThumb := b;
    }

    method SetEnableTouch(b: bool)
      modifies this`enableTouch
      ensures enableTouch == b
    {
      enableTouch := b;
    }

    /** setProgressChangeListener: the single slot now holds this listener only. */
    method SetProgressChangeListener(l: Progress.ListenerId)
      modifies this`listener
      ensures listener == Some(l)
    {
      listener := Some(l);
    }

    /** removeProgressChangeListener: the slot is emptied. */
    method RemoveProgressChangeListener()
      modifies this`listener
      ensures listener == None
    {
      listener := None;
    }

    /** setProgress: a value outside [1, 100] throws and changes nothing, not even the
        listener's log; an accepted value is stored exactly and reported once. */
    method SetProgress(value: real, fromUser: bool) returns (r: Outcome<ProgressError>)
      modifies this`progress, this`notifications
      ensures r.Pass? <==> AcceptsProgress(value)
      ensures r.Fail? ==>
        r.error == IllegalProgress(value) && progress == old(progress) && notifications == old(notifications)
      ensures r.Pass? ==>
        && progress == value
        && notifications == old(notifications) + Progress.Deliver(listener, Progress.ProgressChanged(value, fromUser))
    {
      if !AcceptsProgress(value) {
        return Fail(IllegalProgress(value));
      }
      progress := value;
      notifications := notifications + Progress.Deliver(listener, Progress.ProgressChanged(value, fromUser));
      r := Pass;
    }

    /** setAnimatedProgress: the animator runs from the current progress to the target as
        given; the target is neither checked nor clamped. */
    method SetAnimatedProgress(target: real) returns (anim: Progress.Animation)
      ensures anim.from == progress && anim.to == target
    {
      anim := Progress.Animation(progress, target);
    }

    /** One animation frame at an eased fraction of the run: the frame's value is stored
        without a check and reported with fromUser false. Only an animation between two
        accepted values is sure to produce accepted values. */
    method ApplyAnimationFrame(anim: Progress.Animation, fraction: real)
      modifies this`progress, this`notifications
      ensures progress == Progress.FrameValue(anim, fraction)
      ensures notifications ==
        old(notifications) + Progress.Deliver(listener, Progress.ProgressChanged(progress, false))
      ensures AcceptsProgress(anim.from) && AcceptsProgress(anim.to) && 0.0 <= fraction <= 1.0 ==>
        AcceptsProgress(progress)
    {
      var value := Progress.FrameValue(anim, fraction);
      if AcceptsProgress(anim.from) && AcceptsProgress(anim.to) && 0.0 <= fraction <= 1.0 {
        Progress.FrameInRange(anim, fraction, 1.0, 100.0);
      }
      progress := value;
      notifications := notifications + Progress.Deliver(listener, Progress.ProgressChanged(value, false));
    }

    /** setPadding: the padding is stored; unequal sides are logged. */
    method SetPadding(left: int, top: int, right: int, bottom: int)
      modifies this`padding, this`warnings
      ensures padding == Padding(left, top, right, bottom)
      ensures warnings == old(warnings) + Progress.PaddingWarnings(padding)
    {
      padding := Padding(left, top, right, bottom);
      warnings := warnings + Progress.PaddingWarnings(padding);
    }
  }

  /** After the listener is removed, a setProgress (accepted or not) tells no one. */
  method RemovedListenerHearsNothing(s: BaseSeekbar, value: real, fromUser: bool)
    modifies s
    ensures s.listener == None
    ensures s.notifications == old(s.notifications)
  {
    s.RemoveProgressChangeListener();
    var _ := s.SetProgress(value, fromUser);
  }

  /** Registering a second listener replaces the first: an accepted setProgress reaches the
      newest listener only. */
  method NewestListenerHearsProgress(s: BaseSeekbar, first: Progress.ListenerId,
                                     second: Progress.ListenerId, value: real)
    requires AcceptsProgress(value)
    modifies s
    ensures s.notifications ==
      old(s.notifications) + [Progress.Notification(second, Progress.ProgressChanged(value, false))]
  {
    s.SetProgressChangeListener(first);
    s.SetProgressChangeListener(second);
    var _ := s.SetProgress(value, false);
  }
}
