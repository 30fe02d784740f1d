/** The arithmetic shared by every seekbar variant: value ranges and clamping, the pointer
    angle as atan2 reports it, the radial touch band, and the layout a draw pass derives
    from the widget's size. Floating-point numbers are modelled as reals. */
module SeekbarMath {
  import opened Wrappers

  // ---------------------------------------------------------------------------------------
  // Ranges

  /** Kotlin's `v in lo..hi` on floats. It is empty when lo > hi. */
  predicate InRange(v: real, lo: real, hi: real)
  {
    lo <= v <= hi
  }

  /** androidx MathUtils.clamp: a value below lo gives lo, otherwise a value above hi gives hi.
      When lo > hi every value lands on lo or hi, never inside. */
  function Clamp(v: real, lo: real, hi: real): (r: real)
    ensures lo <= hi ==> InRange(r, lo, hi)
    ensures InRange(v, lo, hi) ==> r == v
    ensures r == v || r == lo || r == hi
    ensures r != v ==> !InRange(v, lo, hi)
  {
    if v < lo then lo else if v > hi then hi else v
  }

  /** Clamping a value that is already clamped changes nothing. */
  lemma ClampIdempotent(v: real, lo: real, hi: real)
    requires lo <= hi
    ensures Clamp(Clamp(v, lo, hi), lo, hi) == Clamp(v, lo, hi)
  {
  }

  // ---------------------------------------------------------------------------------------
  // Pointer events

  /** Points in screen coordinates: y grows downwards, so angles grow clockwise. */
  datatype Point = Point(x: real, y: real)

  datatype Rect = Rect(left: real, top: real, right: real, bottom: real)

  /** The view's padding in pixels. */
  datatype Padding = Padding(left: int, top: int, right: int, bottom: int)

  /** The seekbar expects the same padding on all four sides. */
  predicate Uniform(p: Padding)
  {
    p.left == p.top && p.left == p.bottom && p.left == p.right
  }

  /** The MotionEvent actions the seekbars react to; every other action code is OtherAction. */
  datatype Action = Down | Up | Move | OtherAction

  /** A pointer event as the touch engine consumes it: the action, the angle of the pointer
      about the centre in degrees as atan2 reports it, and its distance from the centre. */
  datatype TouchEvent = TouchEvent(action: Action, rawAngle: real, distance: real)

  /** The range of atan2 converted to degrees. */
  predicate IsAtan2Degrees(raw: real)
  {
    -180.0 <= raw <= 180.0
  }

  /** First step of every variant's angle computation: a negative atan2 angle gets a full
      turn added, which puts it into [0, 360) without changing its direction. */
  function PositiveAngle(raw: real): (a: real)
    ensures IsAtan2Degrees(raw) ==> 0.0 <= a < 360.0
    ensures a - raw in {0.0, 360.0}
  {
    if raw < 0.0 then raw + 360.0 else raw
  }

  /** The angle atan2 reports for a pointer in direction d (degrees, within one and a half
      turns of zero): d moved by whole turns into (-180, 180]. Used to state round trips. */
  function Atan2Of(d: real): (raw: real)
    ensures -540.0 < d <= 540.0 ==> -180.0 < raw <= 180.0 && IsAtan2Degrees(raw)
    ensures raw - d in {-360.0, 0.0, 360.0}
  {
    if d > 180.0 then d - 360.0 else if d <= -180.0 then d + 360.0 else d
  }

  // ---------------------------------------------------------------------------------------
  // The radial touch band

  /** How far outside the drawn ring a touch still counts: the larger of the touch padding
      and the thumb's diameter. */
  function TouchReach(touchPadding: real, thumbRadius: real): (reach: real)
    ensures reach >= touchPadding && reach >= 2.0 * thumbRadius
    ensures reach == touchPadding || reach == 2.0 * thumbRadius
  {
    if touchPadding >= 2.0 * thumbRadius then touchPadding else 2.0 * thumbRadius
  }

  /** A distance from the centre lies in the touchable ring. */
  predicate InBand(distance: real, innerRadius: real, outerRadius: real, reach: real)
  {
    InRange(distance, innerRadius - reach, outerRadius + reach)
  }

  /** Widening the reach never turns a touch away. */
  lemma InBandMonotonic(distance: real, innerRadius: real, outerRadius: real, r1: real, r2: real)
    requires r1 <= r2
    requires InBand(distance, innerRadius, outerRadius, r1)
    ensures InBand(distance, innerRadius, outerRadius, r2)
  {
  }

  /** The band widened by the larger of the two reaches is the union of the two widened
      bands: a touch hits when either the touch padding or twice the thumb radius reaches it. */
  lemma InBandEitherReach(distance: real, innerRadius: real, outerRadius: real,
                          touchPadding: real, thumbRadius: real)
    ensures InBand(distance, innerRadius, outerRadius, TouchReach(touchPadding, thumbRadius)) <==>
      InBand(distance, innerRadius, outerRadius, touchPadding) ||
      InBand(distance, innerRadius, outerRadius, 2.0 * thumbRadius)
  {
  }

  // ---------------------------------------------------------------------------------------
  // Layout and drawing

  /** What a draw pass derives from the widget's size: the centre, the outer and inner radius
      of the ring, and the square the arcs are drawn in. */
  datatype Layout = Layout(center: Point, outerRadius: real, innerRadius: real, rect: Rect)

  /** The layout of a draw pass. As written, the vertical bound subtracts the RIGHT padding
      (not the top one); with uniform padding the two agree. */
  function ComputeLayout(width: int, height: int, padding: Padding, thickness: real): (l: Layout)
    ensures l.center == Point(width as real / 2.0, height as real / 2.0)
    ensures l.outerRadius <= l.center.x - padding.left as real
    ensures l.outerRadius <= l.center.y - padding.right as real
    ensures l.outerRadius == l.center.x - padding.left as real
         || l.outerRadius == l.center.y - padding.right as real
    ensures l.innerRadius == l.outerRadius - thickness / 2.0
    ensures l.rect.right - l.rect.left == 2.0 * l.innerRadius
    ensures l.rect.bottom - l.rect.top == 2.0 * l.innerRadius
    ensures (l.rect.left + l.rect.right) / 2.0 == l.center.x
    ensures (l.rect.top + l.rect.bottom) / 2.0 == l.center.y
  {
    var c := Point(width as real / 2.0, height as real / 2.0);
    var byWidth := c.x - padding.left as real;
    var byHeight := c.y - padding.right as real;
    var outer := if byWidth <= byHeight then byWidth else byHeight;
    var inner := outer - thickness / 2.0;
    Layout(c, outer, inner, Rect(c.x - inner, c.y - inner, c.x + inner, c.y + inner))
  }

  /** With uniform padding the outer circle of the ring stays inside the padded content box. */
  lemma LayoutInsideContentBox(width: int, height: int, padding: Padding, thickness: real)
    requires Uniform(padding)
    ensures var l := ComputeLayout(width, height, padding, thickness);
      && l.center.x - l.outerRadius >= padding.left as real
      && l.center.x + l.outerRadius <= width as real - padding.right as real
      && l.center.y - l.outerRadius >= padding.top as real
      && l.center.y + l.outerRadius <= height as real - padding.bottom as real
  {
  }

  /** The angular part of a progress arc: fullSweep * (progress - min) / (max - min). It is
      None when max == min, where the float division yields no finite angle. */
  function ProgressSweep(progress: real, min: real, max: real, fullSweep: real): (s: Option<real>)
    ensures s.Some? <==> min != max
    ensures s.Some? && progress == min ==> s.value == 0.0
  {
    if max == min then None else Some(fullSweep * (progress - min) / (max - min))
  }

  /** n / d for 0 <= n <= d lies in [0, 1], and equals 1 only when n == d. */
  lemma FractionInUnit(n: real, d: real)
    requires 0.0 < d && 0.0 <= n <= d
    ensures 0.0 <= n / d <= 1.0
    ensures n / d < 1.0 <==> n < d
  {
    var f := n / d;
    assert f * d == n;
    MulSignAndOrder(f, d);
  }

  /** With d positive, f * d keeps the sign of f and compares with d as f compares with 1. */
  lemma MulSignAndOrder(f: real, d: real)
    requires 0.0 < d
    ensures f < 0.0 <==> f * d < 0.0
    ensures f > 1.0 <==> f * d > d
    ensures f == 1.0 <==> f * d == d
  {
  }

  /** Moving a fraction f in [0, 1] of the way from lo to hi stays between the two, and a
      fraction short of 1 stays short of hi. */
  lemma LerpInRange(lo: real, hi: real, f: real)
    requires lo <= hi && 0.0 <= f <= 1.0
    ensures InRange(lo + f * (hi - lo), lo, hi)
    ensures f < 1.0 && lo < hi ==> lo + f * (hi - lo) < hi
  {
    var d := hi - lo;
    var rest := 1.0 - f;
    assert f * d + rest * d == d;
    assert 0.0 <= f * d;
    assert 0.0 <= rest * d;
    if f < 1.0 && lo < hi {
      assert 0.0 < rest * d;
    }
  }

  /** For in-range progress on a non-empty range the progress arc spans between none and all
      of the full sweep, and covers all of it exactly at the maximum. */
  lemma {:induction false} ProgressSweepBounds(progress: real, min: real, max: real, fullSweep: real)
    requires min < max && InRange(progress, min, max) && 0.0 < fullSweep
    ensures ProgressSweep(progress, min, max, fullSweep).Some?
    ensures InRange(ProgressSweep(progress, min, max, fullSweep).value, 0.0, fullSweep)
    ensures ProgressSweep(progress, min, max, fullSweep).value < fullSweep <==> progress < max
  {
    var f := (progress - min) / (max - min);
    FractionInUnit(progress - min, max - min);
    assert fullSweep * (progress - min) / (max - min) == fullSweep * f;
    assert 0.0 <= fullSweep * f <= fullSweep * 1.0;
    assert fullSweep * f < fullSweep <==> f < 1.0;
  }

  /** What one draw pass hands to the canvas: where the arcs start (degrees), how far the
      track and the progress arc sweep, and where the thumb is drawn (None when it is hidden
      or when the progress arc has no finite angle). */
  datatype Drawing = Drawing(startAngle: real, trackSweep: real, progressSweep: Option<real>,
                             thumbAngle: Option<real>)

  /** Assemble a drawing: the thumb sits at the end of the progress arc when shown. */
  function MakeDrawing(start: real, track: real, sweep: Option<real>, showThumb: bool): Drawing
  {
    Drawing(start, track, sweep,
            if showThumb && sweep.Some? then Some(start + sweep.value) else None)
  }

  /** For in-range progress on a non-empty range the progress arc lies within the track and
      the thumb, when shown, sits on the track: between its start and its end, at the end
      exactly for the maximum. */
  lemma {:induction false} ThumbOnTrack(start: real, track: real, progress: real, min: real, max: real,
                                        showThumb: bool)
    requires min < max && InRange(progress, min, max) && 0.0 < track
    ensures var d := MakeDrawing(start, track, ProgressSweep(progress, min, max, track), showThumb);
      && d.progressSweep.Some? && InRange(d.progressSweep.value, 0.0, d.trackSweep)
      && (d.thumbAngle.Some? <==> showThumb)
      && (d.thumbAngle.Some? ==> InRange(d.thumbAngle.value, d.startAngle, d.startAngle + d.trackSweep))
      && (d.thumbAngle.Some? ==> (d.thumbAngle.value == d.startAngle + d.trackSweep <==> progress == max))
  {
    ProgressSweepBounds(progress, min, max, track);
  }
}
