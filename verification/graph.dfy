/** The GraphView class: its viewport state and the gesture, animation and programmatic
    operations that change it.  The OverScroller, Zoomer and EdgeEffectCompat objects are
    not modelled; what the class reads from them (scroller position, zoom fraction,
    whether a glow has finished) arrives as method parameters, and what it hands to them
    (a fling request, a zoom amount) is recorded in a field. */
module Graph {
  import opened Geometry
  import opened Transform
  import opened Viewport
  import opened EdgeEffects
  import opened Pinch

  datatype Option<T> = None | Some(value: T)

  /** The arguments of the OverScroller.fling call that fling() makes. */
  datatype FlingRequest = FlingRequest(startX: int, startY: int, velocityX: int, velocityY: int,
                                       minX: int, maxX: int, minY: int, maxY: int,
                                       overX: int, overY: int)

  /** The vertical scroll offset, in pixels of a surface of height s, of a viewport whose
      bottom edge is `bottom`: 0 at the top of the axis range, truncated toward zero. */
  function OffsetOfBottom(s: int, bottom: real): int {
    TruncToInt(s as real * (AXIS_Y_MAX - bottom) / (AXIS_Y_MAX - AXIS_Y_MIN))
  }

  /** The bottom edge a vertical scroll offset of `currY` pixels stands for. */
  function BottomAtOffset(s: int, currY: int): real
    requires s != 0
  {
    AXIS_Y_MAX - (AXIS_Y_MAX - AXIS_Y_MIN) * currY as real / s as real
  }

  /** What fling() asks of the scroller when the viewport is `v`: horizontally the scroll
      range is pinned to [0, 0] and the start is the viewport width (cast to int) times
      the content width; vertically the range is the scroll surface below the content
      and the start is the viewport's offset from the top of the axis range. */
  function FlingFrom(v: RectF, c: PixelRect, yScroll: bool, velocityX: int, velocityY: int): (r: FlingRequest)
    requires yScroll ==> v.Height() != 0.0
    ensures r.velocityX == velocityX && r.velocityY == velocityY
    ensures r.minX == 0 && r.maxX == 0 && r.minY == 0
    // with y scrolling disabled there is no vertical range at all
    ensures !yScroll ==> r.startY == 0 && r.maxY == 0
    // a viewport touching the top of the axis range starts the fling at offset 0
    ensures v.bottom == AXIS_Y_MAX ==> r.startY == 0
    ensures -1 <= c.Height() - 2 * r.overY <= 1
    // with y scrolling the y range ends one content height before the surface's end
    ensures yScroll ==> r.maxY == SurfaceSize(c, v, yScroll).y - c.Height()
    // the x overscroll is the viewport width truncated to int, and the x start is that
    // many content widths: a pixel count unrelated to the [0, 0] x range
    ensures 0.0 <= v.Width() ==> r.overX as real <= v.Width() < r.overX as real + 1.0
    ensures r.startX == r.overX * c.Width()
    ensures 0.0 <= v.Width() < 1.0 ==> r.startX == 0
    ensures v.Width() >= 1.0 && c.Width() > 0 ==> r.startX >= c.Width() > r.maxX
  {
    var surface := SurfaceSize(c, v, yScroll);
    var startY := if yScroll then OffsetOfBottom(surface.y, v.bottom)
                  else 0;
    FlingRequest(TruncToInt(v.Width()) * c.Width(), startY, velocityX, velocityY,
                 0, 0, 0, surface.y - c.Height(), TruncToInt(v.Width()), HalfTowardZero(c.Height()))
  }

  /** Whether the viewport can still move horizontally: it is not pinned at both the
      moving left extreme and AXIS_X_MAX, and x scrolling is enabled. */
  function CanScroll(lo: real, hi: real, min: real, max: real, enabled: bool): bool {
    (lo > min || hi < max) && enabled
  }

  /** The bottom-left corner a fling frame pans to, given the scroller position
      (currX, currY).  With x (y) scrolling disabled the coordinate is 0, which
      setViewportBottomLeft then clamps.  The x target adds the scroller's pixel
      position to the current left edge, a chart coordinate, without converting units. */
  function FlingTarget(v: RectF, xScroll: bool, yScroll: bool, currX: int, currY: int, surface: Point): (p: PointF)
    requires yScroll ==> surface.y != 0
    ensures xScroll ==> p.x == v.left + currX as real
    ensures !xScroll ==> p.x == 0.0
    ensures !yScroll ==> p.y == 0.0
    // scroll offset 0 is the top of the axis range, the surface height its bottom
    ensures yScroll && currY == 0 ==> p.y == AXIS_Y_MAX
    ensures yScroll && currY == surface.y ==> p.y == AXIS_Y_MIN
  {
    var x := if xScroll then v.left + currX as real else 0.0;
    var y := if yScroll then BottomAtOffset(surface.y, currY)
             else 0.0;
    PointF(x, y)
  }

  /** The chart distance a drag of (distanceX, distanceY) pixels moves the viewport: the
      pixel distance in content widths (heights) times the viewport width (height).  A
      drag downwards (positive distanceY) moves towards smaller y. */
  function DragOffset(v: RectF, c: PixelRect, distanceX: real, distanceY: real): PointF
    requires c.Width() != 0 && c.Height() != 0
  {
    PointF(distanceX * v.Width() / c.Width() as real, -distanceY * v.Height() / c.Height() as real)
  }

  /** onScroll's conversion makes the chart follow the finger: when neither clamp of
      setViewportBottomLeft bites, every chart point is drawn distanceX pixels further
      left and distanceY pixels further up than before the drag. */
  lemma DragFollowsFinger(v: RectF, c: PixelRect, distanceX: real, distanceY: real, x: real, y: real)
    requires c.Width() != 0 && c.Height() != 0 && v.Width() != 0.0 && v.Height() != 0.0
    requires v.left + DragOffset(v, c, distanceX, distanceY).x <= AXIS_X_MAX - v.Width()
    requires AXIS_Y_MIN + v.Height() <= v.bottom + DragOffset(v, c, distanceX, distanceY).y <= AXIS_Y_MAX
    ensures var off := DragOffset(v, c, distanceX, distanceY);
      var v' := PanTo(v, v.left + off.x, v.bottom + off.y);
      && DrawX(v', c.Frame(), x) == DrawX(v, c.Frame(), x) - distanceX
      && DrawY(v', c.Frame(), y) == DrawY(v, c.Frame(), y) - distanceY
  {
    DragFollowsX(v, c, distanceX, distanceY, x);
    DragFollowsY(v, c, distanceX, distanceY, y);
  }

  /** The x half of DragFollowsFinger. */
  lemma DragFollowsX(v: RectF, c: PixelRect, distanceX: real, distanceY: real, x: real)
    requires c.Width() != 0 && c.Height() != 0 && v.Width() != 0.0
    requires v.left + DragOffset(v, c, distanceX, distanceY).x <= AXIS_X_MAX - v.Width()
    ensures var off := DragOffset(v, c, distanceX, distanceY);
      DrawX(PanTo(v, v.left + off.x, v.bottom + off.y), c.Frame(), x) == DrawX(v, c.Frame(), x) - distanceX
  {
    var off := DragOffset(v, c, distanceX, distanceY);
    var v' := PanTo(v, v.left + off.x, v.bottom + off.y);
    var f := c.Frame();
    assert v'.left == v.left + distanceX * v.Width() / f.Width() && v'.Width() == v.Width();
    ShiftX(f.left, f.Width(), v.Width(), v.left, v'.left, x, distanceX, DrawX(v, f, x), DrawX(v', f, x));
  }

  /** The y half of DragFollowsFinger. */
  lemma DragFollowsY(v: RectF, c: PixelRect, distanceX: real, distanceY: real, y: real)
    requires c.Width() != 0 && c.Height() != 0 && v.Height() != 0.0
    requires AXIS_Y_MIN + v.Height() <= v.bottom + DragOffset(v, c, distanceX, distanceY).y <= AXIS_Y_MAX
    ensures var off := DragOffset(v, c, distanceX, distanceY);
      DrawY(PanTo(v, v.left + off.x, v.bottom + off.y), c.Frame(), y) == DrawY(v, c.Frame(), y) - distanceY
  {
    var off := DragOffset(v, c, distanceX, distanceY);
    var v' := PanTo(v, v.left + off.x, v.bottom + off.y);
    var f := c.Frame();
    assert v'.top == v.top + -distanceY * v.Height() / f.Height() && v'.Height() == v.Height();
    ShiftY(f.bottom, f.Height(), v.Height(), v.top, v'.top, y, distanceY, DrawY(v, f, y), DrawY(v', f, y));
  }

  /** One axis of DragFollowsFinger: moving the interval start from lo to lo' by d
      content units of size w / cw moves the drawn position px of x back by d. */
  lemma ShiftX(clo: real, cw: real, w: real, lo: real, lo': real, x: real, d: real, px: real, px': real)
    requires cw != 0.0 && w != 0.0
    requires lo' == lo + d * w / cw
    requires px == Offset(clo, cw, x - lo, w) && px' == Offset(clo, cw, x - lo', w)
    ensures px' == px - d
  {
    var e := d * w / cw;
    Cancel(cw, d, w);
    Distrib(cw, x - lo, e, w);
  }

  /** The same on the inverted y axis, drawn with Anchor from the content's bottom edge. */
  lemma ShiftY(cb: real, ch: real, h: real, top: real, top': real, y: real, d: real, py: real, py': real)
    requires ch != 0.0 && h != 0.0
    requires top' == top + -d * h / ch
    requires py == Anchor(cb, ch, y - top, h) && py' == Anchor(cb, ch, y - top', h)
    ensures py' == py - d
  {
    var e := -d * h / ch;
    Cancel(ch, -d, h);
    Distrib(ch, y - top, e, h);
  }

  /** Multiplication distributes over the difference in a scaled offset. */
  lemma Distrib(c: real, t: real, e: real, w: real)
    requires w != 0.0
    ensures c * (t - e) / w == c * t / w - c * e / w
  {
  }

  /** Scaling d by w / c and then by c / w gives d back. */
  lemma Cancel(c: real, d: real, w: real)
    requires c != 0.0 && w != 0.0
    ensures c * (d * w / c) / w == d
  {
    var e := d * w / c;
    assert e * c == d * w;
    assert c * e == w * d;
  }

  /** onScroll's vertical pixel offset of the moved viewport within the scroll surface,
      measured from the top of the axis range. */
  function ScrolledY(v: RectF, offY: real, surface: Point): int {
    TruncToInt(surface.y as real * (AXIS_Y_MAX - v.bottom - offY) / (AXIS_Y_MAX - AXIS_Y_MIN))
  }

  /** The viewport, the moving left extreme and the edge flags after the fling half of
      computeScroll, and the edges that frame absorbed. */
  datatype FlingFrame = FlingFrame(viewport: RectF, axisXMin: real, edges: EdgeFlags, absorbed: EdgeFlags)

  /** The fling half of computeScroll, from viewport `v`: the absorb step on the edge
      flags, then setViewportBottomLeft to the fling target. */
  function FlingStep(v: RectF, c: PixelRect, axisXMin: real, edges: EdgeFlags, xScroll: bool, yScroll: bool,
                     currX: int, currY: int, finished: EdgeFlags): (r: FlingFrame)
    requires yScroll ==> v.Height() != 0.0 && SurfaceSize(c, v, yScroll).y != 0
    ensures var surface := SurfaceSize(c, v, yScroll);
      var a := AbsorbStep(edges, CanScroll(v.left, v.right, axisXMin, AXIS_X_MAX, xScroll),
                          CanScroll(v.top, v.bottom, AXIS_Y_MIN, AXIS_Y_MAX, yScroll),
                          currX, currY, surface, c, finished);
      var t := FlingTarget(v, xScroll, yScroll, currX, currY, surface);
      && r.edges == a.flags && r.absorbed == a.absorbed
      && r.viewport == PanTo(v, t.x, t.y)
    ensures r.viewport.Width() == v.Width() && r.viewport.Height() == v.Height()
    ensures r.viewport.right <= AXIS_X_MAX
    ensures r.axisXMin == Min(axisXMin, r.viewport.left)
    // the left edge moves by the scroller's pixel position, up to the AXIS_X_MAX clamp
    ensures xScroll ==> r.viewport.left == Min(v.left + currX as real, AXIS_X_MAX - v.Width())
    // with x scrolling disabled the left edge is pulled to 0 (or as close as AXIS_X_MAX allows)
    ensures !xScroll ==> r.viewport.left == Min(0.0, AXIS_X_MAX - v.Width())
    ensures forall e :: r.absorbed.Get(e) ==> !edges.Get(e) && r.edges.Get(e)
    ensures forall e :: edges.Get(e) ==> r.edges.Get(e)
  {
    var surface := SurfaceSize(c, v, yScroll);
    var a := AbsorbStep(edges, CanScroll(v.left, v.right, axisXMin, AXIS_X_MAX, xScroll),
                        CanScroll(v.top, v.bottom, AXIS_Y_MIN, AXIS_Y_MAX, yScroll),
                        currX, currY, surface, c, finished);
    var t := FlingTarget(v, xScroll, yScroll, currX, currY, surface);
    var v' := PanTo(v, t.x, t.y);
    FlingFrame(v', Min(axisXMin, v'.left), a.flags, a.absorbed)
  }

  /** A fling frame at the scroller's starting position currY = startY (as fling() set
      it from viewport `v`) puts the bottom edge back where it was, to within one pixel of
      the scroll surface: truncating the start offset can only move it up. */
  lemma FlingResumesY(v: RectF, c: PixelRect, axisXMin: real, edges: EdgeFlags, xScroll: bool,
                      currX: int, finished: EdgeFlags, velocityX: int, velocityY: int)
    requires v.Height() != 0.0 && SurfaceSize(c, v, true).y > 0
    requires AXIS_Y_MIN + v.Height() <= v.bottom <= AXIS_Y_MAX
    ensures var s := SurfaceSize(c, v, true).y;
      var startY := FlingFrom(v, c, true, velocityX, velocityY).startY;
      var r := FlingStep(v, c, axisXMin, edges, xScroll, true, currX, startY, finished).viewport;
      v.bottom <= r.bottom < v.bottom + (AXIS_Y_MAX - AXIS_Y_MIN) / s as real
  {
    var surface := SurfaceSize(c, v, true);
    var startY := FlingFrom(v, c, true, velocityX, velocityY).startY;
    var t := FlingTarget(v, xScroll, true, currX, startY, surface);
    StartTargetY(v.bottom, surface.y, startY, t.y);
  }

  /** Where a fling frame at the scroller's starting x position (as fling() set it from
      viewport `v`) puts the viewport: the start is a pixel count that the frame adds to
      the left edge as chart units, so a viewport at least one unit wide is pushed to the
      right clamp, whichever way the fling goes, while a narrower one stays put. */
  lemma FlingResumesX(v: RectF, c: PixelRect, axisXMin: real, edges: EdgeFlags, yScroll: bool,
                      currY: int, finished: EdgeFlags, velocityX: int, velocityY: int)
    requires yScroll ==> v.Height() != 0.0 && SurfaceSize(c, v, yScroll).y != 0
    ensures var startX := FlingFrom(v, c, yScroll, velocityX, velocityY).startX;
      var r := FlingStep(v, c, axisXMin, edges, true, yScroll, startX, currY, finished).viewport;
      && (v.Width() >= 1.0 && c.Width() > 0 && v.right >= 0.0 ==> r.right == AXIS_X_MAX)
      && (0.0 <= v.Width() < 1.0 && v.right <= AXIS_X_MAX ==> r.left == v.left && r.right == v.right)
  {
    var startX := FlingFrom(v, c, yScroll, velocityX, velocityY).startX;
    var r := FlingStep(v, c, axisXMin, edges, true, yScroll, startX, currY, finished).viewport;
    assert r.left == Min(v.left + startX as real, AXIS_X_MAX - v.Width());
    assert r.right == r.left + v.Width();
  }

  /** The y half of FlingResumesY, on the numbers alone: startY is the truncated offset of
      `bottom` in a surface of height s, and ty the y target computed back from it. */
  lemma StartTargetY(bottom: real, s: int, startY: int, ty: real)
    requires s > 0 && bottom <= AXIS_Y_MAX
    requires startY == OffsetOfBottom(s, bottom) && ty == BottomAtOffset(s, startY)
    ensures bottom <= ty < bottom + (AXIS_Y_MAX - AXIS_Y_MIN) / s as real
  {
    var q := s as real * (AXIS_Y_MAX - bottom) / (AXIS_Y_MAX - AXIS_Y_MIN);
    assert 0.0 <= q;
    TruncBracket(startY as real, s as real, AXIS_Y_MAX - bottom, AXIS_Y_MAX - AXIS_Y_MIN);
  }

  /** If n is the whole part of s * d / range (s and range positive), then range * n / s
      is d rounded down to a multiple of range / s. */
  lemma TruncBracket(n: real, s: real, d: real, range: real)
    requires s > 0.0 && range > 0.0
    requires n <= s * d / range < n + 1.0
    ensures range * n / s <= d < range * n / s + range / s
  {
    var q := s * d / range;
    var lo, mid, hi := range * n, range * q, range * n + range;
    assert mid == s * d;
    MulPos(range, q - n);
    MulPos(range, n + 1.0 - q);
    assert mid - lo == range * (q - n) && hi - mid == range * (n + 1.0 - q);
    assert mid / s == d;
    DivMono(lo, mid, s);
    DivMono(mid, hi, s);
    assert hi / s == range * n / s + range / s;
  }

  /** A positive factor keeps the sign. */
  lemma MulPos(a: real, b: real)
    requires a > 0.0 && b >= 0.0
    ensures a * b >= 0.0 && (b > 0.0 ==> a * b > 0.0)
  {
  }

  /** Dividing by a positive number keeps the order. */
  lemma DivMono(a: real, b: real, s: real)
    requires s > 0.0 && a <= b
    ensures a / s <= b / s && (a < b ==> a / s < b / s)
  {
    assert b / s - a / s == (b - a) / s;
  }

  class GraphView {
    /** mCurrentViewport: the visible chart domain (left..right) and range (top..bottom). */
    var viewport: RectF
    /** mContentRect: where the chart is drawn, in pixels. */
    var content: PixelRect
    /** mScrollerStartViewport: the viewport when the current fling or zoom began. */
    var scrollerStart: RectF
    /** mZoomFocalPoint: the chart point an animated zoom is centred on. */
    var zoomFocalPoint: PointF
    /** AxisX_min: the moving left extreme; it follows the viewport leftwards. */
    var axisXMin: real
    /** The four mEdgeEffect*Active flags. */
    var edges: EdgeFlags
    /** The scale listener's fields viewportFocus, lastSpanX and lastSpanY. */
    var viewportFocus: PointF
    var lastSpanX: real
    var lastSpanY: real
    /** isXZoomEnabled, isYZoomEnabled, isXCanScrolled, isYCanScrolled. */
    var xZoom: bool
    var yZoom: bool
    var xScroll: bool
    var yScroll: bool
    /** The last request handed to the OverScroller (None once forceFinished). */
    var fling: Option<FlingRequest>
    /** The amount of the last Zoomer.startZoom call. */
    var zoom: Option<real>

    function CanScrollX(): bool
      reads this
    {
      CanScroll(viewport.left, viewport.right, axisXMin, AXIS_X_MAX, xScroll)
    }

    function CanScrollY(): bool
      reads this
    {
      CanScroll(viewport.top, viewport.bottom, AXIS_Y_MIN, AXIS_Y_MAX, yScroll)
    }

    /** The scale listener's state together with the viewport it rescales. */
    function Listener(): ScaleState
      reads this
    {
      ScaleState(viewport, viewportFocus, lastSpanX, lastSpanY)
    }

    /** A new view: the whole axis range is visible, nothing is laid out yet, x zoom and
        x scrolling are enabled, y zoom and y scrolling are not. */
    constructor ()
      ensures viewport == RectF(AXIS_X_MIN, AXIS_Y_MIN, AXIS_X_MAX, AXIS_Y_MAX)
      ensures content == PixelRect(0, 0, 0, 0)
      ensures axisXMin == AXIS_X_MIN && edges == Released
      ensures xZoom && !yZoom && xScroll && !yScroll
      ensures fling == None && zoom == None
    {
      viewport := RectF(AXIS_X_MIN, AXIS_Y_MIN, AXIS_X_MAX, AXIS_Y_MAX);
      content := PixelRect(0, 0, 0, 0);
      scrollerStart := RectF(0.0, 0.0, 0.0, 0.0);
      zoomFocalPoint := PointF(0.0, 0.0);
      axisXMin := AXIS_X_MIN;
      edges := Released;
      viewportFocus := PointF(0.0, 0.0);
      lastSpanX := 0.0;
      lastSpanY := 0.0;
      xZoom := true;
      yZoom := false;
      xScroll := true;
      yScroll := false;
      fling := None;
      zoom := None;
    }

    /** onSizeChanged: the content rectangle is the view minus its padding, the label
        column on the left and the label row at the bottom. */
    method OnSizeChanged(width: int, height: int, paddingLeft: int, paddingTop: int,
                         paddingRight: int, paddingBottom: int,
                         maxLabelWidth: int, labelHeight: int, labelSeparation: int)
      modifies this`content
      ensures content == PixelRect(paddingLeft + maxLabelWidth + labelSeparation, paddingTop,
                                   width - paddingRight,
                                   height - paddingBottom - labelHeight - labelSeparation)
    {
      content := PixelRect(paddingLeft + maxLabelWidth + labelSeparation, paddingTop,
                           width - paddingRight,
                           height - paddingBottom - labelHeight - labelSeparation);
    }

    /** constrainViewport: its body is commented out, so the viewport is left as it is. */
    method ConstrainViewport()
      modifies this`viewport
      ensures viewport == old(viewport)
    {
    }

    /** setViewportBottomLeft: move the viewport without resizing it (see PanTo), and
        lower the moving left extreme to the new left edge if it is further left.  It
        also posts a redraw, which leaves no trace in the view's state. */
    method SetViewportBottomLeft(x: real, y: real)
      modifies this`viewport, this`axisXMin
      ensures viewport == PanTo(old(viewport), x, y)
      ensures axisXMin == Min(old(axisXMin), viewport.left)
      ensures axisXMin <= old(axisXMin) && axisXMin <= viewport.left
    {
      var curWidth := viewport.Width();
      var curHeight := viewport.Height();
      var y' := Max(AXIS_Y_MIN + curHeight, Min(y, AXIS_Y_MAX));
      var x' := Min(x, AXIS_X_MAX - curWidth);
      if axisXMin >= x' {
        axisXMin := x';
      }
      viewport := RectF(x', y' - curHeight, x' + curWidth, y');
    }

    /** releaseEdgeEffects: no edge is active afterwards. */
    method ReleaseEdgeEffects()
      modifies this`edges
      ensures edges == Released
    {
      edges := Released;
    }

    /** onDown: release the edges, remember the viewport and stop any fling. */
    method OnDown() returns (handled: bool)
      modifies this`edges, this`scrollerStart, this`fling
      ensures edges == Released && scrollerStart == viewport && fling == None
      ensures handled
    {
      ReleaseEdgeEffects();
      scrollerStart := viewport;
      fling := None;
      handled := true;
    }

    /** onDoubleTap: its zoom is commented out; it only logs. */
    method OnDoubleTap(x: real, y: real) returns (handled: bool)
      ensures handled
    {
      handled := true;
    }

    /** onScaleBegin: the current spans become the baseline of the gesture. */
    method OnScaleBegin(spanX: real, spanY: real, focusX: real, focusY: real) returns (handled: bool)
      modifies this`lastSpanX, this`lastSpanY
      ensures lastSpanX == spanX && lastSpanY == spanY
      ensures handled
    {
      lastSpanX := spanX;
      lastSpanY := spanY;
      handled := true;
    }

    /** onScale: one ScaleUpdate of the listener state.  On an axis with zoom enabled the
        focus field is drawn at the focal pixel afterwards, even when the hit test missed
        and the focus is a stale one. */
    method OnScale(spanX: real, spanY: real, focusX: real, focusY: real) returns (handled: bool)
      requires Usable(content.Frame(), xZoom, yZoom, ScaleEvent(spanX, spanY, focusX, focusY))
      modifies this`viewport, this`viewportFocus, this`lastSpanX, this`lastSpanY
      ensures Listener() == ScaleUpdate(old(Listener()), content.Frame(), xZoom, yZoom,
                                        ScaleEvent(spanX, spanY, focusX, focusY))
      ensures xZoom && viewport.Width() != 0.0 ==> DrawX(viewport, content.Frame(), viewportFocus.x) == focusX
      ensures yZoom && viewport.Height() != 0.0 ==> DrawY(viewport, content.Frame(), viewportFocus.y) == focusY
      ensures handled
    {
      var c := content.Frame();
      var s := ScaleUpdate(Listener(), c, xZoom, yZoom, ScaleEvent(spanX, spanY, focusX, focusY));
      ScaleStepAnchors(viewport, c, xZoom, yZoom, s.focus, lastSpanX, lastSpanY, spanX, spanY, focusX, focusY);
      viewportFocus := s.focus;
      viewport := s.viewport;
      ConstrainViewport();
      lastSpanX := spanX;
      lastSpanY := spanY;
      handled := true;
    }

    /** onScroll: a drag by (distanceX, distanceY) pixels pans the viewport by the
        corresponding chart distance on each axis that can scroll, then marks the edges
        the drag pulls: never the left one (its branch is guarded by a literal false),
        the right one when x could scroll and the right edge reached AXIS_X_MAX, the top
        and bottom ones when the vertical scroll offset is outside the surface. */
    method OnScroll(distanceX: real, distanceY: real) returns (handled: bool)
      requires content.Width() != 0 && content.Height() != 0
      requires yScroll ==> viewport.Height() != 0.0
      modifies this`viewport, this`axisXMin, this`edges
      ensures var v, c := old(viewport), content;
        var off := DragOffset(v, c, distanceX, distanceY);
        var surface := SurfaceSize(c, v, yScroll);
        && viewport == PanTo(v, v.left + (if xScroll then off.x else 0.0), v.bottom + (if yScroll then off.y else 0.0))
        && axisXMin == Min(old(axisXMin), viewport.left)
        && edges == PullStep(old(edges), old(CanScrollX()), old(CanScrollY()), ScrolledY(v, off.y, surface),
                             viewport.right, surface, c)
      ensures edges.left == old(edges.left)
      ensures edges.right && !old(edges.right) ==> viewport.right == AXIS_X_MAX
      ensures handled
    {
      var off := DragOffset(viewport, content, distanceX, distanceY);
      var offX, offY := off.x, off.y;
      var surface := SurfaceSize(content, viewport, yScroll);
      var scrolledY := ScrolledY(viewport, offY, surface);
      var canScrollX := CanScrollX();
      var canScrollY := CanScrollY();
      SetViewportBottomLeft(viewport.left + (if xScroll then offX else 0.0),
                            viewport.bottom + (if yScroll then offY else 0.0));
      // the four guarded onPull calls; the left one's guard ends in a literal false
      edges := PullStep(edges, canScrollX, canScrollY, scrolledY, viewport.right, surface, content);
      handled := true;
    }

    /** fling: release the edges, remember the viewport and start the scroller. */
    method Fling(velocityX: int, velocityY: int)
      requires yScroll ==> viewport.Height() != 0.0
      modifies this`edges, this`scrollerStart, this`fling
      ensures edges == Released && scrollerStart == viewport
      ensures fling == Some(FlingFrom(viewport, content, yScroll, velocityX, velocityY))
    {
      ReleaseEdgeEffects();
      scrollerStart := viewport;
      fling := Some(FlingFrom(scrollerStart, content, yScroll, velocityX, velocityY));
    }

    /** onFling: fling against the finger's velocity, cast to int. */
    method OnFling(velocityX: real, velocityY: real) returns (handled: bool)
      requires yScroll ==> viewport.Height() != 0.0
      modifies this`edges, this`scrollerStart, this`fling
      ensures edges == Released && scrollerStart == viewport
      ensures fling == Some(FlingFrom(viewport, content, yScroll, TruncToInt(-velocityX), TruncToInt(-velocityY)))
      ensures handled
    {
      Fling(TruncToInt(-velocityX), TruncToInt(-velocityY));
      handled := true;
    }

    /** panLeft, panRight, panUp, panDown: a fling at PAN_VELOCITY_FACTOR view widths (or
        heights) per second; `viewWidth` and `viewHeight` are the view's getWidth() and
        getHeight(). */
    method PanLeft(viewWidth: int)
      requires yScroll ==> viewport.Height() != 0.0
      modifies this`edges, this`scrollerStart, this`fling
      ensures edges == Released && scrollerStart == viewport
      ensures fling == Some(FlingFrom(viewport, content, yScroll, -2 * viewWidth, 0))
    {
      assert -PAN_VELOCITY_FACTOR * viewWidth as real == (-2 * viewWidth) as real;
      TruncWhole(-2 * viewWidth);
      Fling(TruncToInt(-PAN_VELOCITY_FACTOR * viewWidth as real), 0);
    }

    method PanRight(viewWidth: int)
      requires yScroll ==> viewport.Height() != 0.0
      modifies this`edges, this`scrollerStart, this`fling
      ensures edges == Released && scrollerStart == viewport
      ensures fling == Some(FlingFrom(viewport, content, yScroll, 2 * viewWidth, 0))
    {
      assert PAN_VELOCITY_FACTOR * viewWidth as real == (2 * viewWidth) as real;
      TruncWhole(2 * viewWidth);
      Fling(TruncToInt(PAN_VELOCITY_FACTOR * viewWidth as real), 0);
    }

    method PanUp(viewHeight: int)
      requires yScroll ==> viewport.Height() != 0.0
      modifies this`edges, this`scrollerStart, this`fling
      ensures edges == Released && scrollerStart == viewport
      ensures fling == Some(FlingFrom(viewport, content, yScroll, 0, -2 * viewHeight))
    {
      assert -PAN_VELOCITY_FACTOR * viewHeight as real == (-2 * viewHeight) as real;
      TruncWhole(-2 * viewHeight);
      Fling(0, TruncToInt(-PAN_VELOCITY_FACTOR * viewHeight as real));
    }

    method PanDown(viewHeight: int)
      requires yScroll ==> viewport.Height() != 0.0
      modifies this`edges, this`scrollerStart, this`fling
      ensures edges == Released && scrollerStart == viewport
      ensures fling == Some(FlingFrom(viewport, content, yScroll, 0, 2 * viewHeight))
    {
      assert PAN_VELOCITY_FACTOR * viewHeight as real == (2 * viewHeight) as real;
      TruncWhole(2 * viewHeight);
      Fling(0, TruncToInt(PAN_VELOCITY_FACTOR * viewHeight as real));
    }

    /** computeScroll: one animation frame.  `scrolling` and `zooming` are what the
        scroller's computeScrollOffset and the zoomer's computeZoom report, (currX, currY)
        the scroller position, `finished` whether each edge glow has finished, and
        `currZoom` the zoomer's current fraction.  A running fling absorbs edges and pans
        (FlingStep); a running zoom then resizes the viewport around the zoom's focal
        point (ZoomStep).  `absorbed` is the set of edges onAbsorb was called on, and
        `redraw` whether the frame posted a redraw: setViewportBottomLeft posts one on
        every fling frame, the local needsInvalidate flag one after an absorb or a zoom. */
    method ComputeScroll(scrolling: bool, currX: int, currY: int, finished: EdgeFlags,
                         zooming: bool, currZoom: real) returns (absorbed: EdgeFlags, redraw: bool)
      // the scroller only runs after fling() handed it a request and no onDown stopped it
      requires scrolling ==> fling.Some?
      // the zoomer only runs after zoomIn or zoomOut started it
      requires zooming ==> zoom.Some?
      requires scrolling && yScroll ==> viewport.Height() != 0.0 && SurfaceSize(content, viewport, yScroll).y != 0
      requires zooming ==> scrollerStart.Width() != 0.0 && (yZoom ==> scrollerStart.Height() != 0.0)
      modifies this`viewport, this`axisXMin, this`edges
      ensures var f := if scrolling
                       then FlingStep(old(viewport), content, old(axisXMin), old(edges), xScroll, yScroll,
                                      currX, currY, finished)
                       else FlingFrame(old(viewport), old(axisXMin), old(edges), Released);
        && axisXMin == f.axisXMin
        && edges == f.edges
        && viewport == (if zooming then ZoomStep(scrollerStart, zoomFocalPoint, f.viewport, yZoom, currZoom)
                        else f.viewport)
        && absorbed == f.absorbed
        && redraw == (scrolling || zooming)
    {
      absorbed := Released;
      var needsInvalidate := false;
      if scrolling {
        var surface := SurfaceSize(content, viewport, yScroll);
        var a := AbsorbStep(edges, CanScrollX(), CanScrollY(), currX, currY, surface, content, finished);
        edges := a.flags;
        absorbed := a.absorbed;
        if a.absorbed != Released {
          needsInvalidate := true;
        }
        var t := FlingTarget(viewport, xScroll, yScroll, currX, currY, surface);
        // setViewportBottomLeft ends by posting a redraw
        SetViewportBottomLeft(t.x, t.y);
      }
      if zooming {
        viewport := ZoomStep(scrollerStart, zoomFocalPoint, viewport, yZoom, currZoom);
        ConstrainViewport();
        needsInvalidate := true;
      }
      redraw := scrolling || needsInvalidate;
    }

    /** zoomIn: start a zoom by ZOOM_AMOUNT centred on the viewport. */
    method ZoomIn()
      modifies this`scrollerStart, this`zoom, this`zoomFocalPoint
      ensures scrollerStart == viewport && zoom == Some(ZOOM_AMOUNT)
      ensures zoomFocalPoint == PointF(viewport.CenterX(), viewport.CenterY())
    {
      scrollerStart := viewport;
      zoom := Some(ZOOM_AMOUNT);
      zoomFocalPoint := PointF((viewport.right + viewport.left) / 2.0, (viewport.bottom + viewport.top) / 2.0);
    }

    /** zoomOut: start a zoom by -ZOOM_AMOUNT centred on the viewport. */
    method ZoomOut()
      modifies this`scrollerStart, this`zoom, this`zoomFocalPoint
      ensures scrollerStart == viewport && zoom == Some(-ZOOM_AMOUNT)
      ensures zoomFocalPoint == PointF(viewport.CenterX(), viewport.CenterY())
    {
      scrollerStart := viewport;
      zoom := Some(-ZOOM_AMOUNT);
      zoomFocalPoint := PointF((viewport.right + viewport.left) / 2.0, (viewport.bottom + viewport.top) / 2.0);
    }

    /** getCurrentViewport: a copy of the viewport. */
    method GetCurrentViewport() returns (r: RectF)
      ensures r == viewport
    {
      r := viewport;
    }

    /** setCurrentViewport: the viewport becomes `v` (constrainViewport changes nothing). */
    method SetCurrentViewport(v: RectF)
      modifies this`viewport
      ensures viewport == v
    {
      viewport := v;
      ConstrainViewport();
    }

    method SetXZoomEnabled(enabled: bool)
      modifies this`xZoom
      ensures xZoom == enabled
    {
      xZoom := enabled;
    }

    method SetYZoomEnabled(enabled: bool)
      modifies this`yZoom
      ensures yZoom == enabled
    {
      yZoom := enabled;
    }

    method SetXCanScrolled(enabled: bool)
      modifies this`xScroll
      ensures xScroll == enabled
    {
      xScroll := enabled;
    }

    method SetYCanScrolled(enabled: bool)
      modifies this`yScroll
      ensures yScroll == enabled
    {
      yScroll := enabled;
    }
  }
}
