/** The arithmetic GraphView applies to its viewport: the panning setter
    (setViewportBottomLeft), the scroll surface size, one pinch-zoom update (onScale) and
    one frame of an animated zoom (the zoom half of computeScroll).  Each is a function
    here; the class in module Graph applies them to its fields. */
module Viewport {
  import opened Geometry
  import opened Transform

  /** The fixed viewport extremes. */
  const AXIS_X_MIN: real := -1.0
  const AXIS_X_MAX: real := 1.0
  const AXIS_Y_MIN: real := -1.0
  const AXIS_Y_MAX: real := 1.0

  /** The scaling factor of one zoomIn/zoomOut step. */
  const ZOOM_AMOUNT: real := 0.25

  /** Initial pan fling velocity, in view widths (or heights) per second. */
  const PAN_VELOCITY_FACTOR: real := 2.0

  function Min(a: real, b: real): real { if a <= b then a else b }
  function Max(a: real, b: real): real { if a >= b then a else b }

  /** The viewport after setViewportBottomLeft(x, y): same width and height, bottom-left
      corner moved to (x, y) after clamping.  y is clamped into
      [AXIS_Y_MIN + height, AXIS_Y_MAX] (the lower bound winning when the viewport is taller
      than the axis range); x is only bounded above, by AXIS_X_MAX - width, so the left
      edge may go arbitrarily far left. */
  function PanTo(v: RectF, x: real, y: real): (r: RectF)
    ensures r.Width() == v.Width() && r.Height() == v.Height()
    // horizontal: the right edge never passes AXIS_X_MAX, and there is no lower bound
    ensures r.right <= AXIS_X_MAX
    ensures x <= AXIS_X_MAX - v.Width() ==> r.left == x
    ensures x > AXIS_X_MAX - v.Width() ==> r.right == AXIS_X_MAX
    // vertical: the top never passes AXIS_Y_MIN; the bottom stays within AXIS_Y_MAX
    // whenever the viewport fits in the axis range
    ensures r.top >= AXIS_Y_MIN
    ensures v.Height() <= AXIS_Y_MAX - AXIS_Y_MIN ==> r.bottom <= AXIS_Y_MAX
    ensures AXIS_Y_MIN + v.Height() <= y <= AXIS_Y_MAX ==> r.bottom == y
    ensures y < AXIS_Y_MIN + v.Height() ==> r.top == AXIS_Y_MIN
    ensures y > AXIS_Y_MAX ==> r.bottom == Max(AXIS_Y_MIN + v.Height(), AXIS_Y_MAX)
  {
    var curWidth := v.Width();
    var curHeight := v.Height();
    var y' := Max(AXIS_Y_MIN + curHeight, Min(y, AXIS_Y_MAX));
    var x' := Min(x, AXIS_X_MAX - curWidth);
    RectF(x', y' - curHeight, x' + curWidth, y')
  }

  /** Panning twice to the same corner is panning once: the clamps depend only on the
      width and height, which panning keeps. */
  lemma PanToIdempotent(v: RectF, x: real, y: real)
    ensures PanTo(PanTo(v, x, y), x, y) == PanTo(v, x, y)
  {
    var r := PanTo(v, x, y);
    assert r.Width() == v.Width() && r.Height() == v.Height();
  }

  /** Panning to the viewport's own bottom-left corner leaves a viewport that already
      lies within the clamps unchanged (a drag of zero pixels, for instance). */
  lemma PanToStays(v: RectF)
    requires v.right <= AXIS_X_MAX
    requires AXIS_Y_MIN <= v.top && v.bottom <= AXIS_Y_MAX
    ensures PanTo(v, v.left, v.bottom) == v
  {
  }

  /** computeScrollSurfaceSize: the scrollable surface in pixels.  Its width is pinned to
      Integer.MAX_VALUE (the chart scrolls without bound to the left); its height is the
      content height scaled by how much of the y axis range the viewport shows, or just
      the content height when y scrolling is disabled. */
  function SurfaceSize(c: PixelRect, v: RectF, yScroll: bool): (r: Point)
    requires yScroll ==> v.Height() != 0.0
    ensures r.x == INT_MAX
    ensures !yScroll ==> r.y == c.Height()
    // the whole y range visible: the surface is exactly the content rectangle
    ensures yScroll && v.Height() == AXIS_Y_MAX - AXIS_Y_MIN ==> r.y == c.Height()
    // zoomed in 200%: the surface is twice as tall
    ensures yScroll && v.Height() == (AXIS_Y_MAX - AXIS_Y_MIN) / 2.0 ==> r.y == 2 * c.Height()
  {
    var height := if yScroll then TruncToInt(c.Height() as real * (AXIS_Y_MAX - AXIS_Y_MIN) / v.Height())
                  else c.Height();
    Point(INT_MAX, height)
  }

  /** In general the surface height is the content height scaled by the share of the y
      axis range the viewport shows, rounded down: surface * h <= content * range <
      surface * h + h. */
  lemma SurfaceSizeScales(c: PixelRect, v: RectF)
    requires v.Height() > 0.0 && c.Height() >= 0
    ensures var r := SurfaceSize(c, v, true);
      r.y as real * v.Height() <= c.Height() as real * (AXIS_Y_MAX - AXIS_Y_MIN) < r.y as real * v.Height() + v.Height()
  {
    BracketScaled(SurfaceSize(c, v, true).y, c.Height() as real * (AXIS_Y_MAX - AXIS_Y_MIN), v.Height());
  }

  /** If n is the whole part of a / h (a >= 0, h > 0), then n * h <= a < n * h + h. */
  lemma BracketScaled(n: int, a: real, h: real)
    requires h > 0.0 && a >= 0.0 && n == TruncToInt(a / h)
    ensures n as real * h <= a < n as real * h + h
  {
    var q := a / h;
    assert q * h == a;
    assert q >= 0.0;
    assert n as real <= q < n as real + 1.0;
    Between(n as real, q, h, a);
  }

  /** Multiplying n <= q < n + 1 by h > 0, where q * h == a. */
  lemma Between(n: real, q: real, h: real, a: real)
    requires h > 0.0 && q * h == a && n <= q < n + 1.0
    ensures n * h <= a < n * h + h
  {
    var below := q - n;
    var above := n + 1.0 - q;
    assert below * h >= 0.0 && below * h == q * h - n * h;
    assert above * h > 0.0 && above * h == n * h + h - q * h;
  }

  /** The viewport after one onScale update.  `focus` is the chart point the hit test
      left in the listener's focus field (stale if the focal pixel was outside the
      content rectangle); (focusX, focusY) is the focal pixel.  On an axis with zoom
      enabled the extent is scaled by lastSpan / span and placed so that `focus` is drawn
      at the focal pixel.  On an axis with zoom disabled the near edge is kept, and
      because the source reads width()/height() after setting right and bottom to 0, the
      far edge becomes its negation. */
  function ScaleStep(v: RectF, c: RectF, xZoom: bool, yZoom: bool, focus: PointF,
                     lastSpanX: real, lastSpanY: real, spanX: real, spanY: real,
                     focusX: real, focusY: real): (r: RectF)
    requires xZoom ==> spanX != 0.0 && c.Width() != 0.0
    requires yZoom ==> spanY != 0.0 && c.Height() != 0.0
    ensures xZoom ==> r.Width() == lastSpanX / spanX * v.Width()
    ensures !xZoom ==> r.left == v.left && r.right == -v.left
    ensures yZoom ==> r.Height() == lastSpanY / spanY * v.Height()
    ensures !yZoom ==> r.top == v.top && r.bottom == -v.top
  {
    var newWidth := if xZoom then lastSpanX / spanX * v.Width() else 0.0;
    var newHeight := if yZoom then lastSpanY / spanY * v.Height() else 0.0;
    var left := if xZoom then Anchor(focus.x, newWidth, focusX - c.left, c.Width()) else v.left;
    var top := if yZoom then Anchor(focus.y, newHeight, c.bottom - focusY, c.Height()) else v.top;
    // RectF.set(left, top, 0, 0) followed by reads of width() and height()
    var right := if xZoom then left + newWidth else 0.0 - left;
    var bottom := if yZoom then top + newHeight else 0.0 - top;
    RectF(left, top, right, bottom)
  }

  /** After an onScale update the focus point is drawn at the focal pixel on every axis
      whose zoom is enabled (unless the new extent is zero). */
  lemma ScaleStepAnchors(v: RectF, c: RectF, xZoom: bool, yZoom: bool, focus: PointF,
                         lastSpanX: real, lastSpanY: real, spanX: real, spanY: real,
                         focusX: real, focusY: real)
    requires xZoom ==> spanX != 0.0 && c.Width() != 0.0
    requires yZoom ==> spanY != 0.0 && c.Height() != 0.0
    ensures var r := ScaleStep(v, c, xZoom, yZoom, focus, lastSpanX, lastSpanY, spanX, spanY, focusX, focusY);
      && (xZoom && r.Width() != 0.0 ==> DrawX(r, c, focus.x) == focusX)
      && (yZoom && r.Height() != 0.0 ==> DrawY(r, c, focus.y) == focusY)
  {
    var r := ScaleStep(v, c, xZoom, yZoom, focus, lastSpanX, lastSpanY, spanX, spanY, focusX, focusY);
    if xZoom && r.Width() != 0.0 { AnchorOffset(focus.x, r.Width(), focusX, c.left, c.Width()); }
    if yZoom && r.Height() != 0.0 { AnchorAnchor(focus.y, r.Height(), focusY, c.bottom, c.Height()); }
  }

  /** One axis of a zoom frame: the new low end.  The focal point f lies at fraction
      (f - lo) / size of the start interval; the new interval has length
      (1 - zoom) * size and f at the same fraction of it. */
  function ZoomLo(f: real, lo: real, size: real, zoom: real): real
    requires size != 0.0
  {
    f - (1.0 - zoom) * size * ((f - lo) / size)
  }

  /** One axis of a zoom frame: the new high end. */
  function ZoomHi(f: real, lo: real, size: real, zoom: real): real
    requires size != 0.0
  {
    f + (1.0 - zoom) * size * (1.0 - (f - lo) / size)
  }

  /** The viewport for one frame of an animated zoom: `start` is the viewport when the
      zoom began, `focal` the zoom's focal point, `cur` the viewport before this frame and
      `zoom` the zoomer's current zoom fraction.  With y zoom disabled, the current top
      and bottom are kept.  ZoomStepScales states what the new extent is. */
  function ZoomStep(start: RectF, focal: PointF, cur: RectF, yZoom: bool, zoom: real): (r: RectF)
    requires start.Width() != 0.0
    requires yZoom ==> start.Height() != 0.0
    ensures !yZoom ==> r.top == cur.top && r.bottom == cur.bottom
  {
    var left := ZoomLo(focal.x, start.left, start.Width(), zoom);
    var right := ZoomHi(focal.x, start.left, start.Width(), zoom);
    if yZoom then
      RectF(left, ZoomLo(focal.y, start.top, start.Height(), zoom),
            right, ZoomHi(focal.y, start.top, start.Height(), zoom))
    else
      RectF(left, cur.top, right, cur.bottom)
  }

  /** A zoom frame makes the extent (1 - zoom) times the start extent, keeps the focal
      point at the same fraction of it, and reproduces the start viewport at zoom 0 (on
      the y axis only with y zoom enabled). */
  lemma ZoomStepScales(start: RectF, focal: PointF, cur: RectF, yZoom: bool, zoom: real)
    requires start.Width() != 0.0
    requires yZoom ==> start.Height() != 0.0
    ensures var r := ZoomStep(start, focal, cur, yZoom, zoom);
      && r.Width() == (1.0 - zoom) * start.Width()
      && (r.Width() != 0.0 ==> (focal.x - r.left) / r.Width() == (focal.x - start.left) / start.Width())
      && (zoom == 0.0 ==> r.left == start.left && r.right == start.right)
      && (yZoom ==> r.Height() == (1.0 - zoom) * start.Height())
      && (yZoom && r.Height() != 0.0 ==>
            (focal.y - r.top) / r.Height() == (focal.y - start.top) / start.Height())
      && (yZoom && zoom == 0.0 ==> r.top == start.top && r.bottom == start.bottom)
  {
    RelativePosition(focal.x, start.left, start.Width(), zoom);
    if yZoom {
      RelativePosition(focal.y, start.top, start.Height(), zoom);
    }
  }

  /** zoomIn and zoomOut put the focal point at the centre of the start viewport; every
      frame of such a zoom keeps that centre. */
  lemma ZoomStepKeepsCentre(start: RectF, cur: RectF, yZoom: bool, zoom: real)
    requires start.Width() != 0.0
    requires yZoom ==> start.Height() != 0.0
    ensures var r := ZoomStep(start, PointF(start.CenterX(), start.CenterY()), cur, yZoom, zoom);
      && r.CenterX() == start.CenterX()
      && (yZoom ==> r.CenterY() == start.CenterY())
  {
    Centred(start.left, start.Width(), zoom);
    if yZoom {
      Centred(start.top, start.Height(), zoom);
    }
  }

  /** One axis of a zoom around the middle of the interval: the middle stays put. */
  lemma Centred(lo: real, size: real, zoom: real)
    requires size != 0.0
    ensures var m := (lo + size + lo) / 2.0;
      (ZoomLo(m, lo, size, zoom) + ZoomHi(m, lo, size, zoom)) / 2.0 == m
  {
    var m := (lo + size + lo) / 2.0;
    assert (m - lo) / size == 0.5;
  }

  /** One axis of the zoom frame: the new interval has length (1 - zoom) * size, keeps
      the focal point's relative position, and is the start interval when zoom is 0. */
  lemma RelativePosition(f: real, lo: real, size: real, zoom: real)
    requires size != 0.0
    ensures var lo', hi' := ZoomLo(f, lo, size, zoom), ZoomHi(f, lo, size, zoom);
      var n, p := (1.0 - zoom) * size, (f - lo) / size;
      && hi' - lo' == n
      && (n != 0.0 ==> (f - lo') / n == p)
      && (zoom == 0.0 ==> lo' == lo && hi' == lo + size)
  {
    var n := (1.0 - zoom) * size;
    var p := (f - lo) / size;
    assert size * p == f - lo;
    var lo' := ZoomLo(f, lo, size, zoom);
    assert f - lo' == n * p;
    if n != 0.0 {
      assert n * p / n == p;
    }
  }
}
