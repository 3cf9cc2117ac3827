/** Sequences of onScale updates: the scale listener's state (the viewport, the focus
    field its hit test writes, and the last spans) and what repeated updates do to it. */
module Pinch {
  import opened Geometry
  import opened Transform
  import opened Viewport

  /** The state one onScale update reads and writes. */
  datatype ScaleState = ScaleState(viewport: RectF, focus: PointF, lastSpanX: real, lastSpanY: real) {
    /** The viewport width times the baseline x span. */
    function SpanWidth(): real { viewport.Width() * lastSpanX }
    /** The viewport height times the baseline y span. */
    function SpanHeight(): real { viewport.Height() * lastSpanY }
  }

  /** What the scale detector reports for one update: the current spans and focal pixel. */
  datatype ScaleEvent = ScaleEvent(spanX: real, spanY: real, focusX: real, focusY: real)

  /** The spans of an event are usable on every axis whose zoom is enabled, and the content
      rectangle has an extent to divide by. */
  predicate Usable(c: RectF, xZoom: bool, yZoom: bool, e: ScaleEvent) {
    (xZoom ==> e.spanX != 0.0 && c.Width() != 0.0) && (yZoom ==> e.spanY != 0.0 && c.Height() != 0.0)
  }

  /** One onScale update: hit-test the focal pixel into the focus field (which keeps its
      old value when the pixel is outside the content), rescale around it, and record the
      spans as the baseline for the next update. */
  function ScaleUpdate(s: ScaleState, c: RectF, xZoom: bool, yZoom: bool, e: ScaleEvent): (r: ScaleState)
    requires Usable(c, xZoom, yZoom, e)
    ensures r.lastSpanX == e.spanX && r.lastSpanY == e.spanY
    // the hit test's result is ignored: a focal pixel outside the content reuses the old focus
    ensures !c.HoldsPixel(TruncToInt(e.focusX), TruncToInt(e.focusY)) ==> r.focus == s.focus
    ensures c.HoldsPixel(TruncToInt(e.focusX), TruncToInt(e.focusY)) ==>
      r.focus == Unproject(s.viewport, c, yZoom, e.focusX, e.focusY)
  {
    var focus := HitTest(s.viewport, c, yZoom, e.focusX, e.focusY, s.focus).dest;
    ScaleState(ScaleStep(s.viewport, c, xZoom, yZoom, focus, s.lastSpanX, s.lastSpanY,
                         e.spanX, e.spanY, e.focusX, e.focusY),
               focus, e.spanX, e.spanY)
  }

  /** A sequence of onScale updates within one gesture. */
  function Pinch(s: ScaleState, c: RectF, xZoom: bool, yZoom: bool, evs: seq<ScaleEvent>): ScaleState
    requires forall i :: 0 <= i < |evs| ==> Usable(c, xZoom, yZoom, evs[i])
    decreases |evs|
  {
    if evs == [] then s else Pinch(ScaleUpdate(s, c, xZoom, yZoom, evs[0]), c, xZoom, yZoom, evs[1..])
  }

  /** (b / e) * ((a / b) * w) == (a / e) * w for non-zero b and e. */
  lemma ComposeRatios(a: real, b: real, e: real, w: real)
    requires b != 0.0 && e != 0.0
    ensures b / e * (a / b * w) == a / e * w
  {
    var p := a / b;
    var q := b / e;
    assert p * b == a;
    assert q * e == b;
    assert q * p * e == a;
    assert q * (p * w) == (q * p) * w;
  }

  /** One update with x zoom enabled scales the width by lastSpanX / spanX, so the width
      times the baseline span is unchanged: the viewport width is inversely proportional
      to the distance between the fingers. */
  lemma UpdateWidth(s: ScaleState, c: RectF, yZoom: bool, e: ScaleEvent)
    requires Usable(c, true, yZoom, e)
    ensures ScaleUpdate(s, c, true, yZoom, e).SpanWidth() == s.SpanWidth()
  {
    var r := ScaleUpdate(s, c, true, yZoom, e).viewport;
    var q := s.lastSpanX / e.spanX;
    assert r.Width() == q * s.viewport.Width();
    assert q * e.spanX == s.lastSpanX;
  }

  /** The same for the height, with y zoom enabled. */
  lemma UpdateHeight(s: ScaleState, c: RectF, xZoom: bool, e: ScaleEvent)
    requires Usable(c, xZoom, true, e)
    ensures ScaleUpdate(s, c, xZoom, true, e).SpanHeight() == s.SpanHeight()
  {
    var r := ScaleUpdate(s, c, xZoom, true, e).viewport;
    var q := s.lastSpanY / e.spanY;
    assert r.Height() == q * s.viewport.Height();
    assert q * e.spanY == s.lastSpanY;
  }

  /** Over any sequence of updates with x zoom enabled the width times the baseline span
      stays what it was when the gesture began, whatever the spans in between. */
  lemma {:induction false} PinchWidth(s: ScaleState, c: RectF, yZoom: bool, evs: seq<ScaleEvent>)
    requires forall i :: 0 <= i < |evs| ==> Usable(c, true, yZoom, evs[i])
    ensures Pinch(s, c, true, yZoom, evs).SpanWidth() == s.SpanWidth()
    decreases |evs|
  {
    if evs != [] {
      var s1 := ScaleUpdate(s, c, true, yZoom, evs[0]);
      var rest := evs[1..];
      UpdateWidth(s, c, yZoom, evs[0]);
      assert forall i :: 0 <= i < |rest| ==> rest[i] == evs[i + 1];
      PinchWidth(s1, c, yZoom, rest);
    }
  }

  /** The same for the height, with y zoom enabled. */
  lemma {:induction false} PinchHeight(s: ScaleState, c: RectF, xZoom: bool, evs: seq<ScaleEvent>)
    requires forall i :: 0 <= i < |evs| ==> Usable(c, xZoom, true, evs[i])
    ensures Pinch(s, c, xZoom, true, evs).SpanHeight() == s.SpanHeight()
    decreases |evs|
  {
    if evs != [] {
      var s1 := ScaleUpdate(s, c, xZoom, true, evs[0]);
      var rest := evs[1..];
      UpdateHeight(s, c, xZoom, evs[0]);
      assert forall i :: 0 <= i < |rest| ==> rest[i] == evs[i + 1];
      PinchHeight(s1, c, xZoom, rest);
    }
  }

  /** After a non-empty sequence of updates the baseline spans are the last event's. */
  lemma {:induction false} PinchLastSpans(s: ScaleState, c: RectF, xZoom: bool, yZoom: bool,
                                          evs: seq<ScaleEvent>)
    requires |evs| > 0
    requires forall i :: 0 <= i < |evs| ==> Usable(c, xZoom, yZoom, evs[i])
    ensures var r := Pinch(s, c, xZoom, yZoom, evs);
      r.lastSpanX == evs[|evs| - 1].spanX && r.lastSpanY == evs[|evs| - 1].spanY
    decreases |evs|
  {
    var rest := evs[1..];
    if rest != [] {
      assert forall i :: 0 <= i < |rest| ==> rest[i] == evs[i + 1];
      PinchLastSpans(ScaleUpdate(s, c, xZoom, yZoom, evs[0]), c, xZoom, yZoom, rest);
    }
  }

  /** The arithmetic of a pinch out and back, x axis: rescaling around the chart point
      under a pixel from span l to span s, then around the point under the same pixel from
      s back to l, restores the left and right edges. */
  lemma RescaleRoundTripX(v0: RectF, c: RectF, yZoom: bool, l: real, ly: real, s: real, sy: real,
                          px: real, py: real)
    requires c.Width() != 0.0 && c.Height() != 0.0 && l != 0.0 && s != 0.0
    requires yZoom ==> ly != 0.0 && sy != 0.0
    ensures var v1 := ScaleStep(v0, c, true, yZoom, Unproject(v0, c, yZoom, px, py), l, ly, s, sy, px, py);
      var v2 := ScaleStep(v1, c, true, yZoom, Unproject(v1, c, yZoom, px, py), s, sy, l, ly, px, py);
      v2.left == v0.left && v2.right == v0.right
  {
    var f1 := Unproject(v0, c, yZoom, px, py);
    var v1 := ScaleStep(v0, c, true, yZoom, f1, l, ly, s, sy, px, py);
    var f2 := Unproject(v1, c, yZoom, px, py);
    var v2 := ScaleStep(v1, c, true, yZoom, f2, s, sy, l, ly, px, py);
    ScaleStepX(v0, c, yZoom, f1, l, ly, s, sy, px, py);
    ScaleStepX(v1, c, yZoom, f2, s, sy, l, ly, px, py);
    AxisRoundTrip(v0.left, v0.Width(), f1.x, v1.left, v1.Width(), f2.x, v2.left, v2.Width(),
                  l, s, px - c.left, c.Width());
  }

  /** The y axis of the same round trip, with y zoom enabled: the top and bottom edges are
      restored. */
  lemma RescaleRoundTripY(v0: RectF, c: RectF, l: real, ly: real, s: real, sy: real,
                          px: real, py: real)
    requires c.Width() != 0.0 && c.Height() != 0.0 && l != 0.0 && s != 0.0
    requires ly != 0.0 && sy != 0.0
    ensures var v1 := ScaleStep(v0, c, true, true, Unproject(v0, c, true, px, py), l, ly, s, sy, px, py);
      var v2 := ScaleStep(v1, c, true, true, Unproject(v1, c, true, px, py), s, sy, l, ly, px, py);
      v2.top == v0.top && v2.bottom == v0.bottom
  {
    var f1 := Unproject(v0, c, true, px, py);
    var v1 := ScaleStep(v0, c, true, true, f1, l, ly, s, sy, px, py);
    var f2 := Unproject(v1, c, true, px, py);
    var v2 := ScaleStep(v1, c, true, true, f2, s, sy, l, ly, px, py);
    UnprojectY(v0, c, px, py);
    UnprojectY(v1, c, px, py);
    ScaleStepY(v0, c, f1, l, ly, s, sy, px, py);
    ScaleStepY(v1, c, f2, s, sy, l, ly, px, py);
    AxisRoundTrip(v0.top, v0.Height(), f1.y, v1.top, v1.Height(), f2.y, v2.top, v2.Height(),
                  ly, sy, c.bottom - py, c.Height());
  }

  /** Unproject's y coordinate with y zoom enabled, measured (as onScale measures it) from
      the content's bottom edge. */
  lemma UnprojectY(v: RectF, c: RectF, px: real, py: real)
    requires c.Width() != 0.0 && c.Height() != 0.0
    ensures Unproject(v, c, true, px, py).y == Offset(v.top, v.Height(), c.bottom - py, c.Height())
  {
    FlipOffset(v.top, v.Height(), c.bottom - py, c.Height());
  }

  /** Negating both the offset and the extent it is measured against changes nothing. */
  lemma FlipOffset(lo: real, size: real, d: real, n: real)
    requires n != 0.0
    ensures Offset(lo, size, -d, -n) == Offset(lo, size, d, n)
  {
    var g := size * -d / -n;
    assert g * -n == size * -d;
    assert g * n == size * d;
  }

  /** ScaleStep's x placement with x zoom enabled: the new left edge puts `focus` at the
      focal pixel's fraction of the new width, and the right edge is a width away. */
  lemma ScaleStepX(v: RectF, c: RectF, yZoom: bool, focus: PointF, l: real, ly: real, s: real, sy: real,
                   px: real, py: real)
    requires c.Width() != 0.0 && s != 0.0 && (yZoom ==> sy != 0.0 && c.Height() != 0.0)
    ensures var r := ScaleStep(v, c, true, yZoom, focus, l, ly, s, sy, px, py);
      r.left == Anchor(focus.x, r.Width(), px - c.left, c.Width())
  {
  }

  /** The same for the y placement with y zoom enabled. */
  lemma ScaleStepY(v: RectF, c: RectF, focus: PointF, l: real, ly: real, s: real, sy: real,
                   px: real, py: real)
    requires c.Width() != 0.0 && c.Height() != 0.0 && s != 0.0 && sy != 0.0
    ensures var r := ScaleStep(v, c, true, true, focus, l, ly, s, sy, px, py);
      r.top == Anchor(focus.y, r.Height(), c.bottom - py, c.Height())
  {
  }

  /** One axis of the round trip, on plain numbers.  An interval starts at lo0 and has
      length w0; the hit test finds f1 at fraction d / n of it; rescaling by l / s around
      f1 gives the interval at lo1 of length w1 with f1 at the same fraction; the hit test
      finds f2 there, and rescaling by s / l around f2 gives lo2 and w2. */
  lemma AxisRoundTrip(lo0: real, w0: real, f1: real, lo1: real, w1: real, f2: real,
                      lo2: real, w2: real, l: real, s: real, d: real, n: real)
    requires l != 0.0 && s != 0.0 && n != 0.0
    requires f1 == Offset(lo0, w0, d, n)
    requires w1 == l / s * w0 && lo1 == Anchor(f1, w1, d, n)
    requires f2 == Offset(lo1, w1, d, n)
    requires w2 == s / l * w1 && lo2 == Anchor(f2, w2, d, n)
    ensures lo2 == lo0 && w2 == w0
  {
    ComposeRatios(l, s, l, w0);
    assert l / l == 1.0;
  }

  /** With the same focal pixel inside the content rectangle, pinching to span s1 and back
      to the starting baseline span restores the viewport on every zoom-enabled axis.  On
      a y axis with zoom disabled the top is kept and the bottom becomes -top. */
  lemma PinchRoundTrip(s: ScaleState, c: RectF, yZoom: bool, e1: ScaleEvent)
    requires Usable(c, true, yZoom, e1)
    requires c.HoldsPixel(TruncToInt(e1.focusX), TruncToInt(e1.focusY))
    requires s.lastSpanX != 0.0
    requires yZoom ==> s.lastSpanY != 0.0
    ensures var e2 := ScaleEvent(s.lastSpanX, s.lastSpanY, e1.focusX, e1.focusY);
      var r := Pinch(s, c, true, yZoom, [e1, e2]).viewport;
      && r.left == s.viewport.left && r.right == s.viewport.right
      && (yZoom ==> r.top == s.viewport.top && r.bottom == s.viewport.bottom)
      && (!yZoom ==> r.top == s.viewport.top && r.bottom == -s.viewport.top)
  {
    var e2 := ScaleEvent(s.lastSpanX, s.lastSpanY, e1.focusX, e1.focusY);
    var s1 := ScaleUpdate(s, c, true, yZoom, e1);
    assert [e1, e2][1..] == [e2] && [e2][1..] == [];
    assert Pinch(s, c, true, yZoom, [e1, e2]) == Pinch(s1, c, true, yZoom, [e2]);
    assert Pinch(s1, c, true, yZoom, [e2]) == ScaleUpdate(s1, c, true, yZoom, e2);
    RescaleRoundTripX(s.viewport, c, yZoom, s.lastSpanX, s.lastSpanY, e1.spanX, e1.spanY,
                      e1.focusX, e1.focusY);
    if yZoom {
      RescaleRoundTripY(s.viewport, c, s.lastSpanX, s.lastSpanY, e1.spanX, e1.spanY,
                        e1.focusX, e1.focusY);
    }
  }
}
