/** The mapping between logical viewport coordinates and pixels of the content rectangle
    (GraphView.getDrawX, getDrawY and hitTest).  The content rectangle is taken with real
    coordinates here (PixelRect.Frame); its pixel bounds are whole numbers. */
module Transform {
  import opened Geometry

  /** The point at offset d out of n along an interval that starts at lo and has length
      size: lo + size * d / n.  Every conversion between chart values and pixels has this
      shape. */
  function Offset(lo: real, size: real, d: real, n: real): real
    requires n != 0.0
  {
    lo + size * d / n
  }

  /** The start of the interval of length size that has f at offset d out of n. */
  function Anchor(f: real, size: real, d: real, n: real): (lo: real)
    requires n != 0.0
    ensures Offset(lo, size, d, n) == f
  {
    f - size * d / n
  }

  /** Converting an offset along one interval into the proportional offset along another,
      and back, gives the offset back. */
  lemma OffsetBack(size: real, d: real, n: real)
    requires size != 0.0 && n != 0.0
    ensures n * (size * d / n) / size == d
  {
    var t := size * d / n;
    assert t * n == size * d;
    assert n * t == d * size;
  }

  /** An interval of length w placed so that f sits at the fraction (p - clo) / cw of it
      maps f back to p. */
  lemma AnchorOffset(f: real, w: real, p: real, clo: real, cw: real)
    requires w != 0.0 && cw != 0.0
    ensures Offset(clo, cw, f - Anchor(f, w, p - clo, cw), w) == p
  {
    OffsetBack(w, p - clo, cw);
  }

  /** The same on the inverted y axis, measured from the bottom edge cb. */
  lemma AnchorAnchor(f: real, h: real, p: real, cb: real, ch: real)
    requires h != 0.0 && ch != 0.0
    ensures Anchor(cb, ch, f - Anchor(f, h, cb - p, ch), h) == p
  {
    OffsetBack(h, cb - p, ch);
  }

  /** Pixel x of the chart value `x`; may lie outside the content rectangle. */
  function DrawX(v: RectF, c: RectF, x: real): (px: real)
    requires v.Width() != 0.0
    ensures x == v.left ==> px == c.left
    ensures x == v.right ==> px == c.right
  {
    Offset(c.left, c.Width(), x - v.left, v.Width())
  }

  /** Pixel y of the chart value `y`.  The axis is inverted: the viewport's top (its
      smallest y) lands on the content's bottom pixel row. */
  function DrawY(v: RectF, c: RectF, y: real): (py: real)
    requires v.Height() != 0.0
    ensures y == v.top ==> py == c.bottom
    ensures y == v.bottom ==> py == c.top
  {
    assert y == v.top ==> c.Height() * (y - v.top) == 0.0;
    Anchor(c.bottom, c.Height(), y - v.top, v.Height())
  }

  /** Outcome of a hit test: whether the pixel was inside the content rectangle, and the
      value of the `dest` out-parameter afterwards. */
  datatype Hit = Hit(found: bool, dest: PointF)

  /** The chart point drawn at pixel (px, py): the arithmetic half of hitTest.  With y
      zoom disabled the y result is the viewport's vertical centre. */
  function Unproject(v: RectF, c: RectF, yZoom: bool, px: real, py: real): (p: PointF)
    requires c.Width() != 0.0 && c.Height() != 0.0
    ensures !yZoom ==> p.y == v.CenterY()
  {
    var x := Offset(v.left, v.Width(), px - c.left, c.Width());
    var y := if yZoom then Offset(v.top, v.Height(), py - c.bottom, -c.Height())
             else v.top + v.Height() / 2.0;
    PointF(x, y)
  }

  /** The point Unproject finds is drawn back at the pixel it came from (its y only with y
      zoom enabled). */
  lemma UnprojectDraws(v: RectF, c: RectF, yZoom: bool, px: real, py: real)
    requires c.Width() != 0.0 && c.Height() != 0.0
    ensures var p := Unproject(v, c, yZoom, px, py);
      && (v.Width() != 0.0 ==> DrawX(v, c, p.x) == px)
      && (yZoom && v.Height() != 0.0 ==> DrawY(v, c, p.y) == py)
  {
    if v.Width() != 0.0 {
      OffsetInverts(c.left, c.Width(), v.left, v.Width(), px);
    }
    if yZoom && v.Height() != 0.0 {
      AnchorInverts(c.bottom, c.Height(), v.top, v.Height(), py);
    }
  }

  /** Going from pixel p to the chart value Offset(vlo, vsize, p - clo, csize) and back
      with Offset(clo, csize, _ - vlo, vsize) gives p. */
  lemma OffsetInverts(clo: real, csize: real, vlo: real, vsize: real, p: real)
    requires csize != 0.0 && vsize != 0.0
    ensures Offset(clo, csize, Offset(vlo, vsize, p - clo, csize) - vlo, vsize) == p
  {
    OffsetBack(csize, p - clo, vsize);
  }

  /** The same for the inverted y axis, drawn with Anchor from the bottom edge. */
  lemma AnchorInverts(cbottom: real, csize: real, vlo: real, vsize: real, p: real)
    requires csize != 0.0 && vsize != 0.0
    ensures Anchor(cbottom, csize, Offset(vlo, vsize, p - cbottom, -csize) - vlo, vsize) == p
  {
    OffsetBack(-csize, p - cbottom, vsize);
  }

  /** Unprojecting the pixel of a chart point gives the point back (its y only with y zoom
      enabled; otherwise the viewport's centre). */
  lemma UnprojectInverse(v: RectF, c: RectF, yZoom: bool, x: real, y: real)
    requires c.Width() != 0.0 && c.Height() != 0.0
    requires v.Width() != 0.0 && v.Height() != 0.0
    ensures Unproject(v, c, yZoom, DrawX(v, c, x), DrawY(v, c, y))
            == PointF(x, if yZoom then y else v.CenterY())
  {
    DrawXBack(v, c, x);
    if yZoom {
      DrawYBack(v, c, y);
    }
  }

  /** The x half of UnprojectInverse. */
  lemma DrawXBack(v: RectF, c: RectF, x: real)
    requires c.Width() != 0.0 && v.Width() != 0.0
    ensures Offset(v.left, v.Width(), DrawX(v, c, x) - c.left, c.Width()) == x
  {
    OffsetBack(v.Width(), x - v.left, c.Width());
  }

  /** The y half of UnprojectInverse, on the inverted axis. */
  lemma DrawYBack(v: RectF, c: RectF, y: real)
    requires c.Height() != 0.0 && v.Height() != 0.0
    ensures Offset(v.top, v.Height(), DrawY(v, c, y) - c.bottom, -c.Height()) == y
  {
    OffsetBack(v.Height(), y - v.top, -c.Height());
  }

  /** hitTest: the chart point under pixel (px, py), written to `dest`, if the pixel (after
      Java's int truncation) lies in the content rectangle; otherwise `dest` is left as it
      was. */
  function HitTest(v: RectF, c: RectF, yZoom: bool, px: real, py: real, dest: PointF): (r: Hit)
    ensures r.found == c.HoldsPixel(TruncToInt(px), TruncToInt(py))
    ensures !r.found ==> r.dest == dest
    ensures r.found && v.Width() != 0.0 ==> DrawX(v, c, r.dest.x) == px
    ensures r.found && yZoom && v.Height() != 0.0 ==> DrawY(v, c, r.dest.y) == py
    ensures r.found && !yZoom ==> r.dest.y == v.CenterY()
  {
    if !c.HoldsPixel(TruncToInt(px), TruncToInt(py)) then Hit(false, dest)
    else
      UnprojectDraws(v, c, yZoom, px, py);
      Hit(true, Unproject(v, c, yZoom, px, py))
  }

  /** Hit-testing the pixel of a chart point that lies inside the content rectangle gives
      the point back (its y only with y zoom enabled; otherwise the viewport's centre). */
  lemma HitTestInverse(v: RectF, c: RectF, yZoom: bool, x: real, y: real, dest: PointF)
    requires v.Width() != 0.0 && v.Height() != 0.0
    requires c.HoldsPixel(TruncToInt(DrawX(v, c, x)), TruncToInt(DrawY(v, c, y)))
    ensures HitTest(v, c, yZoom, DrawX(v, c, x), DrawY(v, c, y), dest)
            == Hit(true, PointF(x, if yZoom then y else v.CenterY()))
  {
    UnprojectInverse(v, c, yZoom, x, y);
  }
}
