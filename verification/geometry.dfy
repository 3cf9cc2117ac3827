/** Value types shared by the viewport engine: the logical rectangle (Android's RectF),
    the pixel rectangle (Android's Rect), points, and Java's float-to-int cast. */
module Geometry {

  /** A rectangle in logical (chart) coordinates.  `top` is the SMALLER y value and is
      drawn above `bottom`: chart y grows towards the top of the screen. */
  datatype RectF = RectF(left: real, top: real, right: real, bottom: real) {
    function Width(): real { right - left }
    function Height(): real { bottom - top }
    function CenterX(): real { (right + left) / 2.0 }
    function CenterY(): real { (bottom + top) / 2.0 }

    /** Rect.contains(x, y) for a rectangle with these (whole-number) bounds: it is
        non-empty and the pixel lies in [left, right) x [top, bottom). */
    predicate HoldsPixel(x: int, y: int) {
      left < right && top < bottom && left <= x as real < right && top <= y as real < bottom
    }
  }

  /** A rectangle in integer pixel coordinates; pixel y grows downwards. */
  datatype PixelRect = PixelRect(left: int, top: int, right: int, bottom: int) {
    function Width(): int { right - left }
    function Height(): int { bottom - top }

    /** The framework's Rect.contains(x, y): the rectangle is non-empty and the pixel lies
        in the half-open box [left, right) x [top, bottom). */
    predicate Contains(x: int, y: int) {
      left < right && top < bottom && left <= x < right && top <= y < bottom
    }

    /** The same rectangle with real coordinates, for arithmetic with chart values. */
    function Frame(): (r: RectF)
      ensures r.left == left as real && r.top == top as real
      ensures r.right == right as real && r.bottom == bottom as real
      ensures r.Width() == Width() as real && r.Height() == Height() as real
      ensures forall x, y :: r.HoldsPixel(x, y) <==> Contains(x, y)
    {
      RectF(left as real, top as real, right as real, bottom as real)
    }
  }

  /** A point with real coordinates (Android's PointF). */
  datatype PointF = PointF(x: real, y: real)

  /** A point with integer coordinates (Android's Point), used for the scroll surface size. */
  datatype Point = Point(x: int, y: int)

  /** Largest value of a Java int (Integer.MAX_VALUE). */
  const INT_MAX: int := 0x7fff_ffff

  /** Java's `(int)` cast of a float: rounds toward zero (saturation at the int range is not modelled). */
  function TruncToInt(x: real): (n: int)
    ensures 0.0 <= x ==> n as real <= x < n as real + 1.0
    ensures x <= 0.0 ==> n as real - 1.0 < x <= n as real
    ensures (n < 0) == (x <= -1.0)
  {
    if x >= 0.0 then x.Floor else -((-x).Floor)
  }

  /** Casting a whole number to float and back gives it unchanged. */
  lemma TruncWhole(n: int)
    ensures TruncToInt(n as real) == n
  {
    if n < 0 {
      assert (-(n as real)).Floor == -n;
    }
  }

  /** Java's int division by 2, which rounds toward zero. */
  function HalfTowardZero(n: int): (r: int)
    ensures n >= 0 ==> 0 <= n - 2 * r <= 1
    ensures n < 0 ==> -1 <= n - 2 * r <= 0
  {
    if n >= 0 then n / 2 else -((-n) / 2)
  }
}
