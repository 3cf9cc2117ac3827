# GraphView viewport engine in Dafny

`GraphView` is an Android chart view. It shows a window, the *viewport*, onto a logical
chart plane whose fixed extremes are -1..1 on both axes. Its x extent can also grow
leftwards without bound, through the moving left extreme `AxisX_min`. The view draws into
a pixel *content rectangle*. The engine modelled here does five things:

- It maps chart values to pixels and back: `getDrawX`, `getDrawY` and `hitTest`. Pixel y
  grows downwards and chart y grows upwards.
- It pans the viewport with clamping: `setViewportBottomLeft`.
- It turns gestures into viewport changes: `onScaleBegin`/`onScale` for pinch zoom,
  `onDown`, `onScroll` and `onFling` for drags and flings, and `onDoubleTap`.
- It advances fling and zoom animations one frame at a time: `computeScroll`, which is
  started by `fling`, `pan*`, `zoomIn` and `zoomOut`.
- It keeps four edge-glow flags that are raised by a pull or an absorb and cleared on
  release.

The project has six modules:

- `Geometry` holds the value types: `RectF`, `PixelRect` (Android's `Rect`), `PointF`,
  `Point`, and Java's float-to-int cast.
- `Transform` holds the coordinate mapping and the hit test.
- `Viewport` holds the pure arithmetic of panning, the scroll surface, one pinch-zoom
  update and one zoom-animation frame.
- `EdgeEffects` holds the edge flags, the absorb and pull steps, and what sequences of
  them do.
- `Pinch` holds the scale listener's state and what sequences of `onScale` updates do.
- `Graph` holds the class `GraphView`. Its fields are the view's fields, and each method
  states its new state through the functions above.

The model follows the code as written, including its quirks:

- `constrainViewport` has its whole body commented out, so it changes nothing.
- In `onScale`, an axis with zoom disabled keeps its near edge. Its far edge becomes the
  negation of the near edge, because `width()`/`height()` are read after
  `set(..., 0, 0)`.
- `onScale` ignores `hitTest`'s result. When the focal pixel is outside the content, the
  previous focus is reused.
- `onScroll` never pulls the left edge, because that branch's guard ends in a literal
  `false`.
- When scrolling is disabled on an axis, `computeScroll` pans that axis to 0.
- A fling frame's x target is the current left edge plus the scroller's x position.
  That adds a pixel count to a chart coordinate without converting units: one pixel
  moves the left edge by one whole chart unit, up to the clamp at `AXIS_X_MAX`.
- `fling` starts the scroller at x = `(int) width() * content width`, a pixel count.
  The x range is [0, 0], and a fling frame adds the scroller's x to the left edge as
  chart units. So a frame at that start puts a viewport at least one unit wide at the
  right clamp, whichever way the fling goes.
- Edge flags are released by `onDown` and also by `fling`, which `onFling` and the
  programmatic `panLeft`/`panRight`/`panUp`/`panDown` call without any touch.

## Model

| member | source | states |
|---|---|---|
| Geometry.TruncToInt | app/src/main/java/com/android/espresso/GraphView.java:546 | Java's `(int)` cast rounds toward zero: the result lies within 1 of x on the side of zero, and is negative exactly when x <= -1 |
| Geometry.HalfTowardZero | app/src/main/java/com/android/espresso/GraphView.java:611 | `height() / 2` on ints rounds toward zero for both signs |
| Geometry.PixelRect.Frame | app/src/main/java/com/android/espresso/GraphView.java:546 | the content rectangle with the same coordinates as reals, so the same width and height, holding exactly the pixels `Rect.contains` accepts |
| Transform.DrawX | app/src/main/java/com/android/espresso/GraphView.java:453-457 | viewport left maps to content left, viewport right to content right |
| Transform.DrawY | app/src/main/java/com/android/espresso/GraphView.java:462-466 | inverted axis: viewport top maps to content bottom, viewport bottom to content top |
| Transform.Unproject | app/src/main/java/com/android/espresso/GraphView.java:550-557 | with y zoom disabled the y result is the viewport's vertical centre |
| Transform.UnprojectDraws | app/src/main/java/com/android/espresso/GraphView.java:545-560 | the point found under a pixel is drawn back at that pixel (y only with y zoom enabled) |
| Transform.UnprojectInverse | app/src/main/java/com/android/espresso/GraphView.java:545-560 | unprojecting the pixel of any chart point gives the point back (its y replaced by the centre when y zoom is disabled) |
| Transform.HitTest | app/src/main/java/com/android/espresso/GraphView.java:545-560 | found exactly when the truncated pixel is in the content rectangle; dest unchanged otherwise; when found, dest is drawn back at the pixel, and its y is the centre when y zoom is disabled |
| Transform.HitTestInverse | app/src/main/java/com/android/espresso/GraphView.java:545-560 | hitTest(getDrawX(x), getDrawY(y)) finds (x, y) when that pixel is in the content rectangle (y is the centre when y zoom is disabled) |
| Viewport.PanTo | app/src/main/java/com/android/espresso/GraphView.java:717-733 | width and height kept; right <= AXIS_X_MAX and left = x whenever x allows it, with no lower bound on left; bottom clamped into [AXIS_Y_MIN + h, AXIS_Y_MAX] with the lower bound winning; top >= AXIS_Y_MIN |
| Viewport.PanToIdempotent | app/src/main/java/com/android/espresso/GraphView.java:717-733 | panning twice to the same corner equals panning once |
| Viewport.PanToStays | app/src/main/java/com/android/espresso/GraphView.java:717-733 | a viewport already within the clamps is unchanged by panning to its own bottom-left corner |
| Viewport.SurfaceSize | app/src/main/java/com/android/espresso/GraphView.java:621-628 | surface width is Integer.MAX_VALUE; height is the content height when y cannot scroll or the whole y range is shown, and twice that at 200% zoom |
| Viewport.SurfaceSizeScales | app/src/main/java/com/android/espresso/GraphView.java:625-626 | surface height times viewport height brackets content height times the y range, to within one viewport height |
| Viewport.ScaleStep | app/src/main/java/com/android/espresso/GraphView.java:184-200 | a zoom-enabled axis's extent becomes lastSpan/span times the old; a zoom-disabled axis keeps its near edge and its far edge becomes the near edge negated |
| Viewport.ScaleStepAnchors | app/src/main/java/com/android/espresso/GraphView.java:189-195 | after the update the focus point is drawn exactly at the focal pixel on every zoom-enabled axis |
| Viewport.ZoomStep | app/src/main/java/com/android/espresso/GraphView.java:690-701 | with y zoom disabled the current top and bottom are kept |
| Viewport.ZoomStepScales | app/src/main/java/com/android/espresso/GraphView.java:690-701 | the new extent is (1 - currZoom) times the start extent; the focal point keeps its relative position; currZoom = 0 reproduces the start viewport (on y only with y zoom enabled) |
| Viewport.ZoomStepKeepsCentre | app/src/main/java/com/android/espresso/GraphView.java:762-783 | a zoom focused on the start viewport's centre, as zoomIn/zoomOut set it, keeps that centre in every frame |
| EdgeEffects.AbsorbStep | app/src/main/java/com/android/espresso/GraphView.java:649-678 | each edge is absorbed exactly when the position has crossed it, its axis can scroll, its glow has finished and it is not active yet; right only when left was not, bottom only when top was not; absorbing activates the edge and nothing else changes |
| EdgeEffects.PullStep | app/src/main/java/com/android/espresso/GraphView.java:267-284 | the left flag is never changed; no flag is cleared; right/top/bottom are newly raised exactly under their guards |
| EdgeEffects.RunKeepsActive | app/src/main/java/com/android/espresso/GraphView.java:582-592 | without a release (onDown or fling), an active edge stays active through any sequence of frames and drags |
| EdgeEffects.AbsorbAtMostOnce | app/src/main/java/com/android/espresso/GraphView.java:649-678 | between releases (onDown or fling) each edge is absorbed at most once, and not at all if it started active |
| EdgeEffects.AbsorbsNoneWhileActive | app/src/main/java/com/android/espresso/GraphView.java:649-678 | once an edge is active no frame absorbs it until the next release (onDown or fling) |
| EdgeEffects.ReleaseClears | app/src/main/java/com/android/espresso/GraphView.java:582-592 | a release (onDown or fling) clears all four flags, whatever came before |
| Pinch.ScaleUpdate | app/src/main/java/com/android/espresso/GraphView.java:181-207 | the spans become the new baseline; a focal pixel outside the content reuses the previous focus; inside, the focus is the hit-tested chart point |
| Pinch.UpdateWidth | app/src/main/java/com/android/espresso/GraphView.java:184-205 | with x zoom enabled, width times baseline x span is unchanged by an update |
| Pinch.UpdateHeight | app/src/main/java/com/android/espresso/GraphView.java:184-205 | with y zoom enabled, height times baseline y span is unchanged by an update |
| Pinch.PinchWidth | app/src/main/java/com/android/espresso/GraphView.java:181-207 | with x zoom enabled, over any sequence of updates width times baseline x span stays what it was at the start, so the width after the gesture depends only on the first and last spans |
| Pinch.PinchHeight | app/src/main/java/com/android/espresso/GraphView.java:181-207 | the same for the height with y zoom enabled |
| Pinch.PinchLastSpans | app/src/main/java/com/android/espresso/GraphView.java:204-205 | after a non-empty sequence of updates the baseline spans are the last event's spans |
| Pinch.RescaleRoundTripX | app/src/main/java/com/android/espresso/GraphView.java:184-200 | rescaling around the point under a pixel from span l to s and back to l restores left and right |
| Pinch.RescaleRoundTripY | app/src/main/java/com/android/espresso/GraphView.java:184-200 | the same for top and bottom with y zoom enabled |
| Pinch.PinchRoundTrip | app/src/main/java/com/android/espresso/GraphView.java:181-207 | two updates with a focal pixel inside the content, the second back at the starting spans, restore left and right, and top and bottom with y zoom enabled; with y zoom disabled top is kept and bottom ends as -top |
| Graph.DragFollowsFinger | app/src/main/java/com/android/espresso/GraphView.java:250-251 | when no clamp bites, the drag conversion moves every chart point distanceX pixels left and distanceY pixels up on screen: the chart follows the finger |
| Graph.FlingFrom | app/src/main/java/com/android/espresso/GraphView.java:594-613 | the fling request has the given velocities and x range [0, 0]; the x overscroll is the viewport width truncated to int, and the x start is that many content widths, which is 0 for a viewport narrower than one unit and otherwise at least one content width, past the x range; the y range starts at 0 and, with y scrolling, ends one content height before the surface end; with y scrolling disabled the y start and range are 0, as the y start also is for a viewport at the top of the axis range; the y overscroll is half the content height |
| Graph.FlingTarget | app/src/main/java/com/android/espresso/GraphView.java:680-684 | with x scrolling the x target is the left edge plus the scroller x position (pixels added to chart units); a disabled axis pans to 0; vertical scroll offset 0 maps to AXIS_Y_MAX and the surface height maps to AXIS_Y_MIN |
| Graph.FlingStep | app/src/main/java/com/android/espresso/GraphView.java:636-686 | the flags and absorbed edges are those of AbsorbStep, and the viewport is PanTo of the fling target; so the size is kept, right <= AXIS_X_MAX, left = min(left + currX, AXIS_X_MAX - w) with x scrolling and min(0, AXIS_X_MAX - w) without, AxisX_min follows the new left, and flags only rise |
| Graph.FlingResumesY | app/src/main/java/com/android/espresso/GraphView.java:598-684 | for a viewport within the y clamps and a non-empty scroll surface, a fling frame at the start offset fling() computed puts the bottom edge back where it was, to within one scroll-surface pixel (never lower) |
| Graph.FlingResumesX | app/src/main/java/com/android/espresso/GraphView.java:598-684 | a fling frame at the x start fling() computed pushes a viewport at least one unit wide (with right >= 0 and a non-empty content) to the right clamp, whatever the fling direction, and leaves a narrower viewport within the clamp where it was |
| Graph.GraphView.constructor | app/src/main/java/com/android/espresso/GraphView.java:136-212 | the initial viewport is the whole axis range, the content rectangle is empty, AxisX_min = -1, no edge is active, x zoom and x scrolling are on, y zoom and y scrolling are off |
| Graph.GraphView.OnSizeChanged | app/src/main/java/com/android/espresso/GraphView.java:391-398 | the content rectangle is the view minus its padding, the label column and the label row |
| Graph.GraphView.ConstrainViewport | app/src/main/java/com/android/espresso/GraphView.java:573-580 | the viewport is unchanged |
| Graph.GraphView.SetViewportBottomLeft | app/src/main/java/com/android/espresso/GraphView.java:717-733 | the viewport becomes PanTo of the old one; AxisX_min becomes min(old AxisX_min, new left), so it never increases |
| Graph.GraphView.ReleaseEdgeEffects | app/src/main/java/com/android/espresso/GraphView.java:582-592 | all four flags are cleared |
| Graph.GraphView.OnDown | app/src/main/java/com/android/espresso/GraphView.java:220-226 | flags cleared, the start viewport recorded, the fling stopped; returns true |
| Graph.GraphView.OnDoubleTap | app/src/main/java/com/android/espresso/GraphView.java:228-238 | changes nothing and returns true |
| Graph.GraphView.OnScaleBegin | app/src/main/java/com/android/espresso/GraphView.java:172-178 | the current spans become the baseline; returns true |
| Graph.GraphView.OnScale | app/src/main/java/com/android/espresso/GraphView.java:181-207 | the listener state becomes ScaleUpdate of the old one; afterwards the focus field is drawn at the focal pixel on each zoom-enabled axis; returns true |
| Graph.GraphView.OnScroll | app/src/main/java/com/android/espresso/GraphView.java:241-286 | the viewport is panned by DragOffset on each scrollable axis (DragFollowsFinger states what that achieves); AxisX_min follows; the flags become PullStep of the old ones; the left flag never changes; a newly raised right flag means right == AXIS_X_MAX |
| Graph.GraphView.Fling | app/src/main/java/com/android/espresso/GraphView.java:594-613 | flags cleared, start viewport recorded, and the scroller given FlingFrom of the viewport |
| Graph.GraphView.OnFling | app/src/main/java/com/android/espresso/GraphView.java:289-292 | a fling with the negated velocities cast to int; returns true |
| Graph.GraphView.PanLeft | app/src/main/java/com/android/espresso/GraphView.java:788-790 | a fling with x velocity -2 × view width |
| Graph.GraphView.PanRight | app/src/main/java/com/android/espresso/GraphView.java:795-797 | a fling with x velocity 2 × view width |
| Graph.GraphView.PanUp | app/src/main/java/com/android/espresso/GraphView.java:802-804 | a fling with y velocity -2 × view height |
| Graph.GraphView.PanDown | app/src/main/java/com/android/espresso/GraphView.java:809-811 | a fling with y velocity 2 × view height |
| Graph.GraphView.ComputeScroll | app/src/main/java/com/android/espresso/GraphView.java:631-709 | requires a fling request when the scroller runs and a started zoom when the zoomer runs; a running fling applies FlingStep (absorb, then pan) and returns the edges it absorbed; a running zoom then applies ZoomStep from the start viewport; a redraw is posted exactly when a fling or a zoom frame ran |
| Graph.GraphView.ZoomIn | app/src/main/java/com/android/espresso/GraphView.java:762-770 | start viewport recorded, zoom of +ZOOM_AMOUNT started, focal point at the viewport centre |
| Graph.GraphView.ZoomOut | app/src/main/java/com/android/espresso/GraphView.java:775-783 | the same with -ZOOM_AMOUNT |
| Graph.GraphView.GetCurrentViewport | app/src/main/java/com/android/espresso/GraphView.java:744-746 | returns the viewport's value |
| Graph.GraphView.SetCurrentViewport | app/src/main/java/com/android/espresso/GraphView.java:753-757 | the viewport becomes the given one, unclamped |
| Graph.GraphView.SetXZoomEnabled | app/src/main/java/com/android/espresso/GraphView.java:950-952 | sets the x zoom flag and nothing else |
| Graph.GraphView.SetYZoomEnabled | app/src/main/java/com/android/espresso/GraphView.java:942-944 | sets the y zoom flag and nothing else |
| Graph.GraphView.SetXCanScrolled | app/src/main/java/com/android/espresso/GraphView.java:958-960 | sets the x scroll flag and nothing else |
| Graph.GraphView.SetYCanScrolled | app/src/main/java/com/android/espresso/GraphView.java:926-928 | sets the y scroll flag and nothing else |

## Left out

- Rendering is not modelled: `onDraw`, `drawAxes`, `drawDataSeriesUnclipped` and the
  edge-glow drawing, along with `setIsOutlineShown` and the flag getters.
  InteractiveLineChartView.java and AxisStops.java draw and describe axis labels. The
  tick planner they call (`ChartUtil`) is not part of this model.
- Android plumbing is not modelled: attribute and `Paint` setup, `onMeasure`,
  `onTouchEvent` dispatch, and the `SavedState` save and restore.
  `postInvalidateOnAnimation` is modelled only as `ComputeScroll`'s `redraw` result.
- `OverScroller`, `Zoomer` and `EdgeEffectCompat` are foreign code:
  - The values the view reads from them are method parameters. These are the scroll
    position, `computeScrollOffset`, `computeZoom`, the current zoom fraction and
    `isFinished`.
  - The requests the view makes are recorded in fields. These are the fling arguments,
    the zoom amount, and a stopped fling (`forceFinished`).
  - The glow magnitudes passed to `onPull`/`onAbsorb` and the `onRelease` calls are not
    modelled. Only the active flags are.
- `OnScroll` does not compute `scrolledX`. It only feeds the left pull, which is
  disabled, and the right pull's magnitude, which is not modelled.
- Floats are reals, so rounding is not modelled. Where Java would divide by zero and
  carry on with Infinity or NaN, the model requires a non-zero divisor. The divisors are
  the content width and height, a zero span on a zoom-enabled axis, a zero-size viewport
  or start viewport, and a zero surface height.
- `TruncToInt` does not saturate at the int range, and int arithmetic does not wrap.
  For example, `scrolledX` would overflow-saturate on a surface width of
  Integer.MAX_VALUE.
- Rectangles are values. `setCurrentViewport` stores the caller's `RectF` object in
  Java, so a later change to that object would show through. The model does not capture
  this aliasing.
- The pixel content rectangle enters the arithmetic through `PixelRect.Frame`, its
  real-valued copy. The values are identical.
- Viewport.ZoomStep: its own contract states only the y-disabled case. Its extent,
  focal-point and zero-zoom properties are stated in `ZoomStepScales`.
- Debug logging (`Log.d`, `dev()`) is not modelled.
