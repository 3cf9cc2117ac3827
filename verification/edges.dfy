/** The overscroll bookkeeping of GraphView: the four mEdgeEffect*Active flags, the
    absorb step a fling frame performs, the pull step a drag performs, and the release
    that a touch-down or the start of a fling performs.  The glow magnitudes handed to EdgeEffectCompat are not
    modelled; only whether an edge was pulled or absorbed. */
module EdgeEffects {
  import opened Geometry
  import opened Viewport

  datatype Edge = Top | Bottom | Left | Right

  /** One boolean per edge. */
  datatype EdgeFlags = EdgeFlags(top: bool, bottom: bool, left: bool, right: bool) {
    function Get(e: Edge): bool {
      match e
      case Top => top
      case Bottom => bottom
      case Left => left
      case Right => right
    }
  }

  /** releaseEdgeEffects: no edge active. */
  const Released: EdgeFlags := EdgeFlags(false, false, false, false)

  /** The flags after a fling frame, and which edges it called onAbsorb on. */
  datatype Absorption = Absorption(flags: EdgeFlags, absorbed: EdgeFlags)

  /** The edge-absorb part of computeScroll.  (currX, currY) is the scroller's pixel
      position, `surface` the scroll surface size, `finished` whether each edge's glow
      has finished.  An edge is absorbed when the position is past it, its axis can
      scroll, its glow is finished and its flag is not yet set; right is tried only when
      left was not, bottom only when top was not. */
  function AbsorbStep(flags: EdgeFlags, canScrollX: bool, canScrollY: bool, currX: int, currY: int,
                      surface: Point, c: PixelRect, finished: EdgeFlags): (r: Absorption)
    // an active edge is never absorbed again, and absorbing activates the edge
    ensures forall e :: r.absorbed.Get(e) ==> !flags.Get(e)
    ensures forall e :: r.flags.Get(e) == (flags.Get(e) || r.absorbed.Get(e))
    // at most one edge per axis
    ensures !(r.absorbed.left && r.absorbed.right) && !(r.absorbed.top && r.absorbed.bottom)
    // an edge is absorbed exactly when the position has crossed it, its axis can scroll,
    // its glow has finished and it is not active yet; right only when left was not,
    // bottom only when top was not
    ensures r.absorbed.left <==> canScrollX && currX < 0 && finished.left && !flags.left
    ensures r.absorbed.right <==> !r.absorbed.left && canScrollX && currX > surface.x - c.Width()
                                  && finished.right && !flags.right
    ensures r.absorbed.top <==> canScrollY && currY < 0 && finished.top && !flags.top
    ensures r.absorbed.bottom <==> !r.absorbed.top && canScrollY && currY > surface.y - c.Height()
                                   && finished.bottom && !flags.bottom
  {
    var absorbLeft := canScrollX && currX < 0 && finished.left && !flags.left;
    var absorbRight := !absorbLeft && canScrollX && currX > surface.x - c.Width()
                       && finished.right && !flags.right;
    var absorbTop := canScrollY && currY < 0 && finished.top && !flags.top;
    var absorbBottom := !absorbTop && canScrollY && currY > surface.y - c.Height()
                        && finished.bottom && !flags.bottom;
    var absorbed := EdgeFlags(absorbTop, absorbBottom, absorbLeft, absorbRight);
    Absorption(EdgeFlags(flags.top || absorbTop, flags.bottom || absorbBottom,
                         flags.left || absorbLeft, flags.right || absorbRight),
               absorbed)
  }

  /** The edge-pull part of onScroll.  canScrollX/canScrollY are computed before the
      move, `scrolledY` is the vertical pixel offset of the moved viewport within the
      surface, `newRight` the right edge after the move.  The left edge is never pulled
      (its branch is guarded by a literal false): the chart scrolls left without bound. */
  function PullStep(flags: EdgeFlags, canScrollX: bool, canScrollY: bool, scrolledY: int,
                    newRight: real, surface: Point, c: PixelRect): (r: EdgeFlags)
    ensures r.left == flags.left
    ensures forall e :: flags.Get(e) ==> r.Get(e)
    ensures r.right && !flags.right <==> canScrollX && newRight >= AXIS_X_MAX && !flags.right
    ensures r.top && !flags.top <==> canScrollY && scrolledY < 0 && !flags.top
    ensures r.bottom && !flags.bottom <==>
      canScrollY && scrolledY > surface.y - c.Height() && !flags.bottom
  {
    EdgeFlags(flags.top || (canScrollY && scrolledY < 0),
              flags.bottom || (canScrollY && scrolledY > surface.y - c.Height()),
              flags.left,
              flags.right || (canScrollX && newRight >= AXIS_X_MAX))
  }

  /** What can happen to the flags: a release (releaseEdgeEffects, which both onDown and
      fling call; fling is reached from onFling and from panLeft/Right/Up/Down), a fling
      frame, or a drag step, each with the values the source computes for it. */
  datatype EdgeEvent =
    | Release
    | Frame(canScrollX: bool, canScrollY: bool, currX: int, currY: int, surface: Point,
            c: PixelRect, finished: EdgeFlags)
    | Drag(canScrollX: bool, canScrollY: bool, scrolledY: int, newRight: real,
           surface: Point, c: PixelRect)

  function Apply(flags: EdgeFlags, ev: EdgeEvent): EdgeFlags {
    match ev
    case Release => Released
    case Frame(cx, cy, x, y, s, c, f) => AbsorbStep(flags, cx, cy, x, y, s, c, f).flags
    case Drag(cx, cy, sy, nr, s, c) => PullStep(flags, cx, cy, sy, nr, s, c)
  }

  /** The flags after a sequence of events. */
  function Run(flags: EdgeFlags, evs: seq<EdgeEvent>): EdgeFlags
    decreases |evs|
  {
    if evs == [] then flags else Run(Apply(flags, evs[0]), evs[1..])
  }

  /** How many times a sequence of events calls onAbsorb on edge `e`. */
  function Absorbs(flags: EdgeFlags, evs: seq<EdgeEvent>, e: Edge): nat
    decreases |evs|
  {
    if evs == [] then 0
    else
      var here := match evs[0]
        case Frame(cx, cy, x, y, s, c, f) =>
          if AbsorbStep(flags, cx, cy, x, y, s, c, f).absorbed.Get(e) then 1 else 0
        case _ => 0;
      here + Absorbs(Apply(flags, evs[0]), evs[1..], e)
  }

  /** Flags only rise between releases. */
  lemma {:induction false} RunKeepsActive(flags: EdgeFlags, evs: seq<EdgeEvent>, e: Edge)
    requires Release !in evs
    requires flags.Get(e)
    ensures Run(flags, evs).Get(e)
    decreases |evs|
  {
    if evs != [] {
      assert evs[0] != Release;
      assert Apply(flags, evs[0]).Get(e);
      assert Release !in evs[1..] by { assert forall i :: 0 <= i < |evs| - 1 ==> evs[1..][i] == evs[i + 1]; }
      RunKeepsActive(Apply(flags, evs[0]), evs[1..], e);
    }
  }

  /** Between two releases each edge is absorbed at most once, and not at all if it was
      already active when the sequence started. */
  lemma {:induction false} AbsorbAtMostOnce(flags: EdgeFlags, evs: seq<EdgeEvent>, e: Edge)
    requires Release !in evs
    ensures Absorbs(flags, evs, e) <= if flags.Get(e) then 0 else 1
    decreases |evs|
  {
    if evs != [] {
      var next := Apply(flags, evs[0]);
      assert Release !in evs[1..] by { assert forall i :: 0 <= i < |evs| - 1 ==> evs[1..][i] == evs[i + 1]; }
      AbsorbAtMostOnce(next, evs[1..], e);
      if flags.Get(e) {
        assert next.Get(e);
      } else if next.Get(e) {
        AbsorbsNoneWhileActive(next, evs[1..], e);
      }
    }
  }

  /** Once an edge is active, no event before the next release absorbs it. */
  lemma {:induction false} AbsorbsNoneWhileActive(flags: EdgeFlags, evs: seq<EdgeEvent>, e: Edge)
    requires Release !in evs
    requires flags.Get(e)
    ensures Absorbs(flags, evs, e) == 0
    decreases |evs|
  {
    if evs != [] {
      var next := Apply(flags, evs[0]);
      assert next.Get(e);
      assert Release !in evs[1..] by { assert forall i :: 0 <= i < |evs| - 1 ==> evs[1..][i] == evs[i + 1]; }
      AbsorbsNoneWhileActive(next, evs[1..], e);
    }
  }

  /** A release clears every edge, whatever came before it. */
  lemma ReleaseClears(flags: EdgeFlags, before: seq<EdgeEvent>)
    ensures Run(flags, before + [Release]) == Released
  {
    RunSnoc(flags, before, Release);
  }

  /** Running a sequence and then one more event. */
  lemma {:induction false} RunSnoc(flags: EdgeFlags, evs: seq<EdgeEvent>, ev: EdgeEvent)
    ensures Run(flags, evs + [ev]) == Apply(Run(flags, evs), ev)
    decreases |evs|
  {
    if evs != [] {
      assert (evs + [ev])[1..] == evs[1..] + [ev];
      RunSnoc(Apply(flags, evs[0]), evs[1..], ev);
    }
  }
}
