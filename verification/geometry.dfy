/**
  Plane geometry of the drawing surface: points, axis-aligned boxes, the paths the
  canvas 2D context builds (moveTo / lineTo / quadraticCurveTo / closePath), and the
  filled shapes a render is made of. Coordinates are exact reals.
 */
module Geometry {

  datatype Point = Point(x: real, y: real)

  /** A rectangle given like `fillRect(x, y, w, h)`. */
  datatype Box = Box(x: real, y: real, w: real, h: real) {

    function Center(): Point {
      Point(x + w / 2.0, y + h / 2.0)
    }

    function TopMid(): Point { Point(x + w / 2.0, y) }
    function RightMid(): Point { Point(x + w, y + h / 2.0) }
    function BottomMid(): Point { Point(x + w / 2.0, y + h) }
    function LeftMid(): Point { Point(x, y + h / 2.0) }

    /** The point lies in the closed box. */
    predicate HasPoint(p: Point) {
      x <= p.x <= x + w && y <= p.y <= y + h
    }

    /** The pixel at `p` is painted by `fillRect(x, y, w, h)`: the half-open box. */
    predicate Covers(p: Point) {
      x <= p.x < x + w && y <= p.y < y + h
    }

    /** This box lies within `outer` (edges may touch). */
    predicate Inside(outer: Box) {
      outer.x <= x && x + w <= outer.x + outer.w && outer.y <= y && y + h <= outer.y + outer.h
    }

    /** This box lies within `outer` and touches none of its edges. */
    predicate StrictlyInside(outer: Box) {
      outer.x < x && x + w < outer.x + outer.w && outer.y < y && y + h < outer.y + outer.h
    }
  }

  datatype Segment = LineTo(to: Point) | QuadTo(control: Point, to: Point)

  /** A sub-path: a moveTo, then line and quadratic-curve segments, optionally closePath. */
  datatype Path = Path(start: Point, segments: seq<Segment>, closed: bool) {

    /** Where the pen stops. */
    function End(): Point {
      if |segments| == 0 then start else segments[|segments| - 1].to
    }

    /** The points the path passes through: its start and the end of every segment. */
    function Anchors(): seq<Point> {
      [start] + seq(|segments|, i requires 0 <= i < |segments| => segments[i].to)
    }

    /** The path bounds a region: either closePath is called or the pen returns to its start. */
    predicate Encloses() {
      closed || End() == start
    }

    /** Every point defining the path (anchors and curve control points) lies in `b`;
        a quadratic curve stays within the hull of its points, so the whole path does. */
    predicate Within(b: Box) {
      && b.HasPoint(start)
      && forall i :: 0 <= i < |segments| ==> SegmentWithin(segments[i], b)
    }
  }

  predicate SegmentWithin(s: Segment, b: Box) {
    match s
    case LineTo(p) => b.HasPoint(p)
    case QuadTo(c, p) => b.HasPoint(c) && b.HasPoint(p)
  }

  /** The filled or stroked figures of a render. */
  datatype Shape =
    | Rect(box: Box)                          // fillRect / strokeRect
    | Disk(center: Point, radius: real)       // arc(cx, cy, r, 0, 2π)
    | RoundedRect(box: Box, radius: real)     // drawRoundedRect
    | Rhombus(box: Box)                       // the diamond dot
    | Teardrop(box: Box)                      // the leaf eye

  /** The smallest box that holds the shape when it is well formed. */
  function Bounds(s: Shape): Box {
    match s
    case Disk(c, r) => Box(c.x - r, c.y - r, 2.0 * r, 2.0 * r)
    case Rect(b) => b
    case RoundedRect(b, _) => b
    case Rhombus(b) => b
    case Teardrop(b) => b
  }

  /** drawRoundedRect(x, y, width, height, radius): straight edges joined by quadratic
      corners whose control points are the box corners. */
  function RoundedRectPath(b: Box, r: real): (p: Path)
    ensures p.closed && p.End() == p.start
    ensures 0.0 <= r && 2.0 * r <= b.w && 2.0 * r <= b.h ==> p.Within(b)
    ensures r == 0.0 ==> p.Anchors() == [
      Point(b.x, b.y), Point(b.x + b.w, b.y), Point(b.x + b.w, b.y), Point(b.x + b.w, b.y + b.h),
      Point(b.x + b.w, b.y + b.h), Point(b.x, b.y + b.h), Point(b.x, b.y + b.h), Point(b.x, b.y),
      Point(b.x, b.y)]
  {
    var x, y, w, h := b.x, b.y, b.w, b.h;
    Path(Point(x + r, y), [
      LineTo(Point(x + w - r, y)),
      QuadTo(Point(x + w, y), Point(x + w, y + r)),
      LineTo(Point(x + w, y + h - r)),
      QuadTo(Point(x + w, y + h), Point(x + w - r, y + h)),
      LineTo(Point(x + r, y + h)),
      QuadTo(Point(x, y + h), Point(x, y + h - r)),
      LineTo(Point(x, y + r)),
      QuadTo(Point(x, y), Point(x + r, y))], true)
  }

  /** The diamond: top, right, bottom and left edge midpoints, closed. */
  function RhombusPath(b: Box): (p: Path)
    ensures p.closed
    ensures p.Anchors() == [b.TopMid(), b.RightMid(), b.BottomMid(), b.LeftMid()]
    ensures 0.0 <= b.w && 0.0 <= b.h ==> p.Within(b)
  {
    Path(Point(b.x + b.w / 2.0, b.y), [
      LineTo(Point(b.x + b.w, b.y + b.h / 2.0)),
      LineTo(Point(b.x + b.w / 2.0, b.y + b.h)),
      LineTo(Point(b.x, b.y + b.h / 2.0))], true)
  }

  /** The leaf: from the bottom-left corner up to the top edge's midpoint, over to the
      bottom-right corner, and back to the start through the centre-pulled curve. */
  function TeardropPath(b: Box): (p: Path)
    ensures !p.closed && p.End() == p.start
    ensures p.Anchors() == [
      Point(b.x, b.y + b.h), b.TopMid(), Point(b.x + b.w, b.y + b.h), Point(b.x, b.y + b.h)]
    ensures 0.0 <= b.w && 0.0 <= b.h ==> p.Within(b)
  {
    var x, y, s, t := b.x, b.y, b.w, b.h;
    Path(Point(x, y + t), [
      QuadTo(Point(x, y), Point(x + s / 2.0, y)),
      QuadTo(Point(x + s, y), Point(x + s, y + t)),
      QuadTo(Point(x + s / 2.0, y + t / 2.0), Point(x, y + t))], false)
  }

  /** The four-edge path of a plain rectangle. */
  function RectPath(b: Box): (p: Path)
    ensures p.closed
    ensures p.Anchors() == [
      Point(b.x, b.y), Point(b.x + b.w, b.y), Point(b.x + b.w, b.y + b.h), Point(b.x, b.y + b.h)]
    ensures 0.0 <= b.w && 0.0 <= b.h ==> p.Within(b)
  {
    Path(Point(b.x, b.y), [
      LineTo(Point(b.x + b.w, b.y)),
      LineTo(Point(b.x + b.w, b.y + b.h)),
      LineTo(Point(b.x, b.y + b.h))], true)
  }

  /** The outline of every shape but the disk, whose boundary is an arc. */
  function Outline(s: Shape): Path
    requires !s.Disk?
  {
    match s
    case Rect(b) => RectPath(b)
    case RoundedRect(b, r) => RoundedRectPath(b, r)
    case Rhombus(b) => RhombusPath(b)
    case Teardrop(b) => TeardropPath(b)
  }

  /** A shape is well formed when its box has no negative side, a disk has no negative
      radius, and a rounded rectangle's corners fit (radius at most half of each side). */
  predicate WellFormed(s: Shape) {
    match s
    case Disk(_, r) => 0.0 <= r
    case RoundedRect(b, r) => 0.0 <= b.w && 0.0 <= b.h && 0.0 <= r && 2.0 * r <= b.w && 2.0 * r <= b.h
    case Rect(b) => 0.0 <= b.w && 0.0 <= b.h
    case Rhombus(b) => 0.0 <= b.w && 0.0 <= b.h
    case Teardrop(b) => 0.0 <= b.w && 0.0 <= b.h
  }

  /** Every well-formed outlined shape bounds a region and stays within its bounds. */
  lemma OutlineWithinBounds(s: Shape)
    requires !s.Disk? && WellFormed(s)
    ensures Outline(s).Encloses()
    ensures Outline(s).Within(Bounds(s))
  {
  }

  /** A disk's bounds are centred on it and span its diameter. */
  lemma DiskBounds(s: Shape)
    requires s.Disk? && WellFormed(s)
    ensures Bounds(s).Center() == s.center
    ensures Bounds(s).w == Bounds(s).h == 2.0 * s.radius
  {
  }
}
