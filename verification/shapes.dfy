/**
  The shape renderer (drawDot): one styled mark in the box at (x, y) with side `size`.
 */
module Shapes {
  import opened Config
  import opened Geometry

  /** The style a mark was drawn with, read back from its shape. */
  function StyleOf(s: Shape): MarkStyle {
    match s
    case Rect(_) => Square
    case Disk(_, _) => Circle
    case RoundedRect(_, _) => Rounded
    case Rhombus(_) => Diamond
    case Teardrop(_) => Leaf
  }

  /** drawDot: circle is the inscribed disk, rounded a rounded square with corner radius
      0.3·size, diamond the square's edge-midpoint rhombus, leaf the teardrop, and every
      other value (square) the full square. Whatever the style, the mark spans exactly its
      box, and the style can be read back from the shape. */
  function DrawDot(x: real, y: real, size: real, style: MarkStyle): (s: Shape)
    ensures StyleOf(s) == style
    ensures Bounds(s) == Box(x, y, size, size)
    ensures 0.0 <= size <==> WellFormed(s)
  {
    var box := Box(x, y, size, size);
    match style
    case Circle => Disk(Point(x + size / 2.0, y + size / 2.0), size / 2.0)
    case Rounded => RoundedRect(box, size * 0.3)
    case Diamond => Rhombus(box)
    case Leaf => Teardrop(box)
    case Square => Rect(box)
  }

  /** The geometry each style promises: the disk is centred in the box with radius size/2,
      the rounded corner radius is 0.3·size, the diamond's vertices are the edge midpoints,
      the leaf runs bottom-left, top-middle, bottom-right and back. */
  lemma {:induction false} DotGeometry(x: real, y: real, size: real, style: MarkStyle)
    ensures style == Circle ==>
      DrawDot(x, y, size, style).center == Box(x, y, size, size).Center()
      && DrawDot(x, y, size, style).radius == size / 2.0
    ensures style == Rounded ==> DrawDot(x, y, size, style).radius == 3.0 * size / 10.0
    ensures style == Diamond ==>
      Outline(DrawDot(x, y, size, style)).Anchors() == [
        Point(x + size / 2.0, y), Point(x + size, y + size / 2.0),
        Point(x + size / 2.0, y + size), Point(x, y + size / 2.0)]
    ensures style == Leaf ==>
      Outline(DrawDot(x, y, size, style)).Anchors() == [
        Point(x, y + size), Point(x + size / 2.0, y), Point(x + size, y + size), Point(x, y + size)]
    ensures style == Square ==> DrawDot(x, y, size, style) == Rect(Box(x, y, size, size))
  {
    var s := DrawDot(x, y, size, style);
    if style == Diamond {
      assert s == Rhombus(Box(x, y, size, size));
    } else if style == Leaf {
      assert s == Teardrop(Box(x, y, size, size));
    }
  }

  /** A mark with a non-negative side stays within its box, whatever the style. */
  lemma {:induction false} DotWithinBox(x: real, y: real, size: real, style: MarkStyle)
    requires 0.0 <= size
    ensures Bounds(DrawDot(x, y, size, style)).Inside(Box(x, y, size, size))
    ensures !DrawDot(x, y, size, style).Disk? ==>
      Outline(DrawDot(x, y, size, style)).Within(Box(x, y, size, size))
  {
    var s := DrawDot(x, y, size, style);
    if !s.Disk? {
      OutlineWithinBounds(s);
    }
  }

  /** The diamond is reachable only as a data-dot style and the leaf only as an eye style. */
  lemma StyleFamilies(x: real, y: real, size: real, d: DotStyle, e: EyeStyle)
    ensures !DrawDot(x, y, size, d).Teardrop?
    ensures !DrawDot(x, y, size, e).Rhombus?
  {
  }
}
