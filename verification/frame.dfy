/**
  The decorations drawn over the finished symbol: the border stroke and the frame
  (drawFrame) with its optional label.
 */
module Frame {
  import opened Config
  import opened Geometry
  import opened Canvas

  /** `frameWidth`: the band thickness. */
  const Band: real := 40.0

  /** Corner radius of the rounded frame's clip. */
  const ClipRadius: real := 20.0

  /** The four bands along the top, bottom, left and right edges of a W×H surface. */
  function Bands(w: real, h: real, color: string): seq<DrawOp> {
    [ DrawOp(FrameLayer, FillShape(Rect(Box(0.0, 0.0, w, Band)), Solid(color))),
      DrawOp(FrameLayer, FillShape(Rect(Box(0.0, h - Band, w, Band)), Solid(color))),
      DrawOp(FrameLayer, FillShape(Rect(Box(0.0, 0.0, Band, h)), Solid(color))),
      DrawOp(FrameLayer, FillShape(Rect(Box(w - Band, 0.0, Band, h)), Solid(color))) ]
  }

  /** The label, white 16px Arial centred at (W/2, Band/2 + 6), only when it is non-empty. */
  function Label(text: string, w: real): seq<DrawOp> {
    if text != "" then [DrawOp(FrameLayer, FillText(text, Point(w / 2.0, Band / 2.0 + 6.0), "#ffffff", "16px Arial"))]
    else []
  }

  /** drawFrame(ctx, width, height) for the configured style, colour and label. */
  function DrawFrame(style: FrameStyle, color: string, text: string, width: nat, height: nat): (ops: seq<DrawOp>)
    ensures AllOfRank(ops, Rank(FrameLayer))
  {
    var w, h := width as real, height as real;
    var body :=
      match style
      case SquareFrame => Bands(w, h, color)
      case RoundedFrame =>
        [DrawOp(FrameLayer, PushClip(RoundedRect(Box(0.0, 0.0, w, h), ClipRadius)))]
        + Bands(w, h, color)
        + [DrawOp(FrameLayer, PopClip)]
      case CircleFrame =>
        [ DrawOp(FrameLayer, FillShape(Disk(Point(w / 2.0, Band / 2.0), Band / 2.0), Solid(color))),
          DrawOp(FrameLayer, FillShape(Disk(Point(w / 2.0, h - Band / 2.0), Band / 2.0), Solid(color))) ]
      case NoFrame => [];
    body + Label(text, w)
  }

  /** The border: when its width is positive, one stroke of the configured colour and width
      around the whole surface, rounded exactly when a radius is set; otherwise nothing. */
  function DrawBorder(c: StyleConfig, width: nat, height: nat): (ops: seq<DrawOp>)
    ensures AllOfRank(ops, Rank(BorderLayer))
    ensures |ops| == (if c.borderWidth > 0.0 then 1 else 0)
    ensures c.borderWidth > 0.0 ==>
      var cmd := ops[0].cmd;
      && cmd.StrokeShape? && cmd.color == c.borderColor && cmd.lineWidth == c.borderWidth
      && Bounds(cmd.shape) == Box(0.0, 0.0, width as real, height as real)
      && (cmd.shape.RoundedRect? <==> c.borderRadius > 0.0)
  {
    var whole := Box(0.0, 0.0, width as real, height as real);
    if c.borderWidth > 0.0 then
      var outline := if c.borderRadius > 0.0 then RoundedRect(whole, c.borderRadius) else Rect(whole);
      [DrawOp(BorderLayer, StrokeShape(outline, c.borderColor, c.borderWidth))]
    else []
  }

  /** Some band of the operations paints the pixel at `p`. */
  predicate Painted(ops: seq<DrawOp>, p: Point) {
    exists i :: 0 <= i < |ops| && ops[i].cmd.FillShape? && ops[i].cmd.shape.Rect?
      && ops[i].cmd.shape.box.Covers(p)
  }

  /** The square frame's bands paint exactly the pixels within 40 of an edge. */
  lemma {:induction false} BandsPaintRing(w: real, h: real, color: string, p: Point)
    requires 0.0 <= p.x < w && 0.0 <= p.y < h
    ensures Painted(Bands(w, h, color), p) <==>
      p.x < Band || p.y < Band || w - Band <= p.x || h - Band <= p.y
  {
    var b := Bands(w, h, color);
    if p.y < Band {
      assert b[0].cmd.shape.box.Covers(p);
    } else if h - Band <= p.y {
      assert b[1].cmd.shape.box.Covers(p);
    } else if p.x < Band {
      assert b[2].cmd.shape.box.Covers(p);
    } else if w - Band <= p.x {
      assert b[3].cmd.shape.box.Covers(p);
    }
  }

  /** Square and rounded frames paint the same four bands, the rounded one inside a clip of
      radius 20 over the whole surface; the circle frame paints two disks of radius 20
      centred on the top and bottom edges' midlines, touching those edges. */
  lemma {:induction false} FrameGeometry(style: FrameStyle, color: string, text: string, width: nat, height: nat)
    ensures var ops := DrawFrame(style, color, text, width, height);
      var w, h := width as real, height as real;
      && (style == SquareFrame ==> ops[..4] == Bands(w, h, color))
      && (style == RoundedFrame ==>
            ops[0].cmd == PushClip(RoundedRect(Box(0.0, 0.0, w, h), 20.0))
            && ops[1..5] == Bands(w, h, color) && ops[5].cmd == PopClip)
      && (style == CircleFrame ==>
            && ops[0].cmd.shape == Disk(Point(w / 2.0, 20.0), 20.0)
            && ops[1].cmd.shape == Disk(Point(w / 2.0, h - 20.0), 20.0)
            && Bounds(ops[0].cmd.shape).y == 0.0
            && Bounds(ops[1].cmd.shape).y + Bounds(ops[1].cmd.shape).h == h)
  {
  }

  /** The label is drawn, last and in white at (W/2, 26), exactly when it is non-empty. */
  lemma {:induction false} FrameLabel(style: FrameStyle, color: string, text: string, width: nat, height: nat)
    ensures var ops := DrawFrame(style, color, text, width, height);
      (exists i :: 0 <= i < |ops| && ops[i].cmd.FillText?) <==> text != ""
    ensures var ops := DrawFrame(style, color, text, width, height);
      text != "" ==> ops[|ops| - 1].cmd == FillText(text, Point(width as real / 2.0, 26.0), "#ffffff", "16px Arial")
  {
    var ops := DrawFrame(style, color, text, width, height);
    var w := width as real;
    var body := ops[..|ops| - |Label(text, w)|];
    assert ops == body + Label(text, w);
    assert forall i :: 0 <= i < |body| ==> !body[i].cmd.FillText?;
    if text != "" {
      assert ops[|ops| - 1].cmd.FillText?;
    }
  }

  /** The stroked path runs along the surface's edge: without a radius it visits the four
      corners, and with corners that fit (radius at most half of each side) it never leaves
      the surface. */
  lemma {:induction false} BorderPath(c: StyleConfig, width: nat, height: nat)
    ensures var ops := DrawBorder(c, width, height);
      forall i :: 0 <= i < |ops| ==>
        var shape := ops[i].cmd.shape;
        var w, h := width as real, height as real;
        && !shape.Disk?
        && (c.borderRadius <= 0.0 ==>
              Outline(shape).Anchors() == [Point(0.0, 0.0), Point(w, 0.0), Point(w, h), Point(0.0, h)])
        && (2.0 * c.borderRadius <= w && 2.0 * c.borderRadius <= h ==>
              Outline(shape).Within(Box(0.0, 0.0, w, h)))
  {
    var ops := DrawBorder(c, width, height);
    if |ops| > 0 {
      var shape := ops[0].cmd.shape;
      assert WellFormed(shape) ==> Outline(shape).Within(Bounds(shape)) by {
        if WellFormed(shape) {
          OutlineWithinBounds(shape);
        }
      }
    }
  }
}
