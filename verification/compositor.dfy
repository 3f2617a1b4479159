/**
  The compositor (drawCustomQR): turns a configuration and a module matrix into the
  sized surface and its ordered draw operations. Steps, bottom to top: background fill,
  background image, the gradient (when enabled), one mark per dark module, logo with its
  white backing, border, frame.
 */
module Compositor {
  import opened Config
  import opened Geometry
  import opened Canvas
  import opened Shapes
  import opened Eyes
  import opened Grid
  import opened Frame

  // ---------------------------------------------------------------------------
  // Cell geometry
  // ---------------------------------------------------------------------------

  /** `cellSize = config.size / size` */
  function CellSize(c: StyleConfig, n: nat): real
    requires n > 0
  {
    c.size / n as real
  }

  /** The area the symbol occupies: (padding, padding, size, size). */
  function Region(c: StyleConfig): Box {
    Box(c.padding, c.padding, c.size, c.size)
  }

  /** The full cell of the module at column x, row y. */
  function CellBox(c: StyleConfig, n: nat, x: nat, y: nat): Box
    requires n > 0
  {
    var cell := CellSize(c, n);
    Box(c.padding + x as real * cell, c.padding + y as real * cell, cell, cell)
  }

  /** The box a mark is drawn in: the cell shrunk by `dotPadding` on every side
      (`cellX`, `cellY`, `dotSize`). */
  function MarkBox(c: StyleConfig, n: nat, x: nat, y: nat): Box
    requires n > 0
  {
    var cell := CellSize(c, n);
    Box(c.padding + x as real * cell + c.dotPadding, c.padding + y as real * cell + c.dotPadding,
        cell - c.dotPadding * 2.0, cell - c.dotPadding * 2.0)
  }

  /** A module inside an eye block uses the eye style, any other module the dot style. */
  function StyleAt(c: StyleConfig, n: nat, x: nat, y: nat): MarkStyle {
    if IsEye(x, y, n) then c.eyeStyle else c.dotStyle
  }

  /** The mark drawn for a dark module. */
  function MarkShape(c: StyleConfig, n: nat, x: nat, y: nat): Shape
    requires n > 0
  {
    var b := MarkBox(c, n, x, y);
    DrawDot(b.x, b.y, b.w, StyleAt(c, n, x, y))
  }

  lemma MulMono(a: real, b: real, k: real)
    requires a <= b && 0.0 <= k
    ensures a * k <= b * k
  {
  }

  /** The mark box is the cell shrunk evenly: same centre, side reduced by 2·dotPadding.
      With 0 <= dotPadding <= cell/2 it lies within its cell, and strictly inside when
      0 < dotPadding < cell/2. */
  lemma {:induction false} MarkInCell(c: StyleConfig, n: nat, x: nat, y: nat)
    requires n > 0 && x < n && y < n
    ensures MarkBox(c, n, x, y).Center() == CellBox(c, n, x, y).Center()
    ensures MarkBox(c, n, x, y).w == MarkBox(c, n, x, y).h == CellBox(c, n, x, y).w - 2.0 * c.dotPadding
    ensures 0.0 <= c.dotPadding && 2.0 * c.dotPadding <= CellSize(c, n) ==>
      MarkBox(c, n, x, y).Inside(CellBox(c, n, x, y))
    ensures 0.0 < c.dotPadding && 2.0 * c.dotPadding < CellSize(c, n) ==>
      MarkBox(c, n, x, y).StrictlyInside(CellBox(c, n, x, y))
  {
    var cell := CellSize(c, n);
    var ox, oy := c.padding + x as real * cell, c.padding + y as real * cell;
    assert CellBox(c, n, x, y) == Box(ox, oy, cell, cell);
    assert MarkBox(c, n, x, y) == Box(ox + c.dotPadding, oy + c.dotPadding, cell - c.dotPadding * 2.0, cell - c.dotPadding * 2.0);
  }

  /** The cells tile the symbol's region: each lies within it, and neighbouring cells share
      an edge. */
  lemma {:induction false} CellsTileRegion(c: StyleConfig, n: nat, x: nat, y: nat)
    requires n > 0 && x < n && y < n
    ensures 0.0 <= c.size ==> CellBox(c, n, x, y).Inside(Region(c))
    ensures CellBox(c, n, x + 1, y).x == CellBox(c, n, x, y).x + CellBox(c, n, x, y).w
    ensures CellBox(c, n, x, y + 1).y == CellBox(c, n, x, y).y + CellBox(c, n, x, y).h
  {
    var cell := CellSize(c, n);
    var xr, yr, nr := x as real, y as real, n as real;
    assert nr * cell == c.size;
    assert (x + 1) as real == xr + 1.0 && (y + 1) as real == yr + 1.0;
    assert (xr + 1.0) * cell == xr * cell + cell;
    assert (yr + 1.0) * cell == yr * cell + cell;
    if 0.0 <= c.size {
      CellWithin(xr, nr, cell, c.size);
      CellWithin(yr, nr, cell, c.size);
    }
  }

  /** The cell with index i (0 <= i < n) of side size/n spans [i·cell, i·cell + cell] within [0, size]. */
  lemma CellWithin(i: real, n: real, cell: real, size: real)
    requires 0.0 <= i && i + 1.0 <= n && 0.0 <= cell && n * cell == size
    ensures 0.0 <= i * cell && i * cell + cell <= size
  {
    MulMono(0.0, i, cell);
    MulMono(i + 1.0, n, cell);
  }

  // ---------------------------------------------------------------------------
  // The module scan
  // ---------------------------------------------------------------------------

  /** The operation drawn for a dark module at (x, y). */
  predicate IsMarkOp(c: StyleConfig, m: QrMatrix, paint: Paint, op: DrawOp) {
    && op.layer.Module?
    && op.layer.x < |m| && op.layer.y < |m|
    && m[op.layer.x][op.layer.y]
    && op.cmd == FillShape(MarkShape(c, |m|, op.layer.x, op.layer.y), paint)
  }

  /** Scan order between two mark layers: an earlier row, or the same row further left. */
  predicate Before(a: Layer, b: Layer) {
    a.Module? && b.Module? && (a.y < b.y || (a.y == b.y && a.x < b.x))
  }

  predicate ScanOrdered(ops: seq<DrawOp>) {
    forall i, j :: 0 <= i < j < |ops| ==> Before(ops[i].layer, ops[j].layer)
  }

  predicate HasLayer(ops: seq<DrawOp>, l: Layer) {
    exists i :: 0 <= i < |ops| && ops[i].layer == l
  }

  lemma HasLayerAppend(a: seq<DrawOp>, b: seq<DrawOp>, l: Layer)
    ensures HasLayer(a + b, l) <==> HasLayer(a, l) || HasLayer(b, l)
  {
    if HasLayer(a + b, l) {
      var i :| 0 <= i < |a + b| && (a + b)[i].layer == l;
      if i >= |a| {
        assert b[i - |a|].layer == l;
      } else {
        assert a[i].layer == l;
      }
    }
    if HasLayer(a, l) {
      var i :| 0 <= i < |a| && a[i].layer == l;
      assert (a + b)[i] == a[i];
    }
    if HasLayer(b, l) {
      var i :| 0 <= i < |b| && b[i].layer == l;
      assert (a + b)[|a| + i] == b[i];
    }
  }

  /** The operation drawn for the module at (x, y). */
  function MarkOp(c: StyleConfig, m: QrMatrix, paint: Paint, x: nat, y: nat): DrawOp {
    DrawOp(Module(x, y), FillShape(MarkShape(c, |m|, x, y), paint))
  }

  /** The inner loop: row y of the picture, columns x0 to n-1, reading `modules.get(x, y)`.
      It emits one mark per dark module of the row, left to right, and nothing else. */
  function ScanRow(c: StyleConfig, m: QrMatrix, paint: Paint, y: nat, x0: nat): (ops: seq<DrawOp>)
    requires y < |m| && x0 <= |m|
    ensures forall i :: 0 <= i < |ops| ==>
      IsMarkOp(c, m, paint, ops[i]) && ops[i].layer.y == y && x0 <= ops[i].layer.x
    ensures |ops| == RowDark(m, y, x0)
    decreases |m| - x0
  {
    if x0 == |m| then []
    else (if m[x0][y] then [MarkOp(c, m, paint, x0, y)] else []) + ScanRow(c, m, paint, y, x0 + 1)
  }

  lemma {:induction false} ScanRowOrdered(c: StyleConfig, m: QrMatrix, paint: Paint, y: nat, x0: nat)
    requires y < |m| && x0 <= |m|
    ensures ScanOrdered(ScanRow(c, m, paint, y, x0))
    decreases |m| - x0
  {
    if x0 < |m| {
      ScanRowOrdered(c, m, paint, y, x0 + 1);
    }
  }

  /** Row y holds a mark at column x exactly when that module is dark. */
  lemma {:induction false} ScanRowHits(c: StyleConfig, m: QrMatrix, paint: Paint, y: nat, x0: nat, x: nat)
    requires y < |m| && x0 <= x < |m|
    ensures m[x][y] <==> HasLayer(ScanRow(c, m, paint, y, x0), Module(x, y))
    decreases |m| - x0
  {
    var here := if m[x0][y] then [MarkOp(c, m, paint, x0, y)] else [];
    var rest := ScanRow(c, m, paint, y, x0 + 1);
    HasLayerAppend(here, rest, Module(x, y));
    if x == x0 {
      assert !HasLayer(rest, Module(x, y));
      if m[x][y] {
        assert here[0].layer == Module(x, y);
      }
    } else {
      ScanRowHits(c, m, paint, y, x0 + 1, x);
    }
  }

  /** The outer loop: rows y0 to n-1. */
  function ScanRows(c: StyleConfig, m: QrMatrix, paint: Paint, y0: nat): (ops: seq<DrawOp>)
    requires y0 <= |m|
    ensures forall i :: 0 <= i < |ops| ==> IsMarkOp(c, m, paint, ops[i]) && y0 <= ops[i].layer.y
    ensures |ops| == ScanDark(m, y0)
    decreases |m| - y0
  {
    if y0 == |m| then []
    else ScanRow(c, m, paint, y0, 0) + ScanRows(c, m, paint, y0 + 1)
  }

  /** The marks come row by row, left to right within a row. */
  lemma {:induction false} ScanRowsOrdered(c: StyleConfig, m: QrMatrix, paint: Paint, y0: nat)
    requires y0 <= |m|
    ensures ScanOrdered(ScanRows(c, m, paint, y0))
    decreases |m| - y0
  {
    if y0 < |m| {
      ScanRowOrdered(c, m, paint, y0, 0);
      ScanRowsOrdered(c, m, paint, y0 + 1);
    }
  }

  /** Rows y0 to n-1 hold one mark per dark module and none for a light module. */
  lemma {:induction false} ScanRowsHits(c: StyleConfig, m: QrMatrix, paint: Paint, y0: nat, x: nat, y: nat)
    requires x < |m| && y0 <= y < |m|
    ensures m[x][y] <==> HasLayer(ScanRows(c, m, paint, y0), Module(x, y))
    decreases |m| - y0
  {
    var row := ScanRow(c, m, paint, y0, 0);
    var rest := ScanRows(c, m, paint, y0 + 1);
    HasLayerAppend(row, rest, Module(x, y));
    if y == y0 {
      ScanRowHits(c, m, paint, y0, 0, x);
      assert !HasLayer(rest, Module(x, y));
    } else {
      ScanRowsHits(c, m, paint, y0 + 1, x, y);
      assert !HasLayer(row, Module(x, y));
    }
  }

  // ---------------------------------------------------------------------------
  // The compositor
  // ---------------------------------------------------------------------------

  /** `canvas.width = config.size + config.padding * 2`, as stored by the canvas. */
  function SurfaceWidth(c: StyleConfig): nat {
    CanvasDimension(c.size + c.padding * 2.0, 300)
  }

  /** `canvas.height`, set to the same value. */
  function SurfaceHeight(c: StyleConfig): nat {
    CanvasDimension(c.size + c.padding * 2.0, 150)
  }

  /** The module fill: the foreground colour, or the diagonal gradient across the surface. */
  function ModulePaint(c: StyleConfig, width: nat, height: nat): Paint {
    if c.gradientEnabled then
      LinearGradient(Point(0.0, 0.0), c.foregroundColor, Point(width as real, height as real), c.gradientColor)
    else Solid(c.foregroundColor)
  }

  function BackdropOps(c: StyleConfig, width: nat, height: nat): seq<DrawOp> {
    [DrawOp(Backdrop, FillShape(Rect(Box(0.0, 0.0, width as real, height as real)), Solid(c.backgroundColor)))]
  }

  function BackdropImageOps(c: StyleConfig, hasBackground: bool): seq<DrawOp> {
    if hasBackground then
      [DrawOp(BackdropImage, DrawImage(BackgroundAsset, Region(c), GlobalAlpha(c.backgroundImageOpacity / 100.0)))]
    else []
  }

  /** With the gradient on, `createLinearGradient(0, 0, width, height)` and its two colour
      stops, the foreground colour at 0 and the gradient colour at 1. */
  function GradientOps(c: StyleConfig, width: nat, height: nat): seq<DrawOp> {
    if c.gradientEnabled then
      [DrawOp(GradientSetup, CreateGradient(Point(0.0, 0.0), c.foregroundColor,
                                            Point(width as real, height as real), c.gradientColor))]
    else []
  }

  /** `logoSize = config.size * config.logoSize / 100`, centred in the region. */
  function LogoBox(c: StyleConfig): Box {
    var side := c.size * c.logoSize / 100.0;
    Box(c.padding + (c.size - side) / 2.0, c.padding + (c.size - side) / 2.0, side, side)
  }

  function LogoOps(c: StyleConfig, hasLogo: bool): seq<DrawOp> {
    if hasLogo then
      var b := LogoBox(c);
      [ DrawOp(LogoLayer, FillShape(Rect(Box(b.x - 5.0, b.y - 5.0, b.w + 10.0, b.h + 10.0)), Solid("#ffffff"))),
        DrawOp(LogoLayer, DrawImage(LogoAsset, b, GlobalAlpha(c.logoOpacity / 100.0))) ]
    else []
  }

  function FrameOps(c: StyleConfig, width: nat, height: nat): seq<DrawOp> {
    if c.frameStyle != NoFrame then DrawFrame(c.frameStyle, c.frameColor, c.frameText, width, height)
    else []
  }

  /** The background fill and the background image. */
  function Backdrops(c: StyleConfig, hasBackground: bool): seq<DrawOp> {
    BackdropOps(c, SurfaceWidth(c), SurfaceHeight(c)) + BackdropImageOps(c, hasBackground)
  }

  /** The steps before the scan: the backdrops, then the gradient's setup. */
  function PreScan(c: StyleConfig, hasBackground: bool): seq<DrawOp> {
    Backdrops(c, hasBackground) + GradientOps(c, SurfaceWidth(c), SurfaceHeight(c))
  }

  /** The scan: one mark per dark module, row by row. */
  function Marks(c: StyleConfig, m: QrMatrix): seq<DrawOp> {
    ScanRows(c, m, ModulePaint(c, SurfaceWidth(c), SurfaceHeight(c)), 0)
  }

  /** The steps after the scan: the logo, the border, the frame. */
  function PostScan(c: StyleConfig, hasLogo: bool): seq<DrawOp> {
    var w, h := SurfaceWidth(c), SurfaceHeight(c);
    LogoOps(c, hasLogo) + DrawBorder(c, w, h) + FrameOps(c, w, h)
  }

  /** drawCustomQR after a successful encode: the surface size and every draw operation. */
  function Render(c: StyleConfig, m: QrMatrix, hasLogo: bool, hasBackground: bool): (s: Surface)
    ensures s.width == SurfaceWidth(c) && s.height == SurfaceHeight(c)
    ensures |s.ops| > 0 && s.ops[0] ==
      DrawOp(Backdrop, FillShape(Rect(Box(0.0, 0.0, s.width as real, s.height as real)), Solid(c.backgroundColor)))
  {
    Surface(SurfaceWidth(c), SurfaceHeight(c), PreScan(c, hasBackground) + Marks(c, m) + PostScan(c, hasLogo))
  }

  /** The surface is (size + 2·padding) square whatever the matrix, for whole, in-range sizes. */
  lemma {:induction false} SurfaceSize(c: StyleConfig, m: QrMatrix, m': QrMatrix, hasLogo: bool, hasBackground: bool)
    requires var v := c.size + c.padding * 2.0; 0.0 <= v && v == v.Floor as real && v.Floor <= MaxReflected
    ensures Render(c, m, hasLogo, hasBackground).width as real == c.size + 2.0 * c.padding
    ensures Render(c, m, hasLogo, hasBackground).height as real == c.size + 2.0 * c.padding
    ensures Render(c, m, hasLogo, hasBackground).width == Render(c, m', hasLogo, hasBackground).width
  {
    CanvasDimensionCases(c.size + c.padding * 2.0, 300);
    CanvasDimensionCases(c.size + c.padding * 2.0, 150);
  }

  /** The steps before the scan are ordered and stay below the marks' rank. */
  lemma {:induction false} PreScanOrdered(c: StyleConfig, hasBackground: bool)
    ensures LayersOrdered(PreScan(c, hasBackground))
    ensures forall i :: 0 <= i < |PreScan(c, hasBackground)| ==> Rank(PreScan(c, hasBackground)[i].layer) <= 2
  {
    var w, h := SurfaceWidth(c), SurfaceHeight(c);
    var a, b, k := BackdropOps(c, w, h), BackdropImageOps(c, hasBackground), GradientOps(c, w, h);
    OrderedAppend(a, b, 1);
    OrderedAppend(a + b, k, 2);
  }

  /** The steps after the scan are ordered and stay above the marks' rank. */
  lemma {:induction false} PostScanOrdered(c: StyleConfig, hasLogo: bool)
    ensures LayersOrdered(PostScan(c, hasLogo))
    ensures forall i :: 0 <= i < |PostScan(c, hasLogo)| ==> 4 <= Rank(PostScan(c, hasLogo)[i].layer)
  {
    var w, h := SurfaceWidth(c), SurfaceHeight(c);
    var e, f, g := LogoOps(c, hasLogo), DrawBorder(c, w, h), FrameOps(c, w, h);
    OrderedAppend(e, f, 5);
    OrderedAppend(e + f, g, 6);
    forall i | 0 <= i < |e + f + g|
      ensures 4 <= Rank((e + f + g)[i].layer)
    {
      InParts(e, f, g, i);
    }
  }

  /** Draw order: background, background image, gradient, marks, logo, border, frame; the
      operations never go back to a lower layer. */
  lemma {:induction false} RenderLayersOrdered(c: StyleConfig, m: QrMatrix, hasLogo: bool, hasBackground: bool)
    ensures LayersOrdered(Render(c, m, hasLogo, hasBackground).ops)
  {
    var p, d, q := PreScan(c, hasBackground), Marks(c, m), PostScan(c, hasLogo);
    PreScanOrdered(c, hasBackground);
    PostScanOrdered(c, hasLogo);
    assert AllOfRank(d, 3);
    OrderedAppend(p, d, 3);
    OrderedJoin(p + d, q, 3);
  }

  /** A layer other than a mark occurs among operations all of one rank exactly when there
      are some and the rank is its own. */
  lemma HasLayerOfRank(ops: seq<DrawOp>, r: nat, l: Layer)
    requires AllOfRank(ops, r) && !l.Module?
    ensures HasLayer(ops, l) <==> |ops| > 0 && Rank(l) == r
  {
    if |ops| > 0 && Rank(l) == r {
      assert ops[0].layer == l;
    }
  }

  /** Where a non-mark layer can occur among the steps before the scan. */
  lemma {:induction false} PreStepsHaveLayer(a: seq<DrawOp>, b: seq<DrawOp>, k: seq<DrawOp>, l: Layer)
    requires AllOfRank(a, 0) && AllOfRank(b, 1) && AllOfRank(k, 2)
    requires !l.Module?
    ensures HasLayer(a + b + k, l) <==>
      (|a| > 0 && Rank(l) == 0) || (|b| > 0 && Rank(l) == 1) || (|k| > 0 && Rank(l) == 2)
  {
    HasLayerAppend(a + b, k, l);
    HasLayerAppend(a, b, l);
    HasLayerOfRank(a, 0, l);
    HasLayerOfRank(b, 1, l);
    HasLayerOfRank(k, 2, l);
  }

  /** Where a non-mark layer can occur among the steps after the scan. */
  lemma {:induction false} PostStepsHaveLayer(e: seq<DrawOp>, f: seq<DrawOp>, g: seq<DrawOp>, l: Layer)
    requires AllOfRank(e, 4) && AllOfRank(f, 5) && AllOfRank(g, 6)
    requires !l.Module?
    ensures HasLayer(e + f + g, l) <==>
      (|e| > 0 && Rank(l) == 4) || (|f| > 0 && Rank(l) == 5) || (|g| > 0 && Rank(l) == 6)
  {
    HasLayerAppend(e + f, g, l);
    HasLayerAppend(e, f, l);
    HasLayerOfRank(e, 4, l);
    HasLayerOfRank(f, 5, l);
    HasLayerOfRank(g, 6, l);
  }

  /** The layers other than marks that occur before the scan: the background fill always,
      the background image iff one is loaded, the gradient's setup iff it is enabled. */
  lemma {:induction false} PreScanLayers(c: StyleConfig, hasBackground: bool, l: Layer)
    requires !l.Module?
    ensures HasLayer(PreScan(c, hasBackground), l) <==>
      l == Backdrop || (hasBackground && l == BackdropImage) || (c.gradientEnabled && l == GradientSetup)
  {
    var w, h := SurfaceWidth(c), SurfaceHeight(c);
    PreStepsHaveLayer(BackdropOps(c, w, h), BackdropImageOps(c, hasBackground), GradientOps(c, w, h), l);
  }

  /** The layers that occur after the scan: the logo iff one is loaded, the border iff its
      width is positive, the frame iff its style is not none. */
  lemma {:induction false} PostScanLayers(c: StyleConfig, hasLogo: bool, l: Layer)
    requires !l.Module?
    ensures HasLayer(PostScan(c, hasLogo), l) <==>
      || (hasLogo && l == LogoLayer)
      || (c.borderWidth > 0.0 && l == BorderLayer)
      || (c.frameStyle != NoFrame && l == FrameLayer)
  {
    var w, h := SurfaceWidth(c), SurfaceHeight(c);
    var e, f, g := LogoOps(c, hasLogo), DrawBorder(c, w, h), FrameOps(c, w, h);
    PostStepsHaveLayer(e, f, g, l);
    assert |e| > 0 <==> hasLogo;
    assert |g| > 0 <==> c.frameStyle != NoFrame;
  }

  /** A layer other than a mark occurs in a render exactly when it occurs before or after
      the scan. */
  lemma {:induction false} RenderHasLayer(c: StyleConfig, m: QrMatrix, hasLogo: bool, hasBackground: bool, l: Layer)
    requires !l.Module?
    ensures HasLayer(Render(c, m, hasLogo, hasBackground).ops, l) <==>
      HasLayer(PreScan(c, hasBackground), l) || HasLayer(PostScan(c, hasLogo), l)
  {
    var p, d, q := PreScan(c, hasBackground), Marks(c, m), PostScan(c, hasLogo);
    HasLayerAppend(p + d, q, l);
    HasLayerAppend(p, d, l);
    HasLayerOfRank(d, 3, l);
  }

  /** Which optional steps run: the background image iff one is loaded, the gradient iff it
      is enabled, the logo iff one is loaded, the border iff its width is positive, the frame
      iff its style is not none. */
  lemma {:induction false} RenderSteps(c: StyleConfig, m: QrMatrix, hasLogo: bool, hasBackground: bool)
    ensures var ops := Render(c, m, hasLogo, hasBackground).ops;
      && (HasLayer(ops, BackdropImage) <==> hasBackground)
      && (HasLayer(ops, GradientSetup) <==> c.gradientEnabled)
      && (HasLayer(ops, LogoLayer) <==> hasLogo)
      && (HasLayer(ops, BorderLayer) <==> c.borderWidth > 0.0)
      && (HasLayer(ops, FrameLayer) <==> c.frameStyle != NoFrame)
  {
    RenderHasLayer(c, m, hasLogo, hasBackground, BackdropImage);
    RenderHasLayer(c, m, hasLogo, hasBackground, GradientSetup);
    RenderHasLayer(c, m, hasLogo, hasBackground, LogoLayer);
    RenderHasLayer(c, m, hasLogo, hasBackground, BorderLayer);
    RenderHasLayer(c, m, hasLogo, hasBackground, FrameLayer);
    PreScanSteps(c, hasBackground);
    PostScanSteps(c, hasLogo);
  }

  lemma {:induction false} PreScanSteps(c: StyleConfig, hasBackground: bool)
    ensures var p := PreScan(c, hasBackground);
      && (HasLayer(p, BackdropImage) <==> hasBackground)
      && (HasLayer(p, GradientSetup) <==> c.gradientEnabled)
      && !HasLayer(p, LogoLayer) && !HasLayer(p, BorderLayer) && !HasLayer(p, FrameLayer)
  {
    PreScanLayers(c, hasBackground, BackdropImage);
    PreScanLayers(c, hasBackground, GradientSetup);
    PreScanLayers(c, hasBackground, LogoLayer);
    PreScanLayers(c, hasBackground, BorderLayer);
    PreScanLayers(c, hasBackground, FrameLayer);
  }

  lemma {:induction false} PostScanSteps(c: StyleConfig, hasLogo: bool)
    ensures var q := PostScan(c, hasLogo);
      && !HasLayer(q, BackdropImage) && !HasLayer(q, GradientSetup)
      && (HasLayer(q, LogoLayer) <==> hasLogo)
      && (HasLayer(q, BorderLayer) <==> c.borderWidth > 0.0)
      && (HasLayer(q, FrameLayer) <==> c.frameStyle != NoFrame)
  {
    PostScanLayers(c, hasLogo, BackdropImage);
    PostScanLayers(c, hasLogo, GradientSetup);
    PostScanLayers(c, hasLogo, LogoLayer);
    PostScanLayers(c, hasLogo, BorderLayer);
    PostScanLayers(c, hasLogo, FrameLayer);
  }

  predicate NoMarks(ops: seq<DrawOp>) {
    forall i :: 0 <= i < |ops| ==> !ops[i].layer.Module?
  }

  predicate NoThrows(ops: seq<DrawOp>, parses: ColorParser) {
    forall i :: 0 <= i < |ops| ==> !Throws(ops[i].cmd, parses)
  }

  /** No operation is the gradient's setup. */
  predicate NoSetup(ops: seq<DrawOp>) {
    forall i :: 0 <= i < |ops| ==> !ops[i].layer.GradientSetup?
  }

  /** Where the i-th operation of three concatenated runs comes from. */
  lemma InParts(p: seq<DrawOp>, d: seq<DrawOp>, q: seq<DrawOp>, i: nat)
    requires i < |p + d + q|
    ensures i < |p| ==> (p + d + q)[i] == p[i]
    ensures |p| <= i < |p| + |d| ==> (p + d + q)[i] == d[i - |p|]
    ensures |p| + |d| <= i ==> (p + d + q)[i] == q[i - |p| - |d|]
  {
  }

  /** Only the scan contributes marks: the operations before and after it hold none. */
  lemma {:induction false} MarksInMiddle(p: seq<DrawOp>, d: seq<DrawOp>, q: seq<DrawOp>)
    requires NoMarks(p) && NoMarks(q)
    ensures forall i :: 0 <= i < |p + d + q| && (p + d + q)[i].layer.Module? ==>
      |p| <= i < |p| + |d| && (p + d + q)[i] == d[i - |p|]
  {
    forall i | 0 <= i < |p + d + q| && (p + d + q)[i].layer.Module?
      ensures |p| <= i < |p| + |d| && (p + d + q)[i] == d[i - |p|]
    {
      InParts(p, d, q, i);
    }
  }

  /** The render's operations split into the steps before the scan, the scan, and the
      steps after it; neither outer part holds a mark. */
  lemma RenderParts(c: StyleConfig, m: QrMatrix, hasLogo: bool, hasBackground: bool)
    ensures Render(c, m, hasLogo, hasBackground).ops == PreScan(c, hasBackground) + Marks(c, m) + PostScan(c, hasLogo)
    ensures NoMarks(PreScan(c, hasBackground)) && NoMarks(PostScan(c, hasLogo))
  {
    var w, h := SurfaceWidth(c), SurfaceHeight(c);
    var a, b, k := BackdropOps(c, w, h), BackdropImageOps(c, hasBackground), GradientOps(c, w, h);
    forall i | 0 <= i < |a + b + k|
      ensures !(a + b + k)[i].layer.Module?
    {
      InParts(a, b, k, i);
    }
    AfterHasNoMarks(c, hasLogo, w, h);
  }

  lemma {:induction false} AfterHasNoMarks(c: StyleConfig, hasLogo: bool, w: nat, h: nat)
    ensures var q := LogoOps(c, hasLogo) + DrawBorder(c, w, h) + FrameOps(c, w, h);
      NoMarks(q) && NoSetup(q)
  {
    var e, f, g := LogoOps(c, hasLogo), DrawBorder(c, w, h), FrameOps(c, w, h);
    assert AllOfRank(g, 6);
    assert AllOfRank(f, 5);
    forall i | 0 <= i < |e + f + g|
      ensures !(e + f + g)[i].layer.Module? && !(e + f + g)[i].layer.GradientSetup?
    {
      InParts(e, f, g, i);
    }
  }

  /** Apart from the marks and the gradient's setup nothing in a render can throw: the
      backdrops and the steps after the scan are safe for every colour parser. */
  lemma {:induction false} QuietParts(c: StyleConfig, hasLogo: bool, hasBackground: bool, parses: ColorParser)
    ensures NoThrows(Backdrops(c, hasBackground), parses) && NoSetup(Backdrops(c, hasBackground))
    ensures NoThrows(PostScan(c, hasLogo), parses) && NoSetup(PostScan(c, hasLogo))
  {
    var w, h := SurfaceWidth(c), SurfaceHeight(c);
    BackdropsQuiet(c, hasBackground, w, h, parses);
    AfterHasNoMarks(c, hasLogo, w, h);
    AfterIsQuiet(c, hasLogo, w, h, parses);
  }

  lemma {:induction false} BackdropsQuiet(c: StyleConfig, hasBackground: bool, w: nat, h: nat, parses: ColorParser)
    ensures var b := BackdropOps(c, w, h) + BackdropImageOps(c, hasBackground);
      NoThrows(b, parses) && NoSetup(b)
  {
    var a, i := BackdropOps(c, w, h), BackdropImageOps(c, hasBackground);
    assert !Throws(a[0].cmd, parses);
    assert hasBackground ==> !Throws(i[0].cmd, parses);
  }

  lemma {:induction false} AfterIsQuiet(c: StyleConfig, hasLogo: bool, w: nat, h: nat, parses: ColorParser)
    ensures NoThrows(LogoOps(c, hasLogo) + DrawBorder(c, w, h) + FrameOps(c, w, h), parses)
  {
    var e, f, g := LogoOps(c, hasLogo), DrawBorder(c, w, h), FrameOps(c, w, h);
    assert NoThrows(g, parses) by {
      if c.frameStyle != NoFrame {
        assert AllOfRank(g, 6);
      }
    }
    forall i | 0 <= i < |e + f + g|
      ensures !Throws((e + f + g)[i].cmd, parses)
    {
      InParts(e, f, g, i);
    }
  }

  /** A dark module gets a mark and a light one gets none. */
  lemma {:induction false} RenderMarkAt(c: StyleConfig, m: QrMatrix, hasLogo: bool, hasBackground: bool, x: nat, y: nat)
    requires x < |m| && y < |m|
    ensures m[x][y] <==> HasLayer(Render(c, m, hasLogo, hasBackground).ops, Module(x, y))
  {
    var w, h := SurfaceWidth(c), SurfaceHeight(c);
    var p, d, q := PreScan(c, hasBackground), Marks(c, m), PostScan(c, hasLogo);
    RenderParts(c, m, hasLogo, hasBackground);
    HasLayerAppend(p + d, q, Module(x, y));
    HasLayerAppend(p, d, Module(x, y));
    ScanRowsHits(c, m, ModulePaint(c, w, h), 0, x, y);
  }

  /** Every mark in the render is the styled shape of a dark module, filled with the module
      paint, and the marks come in scan order: row by row, left to right. */
  lemma {:induction false} RenderMarks(c: StyleConfig, m: QrMatrix, hasLogo: bool, hasBackground: bool)
    ensures var s := Render(c, m, hasLogo, hasBackground);
      forall i :: 0 <= i < |s.ops| && s.ops[i].layer.Module? ==>
        IsMarkOp(c, m, ModulePaint(c, s.width, s.height), s.ops[i])
    ensures var ops := Render(c, m, hasLogo, hasBackground).ops;
      forall i, j :: 0 <= i < j < |ops| && ops[i].layer.Module? && ops[j].layer.Module? ==>
        Before(ops[i].layer, ops[j].layer)
  {
    var w, h := SurfaceWidth(c), SurfaceHeight(c);
    var p, d, q := PreScan(c, hasBackground), Marks(c, m), PostScan(c, hasLogo);
    RenderParts(c, m, hasLogo, hasBackground);
    MarksInMiddle(p, d, q);
    ScanRowsOrdered(c, m, ModulePaint(c, w, h), 0);
  }

  /** The render draws exactly as many marks as the matrix has dark modules. */
  lemma {:induction false} RenderMarkCount(c: StyleConfig, m: QrMatrix, hasLogo: bool, hasBackground: bool)
    ensures MarkCount(Render(c, m, hasLogo, hasBackground).ops) == CellCount(m)
  {
    var w, h := SurfaceWidth(c), SurfaceHeight(c);
    var p, d, q := PreScan(c, hasBackground), Marks(c, m), PostScan(c, hasLogo);
    RenderParts(c, m, hasLogo, hasBackground);
    MarkCountAppend(p + d, q);
    MarkCountAppend(p, d);
    MarkCountNone(p);
    MarkCountNone(q);
    MarkCountAll(d);
    ScanDarkIsCellCount(m);
  }

  /** Each mark's style is the eye style inside the three corner blocks and the dot style
      elsewhere; every mark shares one fill, the foreground colour or, with the gradient on,
      the gradient along the surface diagonal from the foreground to the gradient colour. */
  lemma {:induction false} RenderMarkStyles(c: StyleConfig, m: QrMatrix, hasLogo: bool, hasBackground: bool, i: nat)
    requires i < |Render(c, m, hasLogo, hasBackground).ops|
    requires Render(c, m, hasLogo, hasBackground).ops[i].layer.Module?
    ensures var s := Render(c, m, hasLogo, hasBackground);
      var op := s.ops[i];
      && op.cmd.FillShape?
      && StyleOf(op.cmd.shape) == (if IsEye(op.layer.x, op.layer.y, |m|) then c.eyeStyle else c.dotStyle)
      && Bounds(op.cmd.shape) == MarkBox(c, |m|, op.layer.x, op.layer.y)
      && (!c.gradientEnabled ==> op.cmd.paint == Solid(c.foregroundColor))
      && (c.gradientEnabled ==>
            op.cmd.paint == LinearGradient(Point(0.0, 0.0), c.foregroundColor,
                                           Point(s.width as real, s.height as real), c.gradientColor))
  {
    var p, d, q := PreScan(c, hasBackground), Marks(c, m), PostScan(c, hasLogo);
    RenderParts(c, m, hasLogo, hasBackground);
    MarksInMiddle(p, d, q);
    var paint := ModulePaint(c, SurfaceWidth(c), SurfaceHeight(c));
    assert IsMarkOp(c, m, paint, d[i - |p|]);
    MarkOpShape(c, m, paint, d[i - |p|]);
  }

  /** A mark operation's shape has the style of its cell and spans the mark box. */
  lemma MarkOpShape(c: StyleConfig, m: QrMatrix, paint: Paint, op: DrawOp)
    requires IsMarkOp(c, m, paint, op)
    ensures StyleOf(op.cmd.shape) == StyleAt(c, |m|, op.layer.x, op.layer.y)
    ensures Bounds(op.cmd.shape) == MarkBox(c, |m|, op.layer.x, op.layer.y)
    ensures op.cmd.paint == paint
  {
  }

  // ---------------------------------------------------------------------------
  // Faults
  // ---------------------------------------------------------------------------

  /** The mark at (x, y) is a circle of negative radius: dotPadding exceeds half a cell. */
  predicate MarkFaults(c: StyleConfig, n: nat, x: nat, y: nat)
    requires n > 0
  {
    StyleAt(c, n, x, y) == Circle && CellSize(c, n) < 2.0 * c.dotPadding
  }

  /** With the gradient on, a colour stop the parser rejects: the foreground colour or the
      gradient colour. */
  predicate GradientFaults(c: StyleConfig, parses: ColorParser) {
    c.gradientEnabled && !(parses(c.foregroundColor) && parses(c.gradientColor))
  }

  /** The gradient's setup: `createLinearGradient` along the surface diagonal with the
      foreground colour at 0 and the gradient colour at 1. */
  function SetupOp(c: StyleConfig): DrawOp {
    DrawOp(GradientSetup, CreateGradient(Point(0.0, 0.0), c.foregroundColor,
                                         Point(SurfaceWidth(c) as real, SurfaceHeight(c) as real), c.gradientColor))
  }

  /** With the gradient on, its setup comes right after the backdrops, as the last step
      before the scan. */
  lemma SetupAfterBackdrops(c: StyleConfig, hasBackground: bool)
    requires c.gradientEnabled
    ensures PreScan(c, hasBackground) == Backdrops(c, hasBackground) + [SetupOp(c)]
  {
  }

  /** An operation of the render throws exactly when it is a faulting mark or the setup of
      a gradient whose colours do not parse. */
  lemma {:induction false} ThrowingOps(c: StyleConfig, m: QrMatrix, hasLogo: bool, hasBackground: bool,
                                       parses: ColorParser, i: nat)
    requires i < |Render(c, m, hasLogo, hasBackground).ops|
    ensures var op := Render(c, m, hasLogo, hasBackground).ops[i];
      Throws(op.cmd, parses) <==>
        || (op.layer.Module? && MarkFaults(c, |m|, op.layer.x, op.layer.y))
        || (op.layer.GradientSetup? && GradientFaults(c, parses))
  {
    var p, d, q := PreScan(c, hasBackground), Marks(c, m), PostScan(c, hasLogo);
    RenderParts(c, m, hasLogo, hasBackground);
    QuietParts(c, hasLogo, hasBackground, parses);
    InParts(p, d, q, i);
    var b := Backdrops(c, hasBackground);
    if i < |b| {
      assert p[i] == b[i];
    } else if i < |p| {
      assert p[i] == GradientOps(c, SurfaceWidth(c), SurfaceHeight(c))[i - |b|];
    } else if i < |p| + |d| {
      var op := d[i - |p|];
      assert IsMarkOp(c, m, ModulePaint(c, SurfaceWidth(c), SurfaceHeight(c)), op);
    }
  }

  /** Some dark module's mark faults. */
  predicate SomeMarkFaults(c: StyleConfig, m: QrMatrix) {
    exists x: nat, y: nat :: x < |m| && y < |m| && m[x][y] && MarkFaults(c, |m|, x, y)
  }

  /** A render that stops was stopped by a faulting mark or by the gradient's colours. */
  lemma {:induction false} StopCauses(c: StyleConfig, m: QrMatrix, hasLogo: bool, hasBackground: bool, parses: ColorParser)
    ensures !Run(Render(c, m, hasLogo, hasBackground).ops, parses).1 ==>
      GradientFaults(c, parses) || SomeMarkFaults(c, m)
  {
    var ops := Render(c, m, hasLogo, hasBackground).ops;
    if !Run(ops, parses).1 {
      var i :| 0 <= i < |ops| && Throws(ops[i].cmd, parses);
      ThrowingOps(c, m, hasLogo, hasBackground, parses, i);
      if ops[i].layer.Module? {
        RenderMarks(c, m, hasLogo, hasBackground);
        var x, y := ops[i].layer.x, ops[i].layer.y;
        assert m[x][y] && MarkFaults(c, |m|, x, y);
      }
    }
  }

  /** Either cause stops the render. */
  lemma {:induction false} CausesStop(c: StyleConfig, m: QrMatrix, hasLogo: bool, hasBackground: bool, parses: ColorParser)
    requires GradientFaults(c, parses) || SomeMarkFaults(c, m)
    ensures !Run(Render(c, m, hasLogo, hasBackground).ops, parses).1
  {
    var ops := Render(c, m, hasLogo, hasBackground).ops;
    if GradientFaults(c, parses) {
      SetupAfterBackdrops(c, hasBackground);
      RenderParts(c, m, hasLogo, hasBackground);
      var p, d, q := PreScan(c, hasBackground), Marks(c, m), PostScan(c, hasLogo);
      var b := Backdrops(c, hasBackground);
      InParts(p, d, q, |b|);
      assert ops[|b|] == SetupOp(c);
    } else {
      var x: nat, y: nat :| x < |m| && y < |m| && m[x][y] && MarkFaults(c, |m|, x, y);
      RenderMarkAt(c, m, hasLogo, hasBackground, x, y);
      var i :| 0 <= i < |ops| && ops[i].layer == Module(x, y);
      ThrowingOps(c, m, hasLogo, hasBackground, parses, i);
    }
  }

  /** A render completes exactly when the gradient's colours parse (or it is off) and no
      dark module's mark faults. When the colours do not parse, the canvas keeps exactly
      the background fill and the background image: the marks, logo, border and frame are
      never drawn. */
  lemma {:induction false} RenderCompletes(c: StyleConfig, m: QrMatrix, hasLogo: bool, hasBackground: bool,
                                           parses: ColorParser)
    ensures Run(Render(c, m, hasLogo, hasBackground).ops, parses).1 <==>
      && !GradientFaults(c, parses)
      && forall x: nat, y: nat :: x < |m| && y < |m| && m[x][y] ==> !MarkFaults(c, |m|, x, y)
    ensures GradientFaults(c, parses) ==>
      Run(Render(c, m, hasLogo, hasBackground).ops, parses) == (Backdrops(c, hasBackground), false)
  {
    if !Run(Render(c, m, hasLogo, hasBackground).ops, parses).1 {
      StopCauses(c, m, hasLogo, hasBackground, parses);
    } else if GradientFaults(c, parses) || SomeMarkFaults(c, m) {
      CausesStop(c, m, hasLogo, hasBackground, parses);
    }
    if GradientFaults(c, parses) {
      GradientStopsEarly(c, m, hasLogo, hasBackground, parses);
    }
  }

  /** Colours that do not parse stop the render right after the backdrops. */
  lemma {:induction false} GradientStopsEarly(c: StyleConfig, m: QrMatrix, hasLogo: bool, hasBackground: bool,
                                              parses: ColorParser)
    requires GradientFaults(c, parses)
    ensures Run(Render(c, m, hasLogo, hasBackground).ops, parses) == (Backdrops(c, hasBackground), false)
  {
    SetupAfterBackdrops(c, hasBackground);
    QuietParts(c, hasLogo, hasBackground, parses);
    StopsAfter(Backdrops(c, hasBackground), SetupOp(c), Marks(c, m), PostScan(c, hasLogo), parses);
  }

  /** Safe operations, then one that throws: whatever follows, the canvas keeps the safe ones. */
  lemma {:induction false} StopsAfter(b: seq<DrawOp>, op: DrawOp, d: seq<DrawOp>, q: seq<DrawOp>, parses: ColorParser)
    requires NoThrows(b, parses) && Throws(op.cmd, parses)
    ensures Run(b + [op] + d + q, parses) == (b, false)
  {
    assert b + [op] + d + q == b + ([op] + d + q);
    RunStopsAt(b, [op] + d + q, parses);
  }

  /** With dotPadding at most half a cell no mark faults, whatever the styles: the render
      completes exactly when the gradient's colours parse or the gradient is off. */
  lemma {:induction false} PaddingThatFits(c: StyleConfig, m: QrMatrix, hasLogo: bool, hasBackground: bool,
                                           parses: ColorParser)
    requires 2.0 * c.dotPadding <= CellSize(c, |m|)
    ensures Run(Render(c, m, hasLogo, hasBackground).ops, parses).1 <==> !GradientFaults(c, parses)
  {
    RenderCompletes(c, m, hasLogo, hasBackground, parses);
  }

  // ---------------------------------------------------------------------------
  // Logo
  // ---------------------------------------------------------------------------

  /** The logo is centred on the symbol, its side `logoSize` percent of the symbol's, over a
      white backing 5 px larger on every side, drawn with the configured opacity. */
  lemma {:induction false} LogoPlacement(c: StyleConfig)
    ensures var ops := LogoOps(c, true);
      && |ops| == 2
      && ops[0].cmd.FillShape? && ops[0].cmd.paint == Solid("#ffffff")
      && ops[1].cmd == DrawImage(LogoAsset, LogoBox(c), GlobalAlpha(c.logoOpacity / 100.0))
      && LogoBox(c).w == LogoBox(c).h == c.size * c.logoSize / 100.0
      && LogoBox(c).Center() == Region(c).Center()
      && Bounds(ops[0].cmd.shape).Center() == Region(c).Center()
      && Bounds(ops[0].cmd.shape).w == LogoBox(c).w + 10.0
      && LogoBox(c).StrictlyInside(Bounds(ops[0].cmd.shape))
    ensures 0.0 <= c.logoOpacity <= 100.0 ==> LogoOps(c, true)[1].cmd.alpha == c.logoOpacity / 100.0
  {
    var b := LogoBox(c);
    var backing := Box(b.x - 5.0, b.y - 5.0, b.w + 10.0, b.h + 10.0);
    assert LogoOps(c, true)[0].cmd.shape == Rect(backing);
    assert b.Center() == Region(c).Center();
    assert backing.Center() == b.Center();
  }

  /** With a percentage in [0, 100] the logo lies within the symbol's region. */
  lemma {:induction false} LogoInRegion(c: StyleConfig)
    requires 0.0 <= c.size && 0.0 <= c.logoSize <= 100.0
    ensures LogoBox(c).Inside(Region(c))
  {
    Percentage(c.size, c.logoSize);
    var side := c.size * c.logoSize / 100.0;
    assert LogoBox(c) == Box(c.padding + (c.size - side) / 2.0, c.padding + (c.size - side) / 2.0, side, side);
  }

  /** A percentage in [0, 100] of a non-negative length lies between 0 and that length. */
  lemma Percentage(size: real, pct: real)
    requires 0.0 <= size && 0.0 <= pct <= 100.0
    ensures 0.0 <= size * pct / 100.0 <= size
  {
    MulMono(pct, 100.0, size);
    MulMono(0.0, pct, size);
  }

  // ---------------------------------------------------------------------------
  // Background image
  // ---------------------------------------------------------------------------

  /** The background image is the second operation, right after the background fill: drawn
      over the symbol's region (padding, padding, size, size) with `backgroundImageOpacity`
      percent as its alpha, and that region runs from the first cell's corner to the far
      corner of the last cell, so the image lies exactly under the module grid. */
  lemma {:induction false} BackgroundImagePlacement(c: StyleConfig, m: QrMatrix, hasLogo: bool)
    ensures var ops := Render(c, m, hasLogo, true).ops;
      && |ops| >= 2
      && ops[0].layer == Backdrop
      && ops[1] == DrawOp(BackdropImage, DrawImage(BackgroundAsset, Box(c.padding, c.padding, c.size, c.size),
                                                   GlobalAlpha(c.backgroundImageOpacity / 100.0)))
    ensures 0.0 <= c.backgroundImageOpacity <= 100.0 ==>
      Render(c, m, hasLogo, true).ops[1].cmd.alpha == c.backgroundImageOpacity / 100.0
    ensures var n := |m|;
      var first, last := CellBox(c, n, 0, 0), CellBox(c, n, n - 1, n - 1);
      && Region(c).x == first.x && Region(c).y == first.y
      && last.x + last.w == Region(c).x + Region(c).w
      && last.y + last.h == Region(c).y + Region(c).h
  {
    RenderParts(c, m, hasLogo, true);
    var b := Backdrops(c, true);
    assert |b| == 2;
    var ops := Render(c, m, hasLogo, true).ops;
    assert ops[1] == b[1];
    var n := |m|;
    LastCellEnds(c.size, n as real, (n - 1) as real);
  }

  /** The last of n cells of side size/n ends at size. */
  lemma LastCellEnds(size: real, n: real, k: real)
    requires n > 0.0 && k == n - 1.0
    ensures k * (size / n) + size / n == size
  {
    assert k * (size / n) + size / n == (k + 1.0) * (size / n);
  }

  // ---------------------------------------------------------------------------
  // The default configuration
  // ---------------------------------------------------------------------------

  /** The default surface: 300 + 2·20 = 340 px square. */
  lemma DefaultSurface()
    ensures SurfaceWidth(DefaultConfig) == 340 && SurfaceHeight(DefaultConfig) == 340
  {
    CanvasDimensionCases(340.0, 300);
    CanvasDimensionCases(340.0, 150);
  }

  /** Under the default configuration every mark is a black square filling its whole cell. */
  lemma {:induction false} DefaultMarks(m: QrMatrix, paint: Paint, i: nat)
    requires i < |ScanRows(DefaultConfig, m, paint, 0)|
    ensures var op := ScanRows(DefaultConfig, m, paint, 0)[i];
      && op.layer.Module?
      && op.cmd == FillShape(Rect(MarkBox(DefaultConfig, |m|, op.layer.x, op.layer.y)), paint)
      && MarkBox(DefaultConfig, |m|, op.layer.x, op.layer.y) == CellBox(DefaultConfig, |m|, op.layer.x, op.layer.y)
      && MarkBox(DefaultConfig, |m|, op.layer.x, op.layer.y).w == 300.0 / |m| as real
  {
    var op := ScanRows(DefaultConfig, m, paint, 0)[i];
    assert IsMarkOp(DefaultConfig, m, paint, op);
  }

  /** The default configuration with no images: a 340 px square surface, the white fill,
      then one black square mark of side 300/n per dark module and nothing else, and the
      render completes. */
  lemma {:induction false} DefaultRender(m: QrMatrix, parses: ColorParser)
    ensures var s := Render(DefaultConfig, m, false, false);
      && s.width == 340 && s.height == 340
      && |s.ops| == 1 + CellCount(m)
      && s.ops[0].cmd == FillShape(Rect(Box(0.0, 0.0, 340.0, 340.0)), Solid("#ffffff"))
      && (forall i :: 1 <= i < |s.ops| ==>
            s.ops[i].layer.Module?
            && s.ops[i].cmd == FillShape(Rect(CellBox(DefaultConfig, |m|, s.ops[i].layer.x, s.ops[i].layer.y)), Solid("#000000"))
            && CellBox(DefaultConfig, |m|, s.ops[i].layer.x, s.ops[i].layer.y).w == 300.0 / |m| as real)
      && Run(s.ops, parses).1
  {
    var c := DefaultConfig;
    DefaultSurface();
    var s := Render(c, m, false, false);
    var paint := ModulePaint(c, 340, 340);
    assert paint == Solid("#000000");
    var d := ScanRows(c, m, paint, 0);
    RenderParts(c, m, false, false);
    assert PreScan(c, false) == BackdropOps(c, 340, 340);
    assert PostScan(c, false) == [];
    assert s.ops == BackdropOps(c, 340, 340) + d;
    ScanDarkIsCellCount(m);
    forall i | 1 <= i < |s.ops|
      ensures s.ops[i].layer.Module?
      ensures s.ops[i].cmd == FillShape(Rect(CellBox(c, |m|, s.ops[i].layer.x, s.ops[i].layer.y)), Solid("#000000"))
      ensures CellBox(c, |m|, s.ops[i].layer.x, s.ops[i].layer.y).w == 300.0 / |m| as real
    {
      assert s.ops[i] == d[i - 1];
      DefaultMarks(m, paint, i - 1);
    }
    PaddingThatFits(c, m, false, false, parses);
  }
}
