/**
  The drawing surface as a record of operations: what a render asks of the canvas 2D
  context, in order, each tagged with the compositing layer it belongs to. Also the
  host rules the renderer relies on: how an assigned canvas size is stored, how
  `globalAlpha` treats out-of-range values, and which call throws.
 */
module Canvas {
  import opened Geometry

  /** A fill: a solid colour, or the linear gradient of createLinearGradient with two stops. */
  datatype Paint =
    | Solid(color: string)
    | LinearGradient(from: Point, fromColor: string, to: Point, toColor: string)

  datatype Asset = LogoAsset | BackgroundAsset

  datatype Command =
    | FillShape(shape: Shape, paint: Paint)
    | CreateGradient(from: Point, fromColor: string, to: Point, toColor: string)
    | StrokeShape(shape: Shape, color: string, lineWidth: real)
    | DrawImage(asset: Asset, dest: Box, alpha: real)
    | PushClip(clip: Shape)
    | PopClip
    | FillText(text: string, at: Point, color: string, font: string)

  /** The compositing layers, bottom to top; a module mark records its cell. */
  datatype Layer =
    | Backdrop
    | BackdropImage
    | GradientSetup
    | Module(x: nat, y: nat)
    | LogoLayer
    | BorderLayer
    | FrameLayer

  datatype DrawOp = DrawOp(layer: Layer, cmd: Command)

  /** The finished surface: its pixel size and the operations painted on it. */
  datatype Surface = Surface(width: nat, height: nat, ops: seq<DrawOp>)

  function Rank(l: Layer): nat {
    match l
    case Backdrop => 0
    case BackdropImage => 1
    case GradientSetup => 2
    case Module(_, _) => 3
    case LogoLayer => 4
    case BorderLayer => 5
    case FrameLayer => 6
  }

  /** Operations come in layer order: nothing is drawn under a layer already painted. */
  predicate LayersOrdered(ops: seq<DrawOp>) {
    forall i, j :: 0 <= i < j < |ops| ==> Rank(ops[i].layer) <= Rank(ops[j].layer)
  }

  /** Every operation sits on a layer of the given rank. */
  predicate AllOfRank(ops: seq<DrawOp>, r: nat) {
    forall i :: 0 <= i < |ops| ==> Rank(ops[i].layer) == r
  }

  lemma {:induction false} OrderedAppend(a: seq<DrawOp>, b: seq<DrawOp>, r: nat)
    requires LayersOrdered(a) && AllOfRank(b, r)
    requires forall i :: 0 <= i < |a| ==> Rank(a[i].layer) <= r
    ensures LayersOrdered(a + b)
    ensures forall i :: 0 <= i < |a + b| ==> Rank((a + b)[i].layer) <= r
  {
  }

  /** Two ordered runs, the first below rank r and the second from rank r up, make one. */
  lemma OrderedJoin(a: seq<DrawOp>, b: seq<DrawOp>, r: nat)
    requires LayersOrdered(a) && LayersOrdered(b)
    requires forall i :: 0 <= i < |a| ==> Rank(a[i].layer) <= r
    requires forall j :: 0 <= j < |b| ==> r <= Rank(b[j].layer)
    ensures LayersOrdered(a + b)
  {
    forall i, j | 0 <= i < j < |a + b|
      ensures Rank((a + b)[i].layer) <= Rank((a + b)[j].layer)
    {
      if j < |a| {
      } else if i >= |a| {
        assert (a + b)[i] == b[i - |a|] && (a + b)[j] == b[j - |a|];
      } else {
        assert (a + b)[j] == b[j - |a|];
      }
    }
  }

  /** Number of module marks among the operations. */
  function MarkCount(ops: seq<DrawOp>): nat {
    if |ops| == 0 then 0 else (if ops[0].layer.Module? then 1 else 0) + MarkCount(ops[1..])
  }

  lemma {:induction false} MarkCountAppend(a: seq<DrawOp>, b: seq<DrawOp>)
    ensures MarkCount(a + b) == MarkCount(a) + MarkCount(b)
  {
    if |a| > 0 {
      assert (a + b)[1..] == a[1..] + b;
      MarkCountAppend(a[1..], b);
    } else {
      assert a + b == b;
    }
  }

  lemma {:induction false} MarkCountNone(ops: seq<DrawOp>)
    requires forall i :: 0 <= i < |ops| ==> !ops[i].layer.Module?
    ensures MarkCount(ops) == 0
  {
    if |ops| > 0 {
      MarkCountNone(ops[1..]);
    }
  }

  lemma {:induction false} MarkCountAll(ops: seq<DrawOp>)
    requires forall i :: 0 <= i < |ops| ==> ops[i].layer.Module?
    ensures MarkCount(ops) == |ops|
  {
    if |ops| > 0 {
      MarkCountAll(ops[1..]);
    }
  }

  // ---------------------------------------------------------------------------
  // Host rules
  // ---------------------------------------------------------------------------

  const Two32: int := 0x1_0000_0000
  const MaxReflected: int := 0x7FFF_FFFF

  /** Truncation toward zero. */
  function Trunc(v: real): int {
    if v >= 0.0 then v.Floor else -((-v).Floor)
  }

  /** WebIDL conversion to `unsigned long`: truncate, then reduce modulo 2^32. */
  function ToUint32(v: real): (u: nat)
    ensures u < Two32
  {
    Trunc(v) % Two32
  }

  /** `canvas.width = v` (or height) read back: the unsigned-long value when it is at most
      2^31 - 1, otherwise the attribute's default (300 for width, 150 for height). */
  function CanvasDimension(v: real, default: nat): (d: nat)
    ensures d <= MaxReflected || d == default
  {
    var u := ToUint32(v);
    if u <= MaxReflected then u else default
  }

  /** A whole, in-range size is stored exactly; a fractional one loses its fraction;
      a negative one wraps past 2^31 and falls back to the default. */
  lemma CanvasDimensionCases(v: real, default: nat)
    ensures 0.0 <= v && v.Floor <= MaxReflected ==> CanvasDimension(v, default) == v.Floor
    ensures 0.0 <= v && v.Floor <= MaxReflected && v == v.Floor as real ==>
      CanvasDimension(v, default) as real == v
    ensures -(Two32 / 2) as real < v <= -1.0 ==> CanvasDimension(v, default) == default
  {
    if -(Two32 / 2) as real < v <= -1.0 {
      var t := Trunc(v);
      assert -(Two32 / 2) <= t <= -1;
      assert ToUint32(v) == t + Two32;
    }
  }

  /** The effective `globalAlpha` after assigning `a` to a freshly reset context:
      values outside [0, 1] are ignored, leaving the default 1. */
  function GlobalAlpha(a: real): (r: real)
    ensures 0.0 <= r <= 1.0
    ensures 0.0 <= a <= 1.0 <==> r == a
  {
    if 0.0 <= a <= 1.0 then a else 1.0
  }

  /** The host's CSS colour parser: whether a string is a colour it accepts. */
  type ColorParser = string -> bool

  /** `arc` throws IndexSizeError on a negative radius, and `addColorStop` throws
      SyntaxError on a colour the parser rejects; nothing else here throws. */
  predicate Throws(cmd: Command, parses: ColorParser) {
    || (cmd.FillShape? && cmd.shape.Disk? && cmd.shape.radius < 0.0)
    || (cmd.CreateGradient? && !(parses(cmd.fromColor) && parses(cmd.toColor)))
  }

  /** Executing operations on the canvas: the operations painted before the first one that
      throws, and whether the whole sequence completed. */
  function Run(ops: seq<DrawOp>, parses: ColorParser): (r: (seq<DrawOp>, bool))
    ensures r.0 <= ops
    ensures r.1 <==> forall i :: 0 <= i < |ops| ==> !Throws(ops[i].cmd, parses)
    ensures r.1 ==> r.0 == ops
    ensures !r.1 ==> |r.0| < |ops| && Throws(ops[|r.0|].cmd, parses)
    ensures forall i :: 0 <= i < |r.0| ==> !Throws(r.0[i].cmd, parses)
  {
    if |ops| == 0 then ([], true)
    else if Throws(ops[0].cmd, parses) then ([], false)
    else
      var rest := Run(ops[1..], parses);
      ([ops[0]] + rest.0, rest.1)
  }

  /** Operations that cannot throw, followed by one that does: the canvas keeps exactly the
      first part. */
  lemma {:induction false} RunStopsAt(a: seq<DrawOp>, b: seq<DrawOp>, parses: ColorParser)
    requires forall i :: 0 <= i < |a| ==> !Throws(a[i].cmd, parses)
    requires |b| > 0 && Throws(b[0].cmd, parses)
    ensures Run(a + b, parses) == (a, false)
  {
    if |a| > 0 {
      assert (a + b)[1..] == a[1..] + b;
      RunStopsAt(a[1..], b, parses);
      assert [a[0]] + a[1..] == a;
    } else {
      assert a + b == b;
    }
  }
}
