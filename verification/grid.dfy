/**
  The module matrix produced by the external encoder, and cell counting.
  `m[x][y]` is `modules.get(x, y)`: the module the renderer draws at column x, row y.
 */
module Grid {

  predicate IsSquare(m: seq<seq<bool>>) {
    forall i :: 0 <= i < |m| ==> |m[i]| == |m|
  }

  /** Symbol sides of versions 1 to 40: 21, 25, ..., 177. */
  predicate IsSymbolSide(n: int) {
    21 <= n <= 177 && n % 4 == 1
  }

  /** A square boolean grid of a valid symbol side; `true` is a dark module. */
  type QrMatrix = m: seq<seq<bool>> | IsSquare(m) && IsSymbolSide(|m|)
    witness seq(21, _ => seq(21, _ => false))

  /** Number of dark modules in one line of the matrix. */
  function Dark(line: seq<bool>): nat {
    multiset(line)[true]
  }

  /** Number of dark modules in lines [x0, n) of the matrix. */
  function DarkFrom(m: QrMatrix, x0: nat): nat
    requires x0 <= |m|
    decreases |m| - x0
  {
    if x0 == |m| then 0 else Dark(m[x0]) + DarkFrom(m, x0 + 1)
  }

  /** Number of dark modules of the whole matrix. */
  function CellCount(m: QrMatrix): nat {
    DarkFrom(m, 0)
  }

  // ---------------------------------------------------------------------------
  // Counting in the renderer's scan order (row y outer, column x inner) and
  // relating it to CellCount.
  // ---------------------------------------------------------------------------

  /** Dark modules m[x][y] for x in [x0, n): row y of the picture from column x0 on. */
  function RowDark(m: QrMatrix, y: nat, x0: nat): nat
    requires y < |m| && x0 <= |m|
    decreases |m| - x0
  {
    if x0 == |m| then 0 else (if m[x0][y] then 1 else 0) + RowDark(m, y, x0 + 1)
  }

  /** Dark modules in rows [y0, n) of the picture, counted row by row. */
  function ScanDark(m: QrMatrix, y0: nat): nat
    requires y0 <= |m|
    decreases |m| - y0
  {
    if y0 == |m| then 0 else RowDark(m, y0, 0) + ScanDark(m, y0 + 1)
  }

  /** Dark entries of `line` from index y0 on. */
  function LineDark(line: seq<bool>, y0: nat): nat
    requires y0 <= |line|
    decreases |line| - y0
  {
    if y0 == |line| then 0 else (if line[y0] then 1 else 0) + LineDark(line, y0 + 1)
  }

  /** Dark entries m[x][y] with x in [x0, n) and y in [y0, n). */
  function BlockDark(m: QrMatrix, x0: nat, y0: nat): nat
    requires x0 <= |m| && y0 <= |m|
    decreases |m| - x0
  {
    if x0 == |m| then 0 else LineDark(m[x0], y0) + BlockDark(m, x0 + 1, y0)
  }

  lemma {:induction false} LineDarkIsMultiset(line: seq<bool>, y0: nat)
    requires y0 <= |line|
    ensures LineDark(line, y0) == multiset(line[y0..])[true]
    decreases |line| - y0
  {
    if y0 < |line| {
      LineDarkIsMultiset(line, y0 + 1);
      assert line[y0..] == [line[y0]] + line[y0 + 1..];
    }
  }

  lemma {:induction false} BlockDarkWhole(m: QrMatrix, x0: nat)
    requires x0 <= |m|
    ensures BlockDark(m, x0, 0) == DarkFrom(m, x0)
    decreases |m| - x0
  {
    if x0 < |m| {
      BlockDarkWhole(m, x0 + 1);
      LineDarkIsMultiset(m[x0], 0);
      assert m[x0][0..] == m[x0];
    }
  }

  lemma {:induction false} BlockDarkEmpty(m: QrMatrix, x0: nat)
    requires x0 <= |m|
    ensures BlockDark(m, x0, |m|) == 0
    decreases |m| - x0
  {
    if x0 < |m| {
      BlockDarkEmpty(m, x0 + 1);
    }
  }

  /** Peeling row y0 off a block. */
  lemma {:induction false} BlockDarkSplit(m: QrMatrix, x0: nat, y0: nat)
    requires x0 <= |m| && y0 < |m|
    ensures BlockDark(m, x0, y0) == RowDark(m, y0, x0) + BlockDark(m, x0, y0 + 1)
    decreases |m| - x0
  {
    if x0 < |m| {
      BlockDarkSplit(m, x0 + 1, y0);
    }
  }

  lemma {:induction false} ScanDarkIsBlock(m: QrMatrix, y0: nat)
    requires y0 <= |m|
    ensures ScanDark(m, y0) == BlockDark(m, 0, y0)
    decreases |m| - y0
  {
    if y0 == |m| {
      BlockDarkEmpty(m, 0);
    } else {
      ScanDarkIsBlock(m, y0 + 1);
      BlockDarkSplit(m, 0, y0);
    }
  }

  /** Counting the dark modules row by row in the picture gives the same total as counting
      them line by line in the matrix. */
  lemma {:induction false} ScanDarkIsCellCount(m: QrMatrix)
    ensures ScanDark(m, 0) == CellCount(m)
  {
    ScanDarkIsBlock(m, 0);
    BlockDarkWhole(m, 0);
  }
}
