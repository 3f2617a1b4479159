/**
  The region classifier: whether the module at column x, row y of an n×n symbol lies in
  one of the three corner "eye" blocks, which hold the finder patterns, their separators
  and the adjacent format-information modules (finder pattern: section 6.3.3 of
  ISO/IEC 18004:2015).
 */
module Eyes {

  /** `isEye` in drawCustomQR. */
  predicate IsEye(x: nat, y: nat, n: nat) {
    (x < 9 && y < 9) || (x >= n - 8 && y < 9) || (x < 9 && y >= n - 8)
  }

  datatype Corner = TopLeft | TopRight | BottomLeft

  /** A block of cells: columns [x0, x1) by rows [y0, y1). */
  datatype Block = Block(x0: int, x1: int, y0: int, y1: int) {
    predicate Has(x: int, y: int) {
      x0 <= x < x1 && y0 <= y < y1
    }
    function Width(): int { x1 - x0 }
    function Height(): int { y1 - y0 }
  }

  /** The three eye blocks of an n×n symbol: top-left 9×9, top-right 8 wide by 9 tall,
      bottom-left 9 wide by 8 tall. */
  function EyeBlock(k: Corner, n: nat): (b: Block)
    requires n >= 9
    ensures b.x0 >= 0 && b.y0 >= 0 && b.x1 <= n && b.y1 <= n
  {
    match k
    case TopLeft => Block(0, 9, 0, 9)
    case TopRight => Block(n - 8, n, 0, 9)
    case BottomLeft => Block(0, 9, n - 8, n)
  }

  /** The classifier holds exactly on the cells of the three corner blocks. */
  lemma EyeIffInBlock(x: nat, y: nat, n: nat)
    requires n >= 9 && x < n && y < n
    ensures IsEye(x, y, n) <==> exists k :: EyeBlock(k, n).Has(x, y)
  {
    if IsEye(x, y, n) {
      if x < 9 && y < 9 {
        assert EyeBlock(TopLeft, n).Has(x, y);
      } else if x >= n - 8 && y < 9 {
        assert EyeBlock(TopRight, n).Has(x, y);
      } else {
        assert EyeBlock(BottomLeft, n).Has(x, y);
      }
    }
  }

  /** For a symbol of side at least 17 the three blocks do not overlap. */
  lemma EyeBlocksDisjoint(n: nat, j: Corner, k: Corner, x: int, y: int)
    requires n >= 17
    requires EyeBlock(j, n).Has(x, y) && EyeBlock(k, n).Has(x, y)
    ensures j == k
  {
  }

  /** Swapping column and row keeps the classification: the top-right and bottom-left
      blocks are mirror images of each other. */
  lemma EyeSymmetric(x: nat, y: nat, n: nat)
    ensures IsEye(x, y, n) == IsEye(y, x, n)
  {
  }

  /** Cells past the ninth column and the ninth row are data, never eye; and so is every
      cell of the band between the blocks. */
  lemma DataRegion(x: nat, y: nat, n: nat)
    ensures x >= 9 && y >= 9 ==> !IsEye(x, y, n)
    ensures 9 <= x < n - 8 && 9 <= y ==> !IsEye(x, y, n)
    ensures 9 <= y < n - 8 && 9 <= x ==> !IsEye(x, y, n)
  {
  }

  /** Number of eye cells in column x among rows [0, k). */
  function ColumnEyes(x: nat, n: nat, k: nat): nat {
    if k == 0 then 0 else ColumnEyes(x, n, k - 1) + (if IsEye(x, k - 1, n) then 1 else 0)
  }

  /** Number of eye cells among columns [0, k), all rows. */
  function EyeCells(n: nat, k: nat): nat {
    if k == 0 then 0 else EyeCells(n, k - 1) + ColumnEyes(k - 1, n, n)
  }

  function Min(a: int, b: int): int { if a <= b then a else b }
  function Max(a: int, b: int): int { if a >= b then a else b }

  lemma {:induction false} ColumnEyesPrefix(x: nat, n: nat, k: nat)
    requires n >= 17 && x < n && k <= n
    ensures x < 9 ==> ColumnEyes(x, n, k) == Min(k, 9) + Max(0, k - (n - 8))
    ensures 9 <= x < n - 8 ==> ColumnEyes(x, n, k) == 0
    ensures n - 8 <= x ==> ColumnEyes(x, n, k) == Min(k, 9)
  {
    if k > 0 {
      ColumnEyesPrefix(x, n, k - 1);
    }
  }

  lemma {:induction false} EyeCellsPrefix(n: nat, k: nat)
    requires n >= 17 && k <= n
    ensures EyeCells(n, k) == 17 * Min(k, 9) + 9 * Max(0, k - (n - 8))
  {
    if k > 0 {
      EyeCellsPrefix(n, k - 1);
      ColumnEyesPrefix(k - 1, n, n);
    }
  }

  /** The classifier marks 81 + 72 + 72 = 225 cells of any symbol of side at least 17:
      one 9×9 block, one 8 wide by 9 tall and one 9 wide by 8 tall. */
  lemma {:induction false} EyeCellCount(n: nat)
    requires n >= 17
    ensures EyeCells(n, n) == 225
  {
    EyeCellsPrefix(n, n);
  }
}
