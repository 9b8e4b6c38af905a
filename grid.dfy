/** The block grid: construction, hit counting and the effect of one ball position on it. */
module Grid {
  import opened Config

  /** One block: its top-left corner and whether it has been destroyed. */
  datatype Block = Block(x: real, y: real, isHit: bool)

  type Blocks = seq<seq<Block>>

  /** Left margin that centres `columns` blocks (with gaps between them, none trailing). */
  function OffsetLeft(columns: nat): (off: real)
    ensures 2.0 * off + (columns as real * (BlockWidth + BlockPadding) - BlockPadding) == CanvasWidth
  {
    (CanvasWidth - (columns as real * (BlockWidth + BlockPadding) - BlockPadding)) / 2.0
  }

  function BlockX(c: nat, columns: nat): real
  {
    c as real * (BlockWidth + BlockPadding) + OffsetLeft(columns)
  }

  function BlockY(r: nat): real
  {
    r as real * (BlockHeight + BlockPadding) + BlockOffsetTop
  }

  /** `g` has `rows` rows of `columns` blocks, each at its place in the layout. */
  predicate IsLayout(g: Blocks, rows: nat, columns: nat)
  {
    |g| == rows &&
    (forall r :: 0 <= r < |g| ==> |g[r]| == columns) &&
    (forall r, c {:trigger g[r][c]} :: 0 <= r < |g| && 0 <= c < |g[r]| ==> g[r][c].x == BlockX(c, columns) && g[r][c].y == BlockY(r))
  }

  /** The grid createBlocks builds: the layout with no block hit. */
  predicate IsFreshGrid(g: Blocks, rows: nat, columns: nat)
  {
    IsLayout(g, rows, columns) &&
    forall r, c :: 0 <= r < |g| && 0 <= c < |g[r]| ==> !g[r][c].isHit
  }

  function FreshGrid(rows: nat, columns: nat): (g: Blocks)
    ensures IsFreshGrid(g, rows, columns)
  {
    seq(rows, r requires 0 <= r => seq(columns, c requires 0 <= c => Block(BlockX(c, columns), BlockY(r), false)))
  }

  /** createBlocks: rows then columns, appending one block at a time. */
  method CreateBlocks(difficulty: Difficulty) returns (blocks: Blocks)
    ensures IsFreshGrid(blocks, Rows(difficulty), Columns(difficulty))
  {
    var rows, columns := Rows(difficulty), Columns(difficulty);
    var blockOffsetLeft := (CanvasWidth - (columns as real * (BlockWidth + BlockPadding) - BlockPadding)) / 2.0;
    blocks := [];
    var r := 0;
    while r < rows
      invariant 0 <= r <= rows
      invariant IsFreshGrid(blocks, r, columns)
    {
      var row := [];
      var c := 0;
      while c < columns
        invariant 0 <= c <= columns
        invariant |row| == c
        invariant forall j :: 0 <= j < c ==> row[j] == Block(BlockX(j, columns), BlockY(r), false)
      {
        var blockX := c as real * (BlockWidth + BlockPadding) + blockOffsetLeft;
        var blockY := r as real * (BlockHeight + BlockPadding) + BlockOffsetTop;
        row := row + [Block(blockX, blockY, false)];
        c := c + 1;
      }
      blocks := blocks + [row];
      r := r + 1;
    }
  }

  /** Two grids of the same shape whose cells agree are equal. */
  lemma {:induction false} CellwiseEqual(g1: Blocks, g2: Blocks)
    requires |g1| == |g2|
    requires forall r :: 0 <= r < |g1| ==> |g1[r]| == |g2[r]|
    requires forall r, c :: 0 <= r < |g1| && 0 <= c < |g1[r]| ==> g1[r][c] == g2[r][c]
    ensures g1 == g2
  {
    forall r | 0 <= r < |g1| ensures g1[r] == g2[r] {
      assert forall c :: 0 <= c < |g1[r]| ==> g1[r][c] == g2[r][c];
    }
  }

  /** Building the grid is deterministic: only one grid has the fresh layout. */
  lemma {:induction false} FreshGridUnique(g: Blocks, rows: nat, columns: nat)
    requires IsFreshGrid(g, rows, columns)
    ensures g == FreshGrid(rows, columns)
  {
    CellwiseEqual(g, FreshGrid(rows, columns));
  }

  /** The left margin equals the right margin, and its value per preset. */
  lemma Centred(columns: nat)
    requires columns >= 1
    ensures BlockX(0, columns) == CanvasWidth - (BlockX(columns - 1, columns) + BlockWidth)
    ensures OffsetLeft(Columns(Easy)) == 130.0
    ensures OffsetLeft(Columns(Normal)) == -5.0
    ensures OffsetLeft(Columns(Hard)) == -95.0
  {
  }

  // ----- hit state -----

  /** checkAllBlocksDestroyed as a predicate. */
  predicate AllHit(g: Blocks)
  {
    forall r, c :: 0 <= r < |g| && 0 <= c < |g[r]| ==> g[r][c].isHit
  }

  /** g2 is g1 with possibly more blocks hit: same layout, and no hit flag reverts. */
  predicate HitsOnlyGrow(g1: Blocks, g2: Blocks)
  {
    |g1| == |g2| &&
    (forall r :: 0 <= r < |g1| ==> |g1[r]| == |g2[r]|) &&
    (forall r, c :: 0 <= r < |g1| && 0 <= c < |g1[r]| ==>
       g2[r][c].x == g1[r][c].x && g2[r][c].y == g1[r][c].y && (g1[r][c].isHit ==> g2[r][c].isHit))
  }

  function RowHits(row: seq<Block>): nat
  {
    if |row| == 0 then 0 else (if row[0].isHit then 1 else 0) + RowHits(row[1..])
  }

  /** Number of destroyed blocks in the grid. */
  function Hits(g: Blocks): nat
  {
    if |g| == 0 then 0 else RowHits(g[0]) + Hits(g[1..])
  }

  /** Marking one intact block as hit raises the row's count by exactly one. */
  lemma {:induction false} RowHitsMark(row: seq<Block>, c: nat)
    requires c < |row| && !row[c].isHit
    ensures RowHits(row[c := row[c].(isHit := true)]) == RowHits(row) + 1
  {
    var row' := row[c := row[c].(isHit := true)];
    if c == 0 {
      assert row'[1..] == row[1..];
    } else {
      assert row'[1..] == row[1..][c - 1 := row[c].(isHit := true)];
      RowHitsMark(row[1..], c - 1);
    }
  }

  /** Marking one intact block as hit raises the grid's count by exactly one. */
  lemma {:induction false} HitsMark(g: Blocks, r: nat, c: nat)
    requires r < |g| && c < |g[r]| && !g[r][c].isHit
    ensures Hits(g[r := g[r][c := g[r][c].(isHit := true)]]) == Hits(g) + 1
  {
    var g' := g[r := g[r][c := g[r][c].(isHit := true)]];
    if r == 0 {
      assert g'[1..] == g[1..];
      RowHitsMark(g[0], c);
    } else {
      assert g'[1..] == g[1..][r - 1 := g[r][c := g[r][c].(isHit := true)]];
      HitsMark(g[1..], r - 1, c);
    }
  }

  lemma {:induction false} RowHitsNone(row: seq<Block>)
    requires forall c :: 0 <= c < |row| ==> !row[c].isHit
    ensures RowHits(row) == 0
  {
    if |row| > 0 {
      RowHitsNone(row[1..]);
    }
  }

  /** A grid with no block hit has a hit count of zero. */
  lemma {:induction false} HitsNone(g: Blocks)
    requires forall r, c :: 0 <= r < |g| && 0 <= c < |g[r]| ==> !g[r][c].isHit
    ensures Hits(g) == 0
  {
    if |g| > 0 {
      RowHitsNone(g[0]);
      HitsNone(g[1..]);
    }
  }

  /** A fresh grid scores nothing and is not yet cleared. */
  lemma FreshGridStart(rows: nat, columns: nat)
    requires rows >= 1 && columns >= 1
    ensures Hits(FreshGrid(rows, columns)) == 0
    ensures !AllHit(FreshGrid(rows, columns))
  {
    var g := FreshGrid(rows, columns);
    HitsNone(g);
    assert !g[0][0].isHit;
  }

  lemma {:induction false} RowHitsBound(row: seq<Block>)
    ensures RowHits(row) <= |row|
    ensures RowHits(row) == |row| <==> forall c :: 0 <= c < |row| ==> row[c].isHit
  {
    if |row| > 0 {
      RowHitsBound(row[1..]);
      assert forall c :: 1 <= c < |row| ==> row[c] == row[1..][c - 1];
    }
  }

  /**
   * In a grid of rows x columns the hit count is at most the number of blocks,
   * and reaches it exactly when every block is hit.
   */
  lemma {:induction false} HitsBound(g: Blocks, rows: nat, columns: nat)
    requires |g| == rows && forall r :: 0 <= r < |g| ==> |g[r]| == columns
    ensures Hits(g) <= rows * columns
    ensures AllHit(g) <==> Hits(g) == rows * columns
  {
    if |g| > 0 {
      RowHitsBound(g[0]);
      HitsBound(g[1..], rows - 1, columns);
      assert rows * columns == columns + (rows - 1) * columns;
      assert AllHit(g) <==> AllHit(g[1..]) && forall c :: 0 <= c < |g[0]| ==> g[0][c].isHit by {
        assert forall r :: 1 <= r < |g| ==> g[r] == g[1..][r - 1];
      }
    }
  }

  // ----- collision with the ball centre -----

  /** The ball centre lies strictly inside the block's rectangle. */
  predicate Contains(b: Block, ballX: real, ballY: real)
  {
    ballX > b.x && ballX < b.x + BlockWidth && ballY > b.y && ballY < b.y + BlockHeight
  }

  /** The block is intact and the ball centre is inside it: this tick destroys it. */
  predicate Struck(b: Block, ballX: real, ballY: real)
  {
    !b.isHit && Contains(b, ballX, ballY)
  }

  /** One visit of the block loop: a struck block becomes hit; position and every other block are untouched. */
  function Strike(b: Block, ballX: real, ballY: real): (r: Block)
    ensures r.x == b.x && r.y == b.y
    ensures r.isHit <==> b.isHit || Contains(b, ballX, ballY)
  {
    if Struck(b, ballX, ballY) then b.(isHit := true) else b
  }

  /** The grid after every block the ball centre strikes has been marked hit. */
  function StrikeAll(g: Blocks, ballX: real, ballY: real): (g': Blocks)
    ensures HitsOnlyGrow(g, g')
    ensures forall r, c :: 0 <= r < |g| && 0 <= c < |g[r]| ==>
              (g'[r][c].isHit <==> g[r][c].isHit || Contains(g[r][c], ballX, ballY))
  {
    seq(|g|, r requires 0 <= r < |g| => seq(|g[r]|, c requires 0 <= c < |g[r]| => Strike(g[r][c], ballX, ballY)))
  }

  function RowStruckCount(row: seq<Block>, ballX: real, ballY: real): nat
  {
    if |row| == 0 then 0 else (if Struck(row[0], ballX, ballY) then 1 else 0) + RowStruckCount(row[1..], ballX, ballY)
  }

  /** Number of blocks the ball centre strikes this tick. */
  function StruckCount(g: Blocks, ballX: real, ballY: real): nat
  {
    if |g| == 0 then 0 else RowStruckCount(g[0], ballX, ballY) + StruckCount(g[1..], ballX, ballY)
  }

  lemma {:induction false} RowHitsStrike(row: seq<Block>, ballX: real, ballY: real)
    ensures RowHits(seq(|row|, c requires 0 <= c < |row| => Strike(row[c], ballX, ballY)))
         == RowHits(row) + RowStruckCount(row, ballX, ballY)
  {
    if |row| > 0 {
      var s := seq(|row|, c requires 0 <= c < |row| => Strike(row[c], ballX, ballY));
      var t := row[1..];
      assert s[1..] == seq(|t|, c requires 0 <= c < |t| => Strike(t[c], ballX, ballY));
      RowHitsStrike(t, ballX, ballY);
    }
  }

  /** Striking raises the hit count by exactly the number of blocks struck. */
  lemma {:induction false} HitsStrikeAll(g: Blocks, ballX: real, ballY: real)
    ensures Hits(StrikeAll(g, ballX, ballY)) == Hits(g) + StruckCount(g, ballX, ballY)
  {
    if |g| > 0 {
      assert StrikeAll(g, ballX, ballY)[1..] == StrikeAll(g[1..], ballX, ballY);
      RowHitsStrike(g[0], ballX, ballY);
      HitsStrikeAll(g[1..], ballX, ballY);
    }
  }

  /** A row strikes nothing exactly when none of its blocks is struck. */
  lemma {:induction false} RowNoneStruck(row: seq<Block>, ballX: real, ballY: real)
    ensures RowStruckCount(row, ballX, ballY) == 0 <==> forall c :: 0 <= c < |row| ==> !Struck(row[c], ballX, ballY)
  {
    if |row| > 0 {
      var t := row[1..];
      assert forall c :: 1 <= c < |row| ==> row[c] == t[c - 1];
      RowNoneStruck(t, ballX, ballY);
    }
  }

  /** A grid strikes nothing exactly when none of its blocks is struck. */
  lemma {:induction false} NoneStruck(g: Blocks, ballX: real, ballY: real)
    ensures StruckCount(g, ballX, ballY) == 0 <==>
            forall r, c :: 0 <= r < |g| && 0 <= c < |g[r]| ==> !Struck(g[r][c], ballX, ballY)
  {
    if |g| > 0 {
      var t := g[1..];
      assert forall r :: 1 <= r < |g| ==> g[r] == t[r - 1];
      RowNoneStruck(g[0], ballX, ballY);
      NoneStruck(t, ballX, ballY);
    }
  }

  /** When the ball strikes nothing the grid is left as it was. */
  lemma StruckCountZero(g: Blocks, ballX: real, ballY: real)
    requires StruckCount(g, ballX, ballY) == 0
    ensures StrikeAll(g, ballX, ballY) == g
  {
    NoneStruck(g, ballX, ballY);
    CellwiseEqual(StrikeAll(g, ballX, ballY), g);
  }

  /** A ball centre below the lowest row of the layout strikes nothing. */
  lemma StruckBelowGrid(g: Blocks, rows: nat, columns: nat, ballX: real, ballY: real)
    requires IsLayout(g, rows, columns)
    requires ballY >= BlockY(rows)
    ensures StruckCount(g, ballX, ballY) == 0
    ensures StrikeAll(g, ballX, ballY) == g
  {
    forall r, c | 0 <= r < |g| && 0 <= c < |g[r]| ensures !Struck(g[r][c], ballX, ballY) {
      assert g[r][c].y == BlockY(r);
    }
    NoneStruck(g, ballX, ballY);
    StruckCountZero(g, ballX, ballY);
  }

  /** Two blocks of the layout that both contain one point are the same block: rows and columns leave gaps. */
  lemma LayoutCellsDisjoint(g: Blocks, rows: nat, columns: nat, ballX: real, ballY: real, r1: nat, c1: nat, r2: nat, c2: nat)
    requires IsLayout(g, rows, columns)
    requires r1 < |g| && c1 < |g[r1]| && r2 < |g| && c2 < |g[r2]|
    requires Contains(g[r1][c1], ballX, ballY) && Contains(g[r2][c2], ballX, ballY)
    ensures r1 == r2 && c1 == c2
  {
  }

  lemma {:induction false} RowStruckAtMostOne(row: seq<Block>, ballX: real, ballY: real)
    requires forall c1, c2 :: 0 <= c1 < |row| && 0 <= c2 < |row| && Struck(row[c1], ballX, ballY) && Struck(row[c2], ballX, ballY) ==> c1 == c2
    ensures RowStruckCount(row, ballX, ballY) <= 1
  {
    if |row| > 0 {
      var t := row[1..];
      assert forall c :: 0 <= c < |t| ==> t[c] == row[c + 1];
      if Struck(row[0], ballX, ballY) {
        RowNoneStruck(t, ballX, ballY);
      } else {
        RowStruckAtMostOne(t, ballX, ballY);
      }
    }
  }

  lemma {:induction false} StruckAtMostOne(g: Blocks, ballX: real, ballY: real)
    requires forall r1, c1, r2, c2 ::
               (0 <= r1 < |g| && 0 <= c1 < |g[r1]| && 0 <= r2 < |g| && 0 <= c2 < |g[r2]| &&
                Struck(g[r1][c1], ballX, ballY) && Struck(g[r2][c2], ballX, ballY)) ==> r1 == r2 && c1 == c2
    ensures StruckCount(g, ballX, ballY) <= 1
  {
    if |g| > 0 {
      var t := g[1..];
      assert forall r :: 0 <= r < |t| ==> t[r] == g[r + 1];
      RowStruckAtMostOne(g[0], ballX, ballY);
      if RowStruckCount(g[0], ballX, ballY) > 0 {
        RowNoneStruck(g[0], ballX, ballY);
        var c0 :| 0 <= c0 < |g[0]| && Struck(g[0][c0], ballX, ballY);
        NoneStruck(t, ballX, ballY);
      } else {
        StruckAtMostOne(t, ballX, ballY);
      }
    }
  }

  /** Blocks of the layout do not overlap, so one ball position strikes at most one block. */
  lemma LayoutStrikesAtMostOne(g: Blocks, rows: nat, columns: nat, ballX: real, ballY: real)
    requires IsLayout(g, rows, columns)
    ensures StruckCount(g, ballX, ballY) <= 1
  {
    forall r1, c1, r2, c2 | 0 <= r1 < |g| && 0 <= c1 < |g[r1]| && 0 <= r2 < |g| && 0 <= c2 < |g[r2]| &&
                            Struck(g[r1][c1], ballX, ballY) && Struck(g[r2][c2], ballX, ballY)
      ensures r1 == r2 && c1 == c2
    {
      LayoutCellsDisjoint(g, rows, columns, ballX, ballY, r1, c1, r2, c2);
    }
    StruckAtMostOne(g, ballX, ballY);
  }

  // ----- the block loop, one block at a time -----

  /** The grid once the loop has visited every block before row r, column c. */
  function PartlyStruck(g: Blocks, r: nat, c: nat, ballX: real, ballY: real): (p: Blocks)
    ensures |p| == |g| && forall i :: 0 <= i < |g| ==> |p[i]| == |g[i]|
  {
    seq(|g|, i requires 0 <= i < |g| =>
      seq(|g[i]|, j requires 0 <= j < |g[i]| =>
        if i < r || (i == r && j < c) then Strike(g[i][j], ballX, ballY) else g[i][j]))
  }

  /** Visiting the block at (r, c) marks it hit exactly when the ball strikes it. */
  lemma PartlyStruckStep(g: Blocks, r: nat, c: nat, ballX: real, ballY: real)
    requires r < |g| && c < |g[r]|
    ensures PartlyStruck(g, r, c, ballX, ballY)[r][c] == g[r][c]
    ensures Struck(g[r][c], ballX, ballY) ==>
              PartlyStruck(g, r, c + 1, ballX, ballY)
              == PartlyStruck(g, r, c, ballX, ballY)[r := PartlyStruck(g, r, c, ballX, ballY)[r][c := g[r][c].(isHit := true)]]
    ensures !Struck(g[r][c], ballX, ballY) ==>
              PartlyStruck(g, r, c + 1, ballX, ballY) == PartlyStruck(g, r, c, ballX, ballY)
  {
    var p := PartlyStruck(g, r, c, ballX, ballY);
    if Struck(g[r][c], ballX, ballY) {
      CellwiseEqual(PartlyStruck(g, r, c + 1, ballX, ballY), p[r := p[r][c := g[r][c].(isHit := true)]]);
    } else {
      CellwiseEqual(PartlyStruck(g, r, c + 1, ballX, ballY), p);
    }
  }

  /** Finishing a row is starting the next one; nothing visited is the grid itself; everything visited is StrikeAll. */
  lemma PartlyStruckBounds(g: Blocks, r: nat, ballX: real, ballY: real)
    requires r <= |g|
    ensures PartlyStruck(g, 0, 0, ballX, ballY) == g
    ensures PartlyStruck(g, |g|, 0, ballX, ballY) == StrikeAll(g, ballX, ballY)
    ensures r < |g| ==> PartlyStruck(g, r, |g[r]|, ballX, ballY) == PartlyStruck(g, r + 1, 0, ballX, ballY)
  {
    CellwiseEqual(PartlyStruck(g, 0, 0, ballX, ballY), g);
    CellwiseEqual(PartlyStruck(g, |g|, 0, ballX, ballY), StrikeAll(g, ballX, ballY));
    if r < |g| {
      CellwiseEqual(PartlyStruck(g, r, |g[r]|, ballX, ballY), PartlyStruck(g, r + 1, 0, ballX, ballY));
    }
  }
}
