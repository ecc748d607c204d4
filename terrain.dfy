/** The terrain: a layout of text rows in which every 'X' marks a block.
    The screen is divided into as many columns as the first row has
    characters and as many rows as the layout has lines. */
module Terrain {
  import opened Geometry

  /** `Block(x, y, width, height)`: the box of size
      `(ceil(width), ceil(height))` whose top-left corner is (x, y). */
  function Block(x: real, y: real, width: real, height: real): (r: Rect)
    ensures r.x == x && r.y == y
    ensures width <= r.w < width + 1.0 && height <= r.h < height + 1.0
  {
    CeilBounds(width);
    CeilBounds(height);
    Rect(x, y, Ceil(width) as real, Ceil(height) as real)
  }

  /** The block of the cell at column `c` and row `r` of a grid of
      `width` x `height` cells. */
  function CellBlock(c: nat, r: nat, width: real, height: real): Rect {
    Block((c as real) * width, (r as real) * height, width, height)
  }

  /** The size of one cell of the layout. */
  function CellWidth(layout: seq<string>): real
    requires |layout| > 0 && |layout[0]| > 0
  {
    WIDTH / (|layout[0]| as real)
  }

  function CellHeight(layout: seq<string>): real
    requires |layout| > 0
  {
    HEIGHT / (|layout| as real)
  }

  /** The blocks of one line, left to right. */
  function RowBlocks(line: string, row: nat, width: real, height: real): seq<Rect>
    decreases |line|
  {
    if line == [] then []
    else
      var c := |line| - 1;
      RowBlocks(line[..c], row, width, height) +
      (if line[c] == 'X' then [CellBlock(c, row, width, height)] else [])
  }

  /** The blocks of the whole layout, line by line. */
  function GridBlocks(layout: seq<string>, width: real, height: real): seq<Rect>
    decreases |layout|
  {
    if layout == [] then []
    else
      var r := |layout| - 1;
      GridBlocks(layout[..r], width, height) + RowBlocks(layout[r], r, width, height)
  }

  /** The number of cells marked 'X'. */
  function Marked(layout: seq<string>): nat
    decreases |layout|
  {
    if layout == [] then 0 else Marked(layout[..|layout| - 1]) + multiset(layout[|layout| - 1])['X']
  }

  /** One block per 'X' of the line. */
  lemma {:induction false} RowBlocksCount(line: string, row: nat, width: real, height: real)
    ensures |RowBlocks(line, row, width, height)| == multiset(line)['X']
    decreases |line|
  {
    if line != [] {
      var c := |line| - 1;
      RowBlocksCount(line[..c], row, width, height);
      assert line == line[..c] + [line[c]];
      assert multiset(line) == multiset(line[..c]) + multiset{line[c]};
    }
  }

  /** Every block of the line is the one of an 'X' at its column. */
  lemma {:induction false} RowBlocksSound(line: string, row: nat, width: real, height: real, b: Rect)
    requires b in RowBlocks(line, row, width, height)
    ensures exists c :: 0 <= c < |line| && line[c] == 'X' && b == CellBlock(c, row, width, height)
    decreases |line|
  {
    var c := |line| - 1;
    var init := line[..c];
    if b in RowBlocks(init, row, width, height) {
      RowBlocksSound(init, row, width, height, b);
      var k :| 0 <= k < |init| && init[k] == 'X' && b == CellBlock(k, row, width, height);
      assert line[k] == init[k];
    } else {
      assert line[c] == 'X' && b == CellBlock(c, row, width, height);
    }
  }

  /** The 'X' at column `c` has its block among the line's blocks. */
  lemma {:induction false} RowBlocksComplete(line: string, row: nat, width: real, height: real, c: nat)
    requires c < |line| && line[c] == 'X'
    ensures CellBlock(c, row, width, height) in RowBlocks(line, row, width, height)
    decreases |line|
  {
    var last := |line| - 1;
    if c < last {
      assert line[..last][c] == line[c];
      RowBlocksComplete(line[..last], row, width, height, c);
    }
  }

  /** One block per 'X' of the line, and every block is the one of an 'X'
      at its column. */
  lemma RowBlocksMeaning(line: string, row: nat, width: real, height: real)
    ensures |RowBlocks(line, row, width, height)| == multiset(line)['X']
    ensures forall b :: b in RowBlocks(line, row, width, height) <==>
      exists c :: 0 <= c < |line| && line[c] == 'X' &&
                  b == CellBlock(c, row, width, height)
  {
    RowBlocksCount(line, row, width, height);
    forall b | b in RowBlocks(line, row, width, height)
      ensures exists c :: 0 <= c < |line| && line[c] == 'X' && b == CellBlock(c, row, width, height)
    {
      RowBlocksSound(line, row, width, height, b);
    }
    forall c | 0 <= c < |line| && line[c] == 'X'
      ensures CellBlock(c, row, width, height) in RowBlocks(line, row, width, height)
    {
      RowBlocksComplete(line, row, width, height, c);
    }
  }

  /** One block per 'X' of the layout. */
  lemma {:induction false} GridBlocksCount(layout: seq<string>, width: real, height: real)
    ensures |GridBlocks(layout, width, height)| == Marked(layout)
    decreases |layout|
  {
    if layout != [] {
      var r := |layout| - 1;
      GridBlocksCount(layout[..r], width, height);
      RowBlocksCount(layout[r], r, width, height);
    }
  }

  /** Every block of the layout is the one of an 'X' at its row and column. */
  lemma {:induction false} GridBlocksSound(layout: seq<string>, width: real, height: real, b: Rect)
    requires b in GridBlocks(layout, width, height)
    ensures exists r, c :: 0 <= r < |layout| && 0 <= c < |layout[r]| && layout[r][c] == 'X' &&
                           b == CellBlock(c, r, width, height)
    decreases |layout|
  {
    var r := |layout| - 1;
    var init := layout[..r];
    if b in GridBlocks(init, width, height) {
      GridBlocksSound(init, width, height, b);
      var i, c :| 0 <= i < |init| && 0 <= c < |init[i]| && init[i][c] == 'X' &&
                  b == CellBlock(c, i, width, height);
      assert layout[i] == init[i];
    } else {
      RowBlocksSound(layout[r], r, width, height, b);
    }
  }

  /** The 'X' at row `r` and column `c` has its block among the layout's
      blocks. */
  lemma {:induction false} GridBlocksComplete(layout: seq<string>, width: real, height: real, r: nat, c: nat)
    requires r < |layout| && c < |layout[r]| && layout[r][c] == 'X'
    ensures CellBlock(c, r, width, height) in GridBlocks(layout, width, height)
    decreases |layout|
  {
    var last := |layout| - 1;
    if r < last {
      assert layout[..last][r] == layout[r];
      GridBlocksComplete(layout[..last], width, height, r, c);
    } else {
      RowBlocksComplete(layout[r], r, width, height, c);
    }
  }

  /** One block per 'X' of the layout, and every block is the one of an 'X'
      at its row and column. */
  lemma GridBlocksMeaning(layout: seq<string>, width: real, height: real)
    ensures |GridBlocks(layout, width, height)| == Marked(layout)
    ensures forall b :: b in GridBlocks(layout, width, height) <==>
      exists r, c :: 0 <= r < |layout| && 0 <= c < |layout[r]| && layout[r][c] == 'X' &&
                     b == CellBlock(c, r, width, height)
  {
    GridBlocksCount(layout, width, height);
    forall b | b in GridBlocks(layout, width, height)
      ensures exists r, c :: 0 <= r < |layout| && 0 <= c < |layout[r]| && layout[r][c] == 'X' &&
                             b == CellBlock(c, r, width, height)
    {
      GridBlocksSound(layout, width, height, b);
    }
    forall r, c | 0 <= r < |layout| && 0 <= c < |layout[r]| && layout[r][c] == 'X'
      ensures CellBlock(c, r, width, height) in GridBlocks(layout, width, height)
    {
      GridBlocksComplete(layout, width, height, r, c);
    }
  }

  /** A cell of a rectangular layout starts on the screen: the block of
      column `c` of `n` and row `r` of `m` has its top-left corner in
      [0, WIDTH) x [0, HEIGHT). */
  lemma CellOnScreen(c: nat, n: nat, r: nat, m: nat)
    requires c < n && r < m
    ensures var b := CellBlock(c, r, WIDTH / (n as real), HEIGHT / (m as real));
      0.0 <= b.Left() < WIDTH && 0.0 <= b.Top() < HEIGHT
  {
    var w := WIDTH / (n as real);
    var h := HEIGHT / (m as real);
    assert (n as real) * w == WIDTH;
    assert (m as real) * h == HEIGHT;
    assert (n as real) * w - (c as real) * w == ((n - c) as real) * w;
    assert (m as real) * h - (r as real) * h == ((m - r) as real) * h;
  }

  /** When every line is as long as the first, every block's top-left
      corner lies on the screen, in [0, WIDTH) x [0, HEIGHT). */
  lemma BlocksOnScreen(layout: seq<string>)
    requires |layout| > 0 && |layout[0]| > 0
    requires forall r :: 0 <= r < |layout| ==> |layout[r]| == |layout[0]|
    ensures forall b :: b in GridBlocks(layout, CellWidth(layout), CellHeight(layout)) ==>
      0.0 <= b.Left() < WIDTH && 0.0 <= b.Top() < HEIGHT
  {
    var width, height := CellWidth(layout), CellHeight(layout);
    GridBlocksMeaning(layout, width, height);
    forall b | b in GridBlocks(layout, width, height)
      ensures 0.0 <= b.Left() < WIDTH && 0.0 <= b.Top() < HEIGHT
    {
      var r, c :| 0 <= r < |layout| && 0 <= c < |layout[r]| && layout[r][c] == 'X' &&
                  b == CellBlock(c, r, width, height);
      CellOnScreen(c, |layout[0]|, r, |layout|);
    }
  }

  /** The terrain group: its blocks. */
  class Terrain {
    var blocks: seq<Rect>

    /** `Terrain.__init__`: one block per 'X', visited line by line and left
        to right. */
    constructor (layout: seq<string>)
      requires |layout| > 0 && |layout[0]| > 0
      ensures blocks == GridBlocks(layout, CellWidth(layout), CellHeight(layout))
    {
      var width := WIDTH / (|layout[0]| as real);
      var height := HEIGHT / (|layout| as real);
      var added: seq<Rect> := [];
      for r := 0 to |layout|
        invariant added == GridBlocks(layout[..r], width, height)
      {
        assert layout[..r + 1][..r] == layout[..r];
        var line := layout[r];
        for c := 0 to |line|
          invariant added == GridBlocks(layout[..r], width, height) + RowBlocks(line[..c], r, width, height)
        {
          assert line[..c + 1][..c] == line[..c];
          if line[c] == 'X' {
            added := added + [CellBlock(c, r, width, height)];
          }
        }
        assert line[..|line|] == line;
      }
      assert layout[..|layout|] == layout;
      blocks := added;
    }
  }

  /** Building a terrain: an empty layout fails on `terrain[0]`
      (IndexError) and an empty first line on the division by its length
      (ZeroDivisionError). */
  method NewTerrain(layout: seq<string>) returns (r: Result<Terrain>)
    ensures r.Err? <==> |layout| == 0 || |layout[0]| == 0
    ensures |layout| == 0 ==> r == Err("IndexError")
    ensures r.Ok? ==> fresh(r.value) && r.value.blocks == GridBlocks(layout, CellWidth(layout), CellHeight(layout))
  {
    if |layout| == 0 {
      return Err("IndexError");
    }
    if |layout[0]| == 0 {
      return Err("ZeroDivisionError");
    }
    var t := new Terrain(layout);
    return Ok(t);
  }
}
