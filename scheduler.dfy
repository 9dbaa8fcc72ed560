/**
 * The incremental render scheduler: a row-major `height x width` colour grid
 * filled in place, a fixed number of cells per display tick, by a cursor into
 * raster order that restarts the scan once the grid is complete.
 */
module Scheduler {
  import opened Colors

  /** The raster-order offset of cell `(x, y)`: row-major, `y` rows of `width` before it. */
  function RasterIndex(x: nat, y: nat, width: nat): nat
    requires x < width
  {
    y * width + x
  }

  /** Decomposing a raster offset gives its cell back. */
  lemma RasterDecompose(x: nat, y: nat, width: nat)
    requires x < width
    ensures RasterIndex(x, y, width) / width == y && RasterIndex(x, y, width) % width == x
  {
    DivModUnique(y * width + x, width, y, x);
  }

  /** Distinct cells have distinct raster offsets. */
  lemma RasterInjective(x1: nat, y1: nat, x2: nat, y2: nat, width: nat)
    requires x1 < width && x2 < width
    requires RasterIndex(x1, y1, width) == RasterIndex(x2, y2, width)
    ensures x1 == x2 && y1 == y2
  {
    RasterDecompose(x1, y1, width);
    RasterDecompose(x2, y2, width);
  }

  /** Division by a positive divisor is determined by quotient and remainder. */
  lemma DivModUnique(p: int, width: int, q: int, r: int)
    requires width > 0 && 0 <= r < width && p == q * width + r
    ensures p / width == q && p % width == r
  {
    var q' := p / width;
    var r' := p % width;
    assert p == q' * width + r' && 0 <= r' < width;
    if q' < q {
      MulLe(q' + 1, q, width);
      assert false;
    } else if q < q' {
      MulLe(q + 1, q', width);
      assert false;
    }
  }

  lemma MulLe(a: int, b: int, w: int)
    requires a <= b && w >= 0
    ensures a * w <= b * w
  {
    assert b * w - a * w == (b - a) * w;
  }

  /**
   * A cursor inside the frame decomposes into a cell: the column is the
   * remainder, the row the quotient, both in range, and recomposing them
   * gives the cursor back.
   */
  lemma RasterCell(p: nat, width: nat, height: nat)
    requires p < width * height
    ensures width > 0
    ensures p % width < width && p / width < height
    ensures RasterIndex(p % width, p / width, width) == p
  {
    if width == 0 {
      assert false;
    }
    var q := p / width;
    assert p == q * width + p % width;
    if q >= height {
      MulLe(height, q, width);
      assert false;
    }
  }

  /** A cell in the grid has a raster offset inside the frame. */
  lemma RasterInFrame(x: nat, y: nat, width: nat, height: nat)
    requires x < width && y < height
    ensures RasterIndex(x, y, width) < width * height
  {
    assert y * width <= (height - 1) * width;
  }

  /** How many cells a tick from cursor `c` writes: the budget, or what is left of the frame. */
  function TickCount(c: nat, batch: nat, n: nat): (k: nat)
    requires c <= n
    ensures k <= batch && c + k <= n
    ensures k < batch ==> c + k == n
  {
    if c + batch <= n then batch else n - c
  }

  /**
   * The cursor after a tick. A tick whose budget runs out at or before the
   * end of the frame leaves the cursor after the last cell written; a tick
   * that still has budget when the cursor reaches the end resets it to 0.
   */
  function NextCursor(c: nat, batch: nat, n: nat): (r: nat)
    requires c <= n
    ensures r <= n
    ensures c + batch <= n ==> r == c + TickCount(c, batch, n)
    ensures c + batch > n ==> r == 0
  {
    if c + batch <= n then c + batch else 0
  }

  class Renderer {
    const width: nat
    const height: nat
    /** The number of loop iterations a tick may run. */
    const batch: nat
    /** Row-major colour grid, indexed `[y, x]`. */
    const grid: array2<Color>
    /** The next raster offset to compute, in `[0, width * height]`. */
    var cursor: nat

    ghost predicate Valid()
      reads this
    {
      grid.Length0 == height && grid.Length1 == width && cursor <= width * height
    }

    /** A black grid with the cursor at the start of the frame. */
    constructor (width: nat, height: nat, batch: nat)
      ensures Valid() && fresh(grid)
      ensures this.width == width && this.height == height && this.batch == batch
      ensures cursor == 0
      ensures forall y, x :: 0 <= y < height && 0 <= x < width ==> grid[y, x] == BLACK
    {
      this.width := width;
      this.height := height;
      this.batch := batch;
      grid := new Color[height, width]((y, x) => BLACK);
      cursor := 0;
    }

    /**
     * One display tick: up to `batch` iterations, each either finding the
     * frame complete (then the cursor returns to 0 and the tick ends, nothing
     * written) or computing the cell at the cursor with `pixel(x, y)` and
     * advancing the cursor by one. `written` lists the raster offsets written,
     * in order: consecutive from the old cursor, so each cell at most once.
     */
    method Tick(pixel: (nat, nat) -> Color) returns (ghost written: seq<nat>)
      requires Valid()
      modifies this`cursor, grid
      ensures Valid()
      ensures |written| == TickCount(old(cursor), batch, width * height)
      ensures forall k :: 0 <= k < |written| ==> written[k] == old(cursor) + k
      ensures cursor == NextCursor(old(cursor), batch, width * height)
      ensures forall y, x :: 0 <= y < height && 0 <= x < width ==>
                grid[y, x] == if old(cursor) <= RasterIndex(x, y, width) < old(cursor) + |written|
                              then pixel(x, y) else old(grid[y, x])
    {
      var n := width * height;
      ghost var start := cursor;
      written := [];
      for i := 0 to batch
        invariant cursor == start + i <= n
        invariant |written| == i
        invariant forall k :: 0 <= k < i ==> written[k] == start + k
        invariant forall y, x :: 0 <= y < height && 0 <= x < width ==>
                    grid[y, x] == if start <= RasterIndex(x, y, width) < cursor
                                  then pixel(x, y) else old(grid[y, x])
      {
        if cursor >= n {
          cursor := 0;
          break;
        }
        label Before:
        PaintNext(pixel);
        forall yy, xx | 0 <= yy < height && 0 <= xx < width
          ensures grid[yy, xx] == if start <= RasterIndex(xx, yy, width) < cursor + 1
                                  then pixel(xx, yy) else old(grid[yy, xx])
        {
          assert grid[yy, xx] == if RasterIndex(xx, yy, width) == cursor then pixel(xx, yy)
                                 else old@Before(grid[yy, xx]);
        }
        written := written + [cursor];
        cursor := cursor + 1;
      }
    }

    /**
     * The body of a non-resetting iteration, the cursor update aside: the
     * cell at the cursor, and no other, receives its computed colour.
     */
    method PaintNext(pixel: (nat, nat) -> Color)
      requires Valid() && cursor < width * height
      modifies grid
      ensures forall y, x :: 0 <= y < height && 0 <= x < width ==>
                grid[y, x] == if RasterIndex(x, y, width) == cursor
                              then pixel(x, y) else old(grid[y, x])
    {
      RasterCell(cursor, width, height);
      var x := cursor % width;
      var y := cursor / width;
      grid[y, x] := pixel(x, y);
      forall yy, xx | 0 <= yy < height && 0 <= xx < width && RasterIndex(xx, yy, width) == cursor
        ensures yy == y && xx == x
      {
        RasterInjective(xx, yy, x, y, width);
      }
    }
  }

  /** The cursor after `k` ticks of budget `batch` from the start of a frame of `n` cells. */
  function CursorAfter(batch: nat, n: nat, k: nat): (c: nat)
    ensures c <= n
  {
    if k == 0 then 0 else NextCursor(CursorAfter(batch, n, k - 1), batch, n)
  }

  /** While the budget spent stays within the frame, the cursor is the budget spent. */
  lemma {:induction false} CursorAfterWithinFrame(batch: nat, n: nat, k: nat)
    requires k * batch <= n
    ensures CursorAfter(batch, n, k) == k * batch
  {
    if k > 0 {
      assert (k - 1) * batch <= k * batch;
      CursorAfterWithinFrame(batch, n, k - 1);
      assert (k - 1) * batch + batch == k * batch;
    }
  }

  /**
   * Coverage: with a positive budget, every cell of the frame is written by
   * tick number `p / batch` of a scan started at cursor 0.
   */
  lemma CellWrittenInScan(batch: nat, n: nat, p: nat)
    requires batch > 0 && p < n
    ensures var c := CursorAfter(batch, n, p / batch);
            c <= p < c + TickCount(c, batch, n)
  {
    var i := p / batch;
    assert p == i * batch + p % batch;
    CursorAfterWithinFrame(batch, n, i);
  }

  /**
   * With a positive budget the cursor first returns to 0 after exactly
   * `n / batch + 1` ticks: every earlier tick ends with it past the start.
   */
  lemma ScanReturnsToStart(batch: nat, n: nat)
    requires batch > 0
    ensures CursorAfter(batch, n, n / batch + 1) == 0
    ensures forall k :: 0 < k <= n / batch ==> CursorAfter(batch, n, k) == k * batch > 0
  {
    var m := n / batch;
    assert n == m * batch + n % batch;
    forall k | 0 < k <= m
      ensures CursorAfter(batch, n, k) == k * batch > 0
    {
      MulLe(k, m, batch);
      MulLe(1, k, batch);
      CursorAfterWithinFrame(batch, n, k);
    }
    CursorAfterWithinFrame(batch, n, m);
    assert m * batch + batch > n;
  }

  /**
   * With the budget equal to the frame size, a tick from 0 writes every cell
   * and leaves the cursor at the end; the tick after writes nothing and only
   * resets the cursor; so the cursor alternates with period two.
   */
  lemma FullFrameBudget(n: nat)
    requires n > 0
    ensures TickCount(0, n, n) == n && NextCursor(0, n, n) == n
    ensures TickCount(n, n, n) == 0 && NextCursor(n, n, n) == 0
    ensures forall k :: CursorAfter(n, n, k) == if k % 2 == 0 then 0 else n
  {
    forall k ensures CursorAfter(n, n, k) == if k % 2 == 0 then 0 else n {
      FullFrameAlternates(n, k);
    }
  }

  lemma {:induction false} FullFrameAlternates(n: nat, k: nat)
    requires n > 0
    ensures CursorAfter(n, n, k) == if k % 2 == 0 then 0 else n
  {
    if k > 0 {
      FullFrameAlternates(n, k - 1);
    }
  }
}
