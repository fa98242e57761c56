/**
 * The boundary-to-cell rule of the row renderer and the row-major sequence of
 * character draws one frame makes. The grid covers rows 1 .. WINDOW_HEIGHT - 1
 * and columns 1 .. WINDOW_WIDTH - 1; row y shows window entry y - 1.
 */
module Render {
  import opened Config

  const WALL: char := '-'
  const OPEN: char := ' '

  /** One call of the terminal's character plot: `glyph` at column `col`, row `row`. */
  datatype Draw = Draw(glyph: char, col: int, row: int)

  /**
   * The cell at column `x` of a row whose left wall offset is `o`: a wall up
   * to the offset and, for an established row, beyond the open span of
   * TRACK_WIDTH columns; an offset of 0 leaves the rest of the row open.
   */
  function Glyph(o: int, x: int): (g: char)
    requires IsU8(o)
    ensures g == WALL || g == OPEN
    ensures g == WALL <==> x <= o || (o != 0 && x > o + TRACK_WIDTH)
  {
    if x <= o then WALL
    else if o <= 0 then OPEN
    else if x <= o + TRACK_WIDTH then OPEN
    else WALL
  }

  /** Every offset of the window is a uint8 value. */
  predicate AllU8(w: seq<int>)
  {
    forall k :: 0 <= k < |w| ==> IsU8(w[k])
  }

  /** The draws of row `y`, columns 1 .. WINDOW_WIDTH - 1 from left to right. */
  function RowDraws(o: int, y: int): seq<Draw>
    requires IsU8(o)
  {
    seq(WINDOW_WIDTH - 1, j => Draw(Glyph(o, j + 1), j + 1, y))
  }

  /** The draws of the first `n` rows of the grid, row after row. */
  function FrameRows(w: seq<int>, n: nat): seq<Draw>
    requires n <= |w| && AllU8(w)
  {
    if n == 0 then [] else FrameRows(w, n - 1) + RowDraws(w[n - 1], n)
  }

  /** The draws of a whole frame of the track window. */
  function Frame(w: seq<int>): seq<Draw>
    requires |w| == WINDOW_HEIGHT - 1 && AllU8(w)
  {
    FrameRows(w, |w|)
  }

  /**
   * The frame is row-major: draw number k paints column k % 24 + 1 of row
   * k / 24 + 1 with the cell rule applied to that row's offset.
   */
  lemma {:induction false} FrameRowsAt(w: seq<int>, n: nat, k: int)
    requires n <= |w| && AllU8(w)
    requires 0 <= k < (WINDOW_WIDTH - 1) * n
    ensures |FrameRows(w, n)| == (WINDOW_WIDTH - 1) * n
    ensures var col, row := k % (WINDOW_WIDTH - 1) + 1, k / (WINDOW_WIDTH - 1) + 1;
      FrameRows(w, n)[k] == Draw(Glyph(w[row - 1], col), col, row)
  {
    if k < (WINDOW_WIDTH - 1) * (n - 1) {
      FrameRowsAt(w, n - 1, k);
    } else {
      if n > 1 {
        FrameRowsAt(w, n - 1, 0);
      }
      assert |FrameRows(w, n - 1)| == (WINDOW_WIDTH - 1) * (n - 1);
      var j := k - (WINDOW_WIDTH - 1) * (n - 1);
      assert k / (WINDOW_WIDTH - 1) == n - 1 && k % (WINDOW_WIDTH - 1) == j;
      assert FrameRows(w, n)[k] == RowDraws(w[n - 1], n)[j];
    }
  }

  /** Number of open cells among columns 1 .. n of a row with offset `o`. */
  function OpenCells(o: int, n: nat): nat
    requires IsU8(o)
  {
    if n == 0 then 0 else OpenCells(o, n - 1) + (if Glyph(o, n) == OPEN then 1 else 0)
  }

  /**
   * Columns 1 .. n of a row hold an open span starting right after the
   * offset: all n columns when the row is not established, otherwise the
   * part of [o + 1, o + TRACK_WIDTH] that lies within 1 .. n.
   */
  lemma {:induction false} OpenCellsSpan(o: int, n: nat)
    requires IsU8(o)
    ensures o == 0 ==> OpenCells(o, n) == n
    ensures o > 0 ==> OpenCells(o, n) == Max(0, Min(n, o + TRACK_WIDTH) - o)
  {
    if n > 0 {
      OpenCellsSpan(o, n - 1);
    }
  }

  /**
   * Every established row fits the window: its open span [o + 1, o + TRACK_WIDTH]
   * lies within columns 1 .. WINDOW_WIDTH - 1, so the row has exactly
   * TRACK_WIDTH open cells; a row with offset 0 is open across the window.
   */
  lemma RowOpenCells(o: int)
    requires o == 0 || 2 <= o <= MAXSPACE
    ensures MAXSPACE + TRACK_WIDTH < WINDOW_WIDTH - 1
    ensures o != 0 ==> 1 <= o + 1 && o + TRACK_WIDTH <= WINDOW_WIDTH - 1
    ensures OpenCells(o, WINDOW_WIDTH - 1) == if o == 0 then WINDOW_WIDTH - 1 else TRACK_WIDTH
  {
    OpenCellsSpan(o, WINDOW_WIDTH - 1);
  }
}
