/** Compile-time configuration of the race and the C integer widths the state uses. */
module Config {

  /** Columns of the playing window (the border is drawn at column 0). */
  const WINDOW_WIDTH: int := 25
  /** Rows of the playing window; the car sits on row WINDOW_HEIGHT - 1. */
  const WINDOW_HEIGHT: int := 10
  /** Number of open columns in every established row of track. */
  const TRACK_WIDTH: int := 10
  /** Largest distance from the screen's left edge to the track's left wall. */
  const MAXSPACE: int := 7
  /** Number of ticks (the race distance) after which the race is finished. */
  const MAXCYCLES: int := 350

  const U8_MOD: int := 0x100
  const U32_MOD: int := 0x1_0000_0000

  predicate IsU8(n: int) { 0 <= n < U8_MOD }
  predicate IsU32(n: int) { 0 <= n < U32_MOD }

  function Max(a: int, b: int): int { if a < b then b else a }
  function Min(a: int, b: int): int { if a < b then a else b }
}
