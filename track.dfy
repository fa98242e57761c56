/**
 * The track generator: a window of WINDOW_HEIGHT - 1 left-wall offsets
 * (`leftLimits`), index 0 being the newest row and the last index the row
 * that is about to reach the car. Each tick the window moves one row toward
 * the car and a new leading offset is drawn within two columns of the old one.
 */
module Track {
  import opened Config

  /** The window as the program starts: a seeded leader and not-yet-established rows. */
  const INITIAL_WINDOW: seq<int> := [7, 0, 0, 0, 0, 0, 0, 0, 0]

  /**
   * What every tick keeps true of the window: the leader is an established
   * offset, every entry is either 0 (row not established yet) or in
   * [2, MAXSPACE], a row behind an unestablished row is unestablished too,
   * and neighbouring established rows differ by at most two columns.
   */
  ghost predicate WindowOk(w: seq<int>)
  {
    |w| == WINDOW_HEIGHT - 1 &&
    2 <= w[0] <= MAXSPACE &&
    (forall k :: 0 <= k < |w| ==> w[k] == 0 || 2 <= w[k] <= MAXSPACE) &&
    (forall k :: 0 <= k < |w| - 1 ==> Neighbours(w, k))
  }

  /**
   * Rows k and k + 1 of the window: behind an unestablished row the next row
   * is unestablished too, and two established rows differ by at most two.
   */
  ghost predicate Neighbours(w: seq<int>, k: int)
    requires 0 <= k < |w| - 1
  {
    (w[k] == 0 ==> w[k + 1] == 0) && (w[k + 1] != 0 ==> -2 <= w[k] - w[k + 1] <= 2)
  }

  /** In a valid window the unestablished rows (offset 0) form a suffix. */
  lemma {:induction false} ZerosFormSuffix(w: seq<int>, j: int, k: int)
    requires WindowOk(w)
    requires 0 <= j <= k < |w| && w[j] == 0
    ensures w[k] == 0
    decreases k - j
  {
    if j < k {
      assert Neighbours(w, j);
      ZerosFormSuffix(w, j + 1, k);
    }
  }

  /**
   * Lower bound handed to random_int: `uint8_t min = prev - 2`, raised to 2
   * when it is at most 2. The subtraction wraps modulo 256, so only a
   * previous leader of at least 2 gives the intended max(prev - 2, 2).
   */
  function DrawLow(prev: int): (lo: int)
    requires IsU8(prev)
    ensures IsU8(lo)
    ensures 2 <= prev ==> lo == Max(prev - 2, 2)
    ensures prev < 2 ==> lo == prev + U8_MOD - 2
  {
    var m := (prev - 2) % U8_MOD;
    if m <= 2 then 2 else m
  }

  /**
   * Upper bound handed to random_int: `uint8_t max = prev + 2`, lowered to
   * MAXSPACE when it is at least MAXSPACE.
   */
  function DrawHigh(prev: int): (hi: int)
    requires IsU8(prev)
    ensures IsU8(hi) && hi <= MAXSPACE
    ensures prev + 2 < U8_MOD ==> hi == Min(prev + 2, MAXSPACE)
  {
    var m := (prev + 2) % U8_MOD;
    if m >= MAXSPACE then MAXSPACE else m
  }

  /**
   * The window after one generator step: every row moves one place toward
   * the car, the row the car has passed is dropped, and `r` leads.
   */
  function Shifted(w: seq<int>, r: int): (v: seq<int>)
    requires |w| > 0
    ensures |v| == |w|
    ensures v[0] == r
    ensures forall k :: 0 < k < |v| ==> v[k] == w[k - 1]
  {
    [r] + w[..|w| - 1]
  }

  /**
   * Under the window invariant the draw range is never empty and lies within
   * two columns of the leader and inside [2, MAXSPACE]; any value drawn from
   * it keeps the invariant.
   */
  lemma {:induction false} ShiftKeepsWindow(w: seq<int>, r: int)
    requires WindowOk(w)
    requires DrawLow(w[0]) <= r <= DrawHigh(w[0])
    ensures DrawLow(w[0]) <= DrawHigh(w[0])
    ensures 2 <= r <= MAXSPACE && -2 <= r - w[0] <= 2
    ensures WindowOk(Shifted(w, r))
  {
    var v := Shifted(w, r);
    forall k | 0 <= k < |v| - 1
      ensures Neighbours(v, k)
    {
      if k > 0 {
        assert Neighbours(w, k - 1);
      }
    }
  }

  /** Without an established leader the uint8 bounds wrap and no value can be drawn. */
  lemma UnseededDrawIsEmpty(prev: int)
    requires 0 <= prev < 2
    ensures DrawLow(prev) > DrawHigh(prev)
  {
  }
}
