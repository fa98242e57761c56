/**
 * The collision and speed controller: the collision-free tick counter that
 * the car's column and the bottom row's offset drive, and the lookup table
 * from that counter to a speed tier and the tick period it requests.
 */
module Speed {
  import opened Config
  import opened Render

  /** A speed tier (the digit shown beside the track) with its tick period in ms. */
  datatype Setting = Setting(tier: int, period: int)

  /** Counter values at which the speed changes, and the setting each selects. */
  const THRESHOLDS: seq<int> := [0, 10, 30, 50, 75]
  const SETTINGS: seq<Setting> :=
    [Setting(1, 1000), Setting(2, 750), Setting(3, 500), Setting(4, 250), Setting(5, 175)]

  /** One of the five settings of the table. */
  predicate SettingOk(sp: Setting)
  {
    sp == SETTINGS[0] || sp == SETTINGS[1] || sp == SETTINGS[2] || sp == SETTINGS[3] || sp == SETTINGS[4]
  }

  /** The setting a race starts with: the fastest tier, not the slowest. */
  const START: Setting := Setting(5, 175)

  /**
   * The off-track test for the car at column `x` against the bottom row's
   * offset `o`: left of or on the left wall, or past the open span.
   */
  predicate OffTrack(x: int, o: int)
  {
    x <= o || x >= o + TRACK_WIDTH + 1
  }

  /**
   * The collision-free counter after one check. It is a uint32, so a safe
   * tick increments it modulo 2^32. Off track, an established row resets it,
   * while a row with offset 0 leaves it as it was.
   */
  function CollisionFree(ts: int, x: int, o: int): (n: int)
    requires IsU32(ts)
    ensures IsU32(n)
  {
    if OffTrack(x, o) then
      if o != 0 then 0 else ts
    else
      (ts + 1) % U32_MOD
  }

  /**
   * The speed after SetSpeed: a counter equal to one of THRESHOLDS selects the
   * matching setting, any other counter keeps the current one.
   */
  function Lookup(ts: int, cur: Setting): (r: Setting)
    ensures forall k :: 0 <= k < |THRESHOLDS| && ts == THRESHOLDS[k] ==> r == SETTINGS[k]
    ensures ts !in THRESHOLDS ==> r == cur
    ensures cur in SETTINGS ==> r in SETTINGS
  {
    match ts
    case 0 => Setting(1, 1000)
    case 10 => Setting(2, 750)
    case 30 => Setting(3, 500)
    case 50 => Setting(4, 250)
    case 75 => Setting(5, 175)
    case _ => cur
  }

  /**
   * The step function of the counter: the setting of the largest threshold
   * not above `n`.
   */
  function TierFor(n: nat): (r: Setting)
    ensures exists k ::
              0 <= k < |THRESHOLDS| && THRESHOLDS[k] <= n && r == SETTINGS[k] &&
              (k + 1 == |THRESHOLDS| || n < THRESHOLDS[k + 1])
  {
    if n >= 75 then
      assert THRESHOLDS[4] <= n; SETTINGS[4]
    else if n >= 50 then
      assert THRESHOLDS[3] <= n < THRESHOLDS[4]; SETTINGS[3]
    else if n >= 30 then
      assert THRESHOLDS[2] <= n < THRESHOLDS[3]; SETTINGS[2]
    else if n >= 10 then
      assert THRESHOLDS[1] <= n < THRESHOLDS[2]; SETTINGS[1]
    else
      assert THRESHOLDS[0] <= n < THRESHOLDS[1]; SETTINGS[0]
  }

  /** The setting after SetSpeed has seen the counter values 0, 1, .., n in turn. */
  function SafeRun(cur: Setting, n: nat): Setting
  {
    if n == 0 then Lookup(0, cur) else Lookup(n, SafeRun(cur, n - 1))
  }

  /**
   * After a collision, a run of safe ticks climbs the tiers as a step
   * function of the counter: tier 1 (1000 ms) for counters 0 .. 9, tier 2
   * (750 ms) from 10, and so on up to tier 5 (175 ms) from 75, whatever the
   * setting was before.
   */
  lemma {:induction false} SafeRunIsStep(cur: Setting, n: nat)
    ensures SafeRun(cur, n) == TierFor(n)
  {
    if n > 0 {
      SafeRunIsStep(cur, n - 1);
    }
  }

  /** A higher counter never gives a slower setting. */
  lemma TierForMonotone(n: nat, m: nat)
    requires n <= m
    ensures TierFor(n).tier <= TierFor(m).tier
    ensures TierFor(n).period >= TierFor(m).period
  {
  }

  /**
   * A collision against an established row resets acceleration: the counter
   * drops to 0 and the following SetSpeed selects tier 1, period 1000.
   */
  lemma CollisionResetsSpeed(ts: int, x: int, o: int, cur: Setting)
    requires IsU32(ts) && o != 0 && OffTrack(x, o)
    ensures CollisionFree(ts, x, o) == 0
    ensures Lookup(CollisionFree(ts, x, o), cur) == Setting(1, 1000)
  {
  }

  /**
   * For an established bottom row the off-track test is exactly the
   * renderer's wall test at the car's column. For a row with offset 0 the
   * renderer shows open road everywhere, yet the test still reports columns
   * from TRACK_WIDTH + 1 on as off track.
   */
  lemma OffTrackIsWall(x: int, o: int)
    requires IsU8(o) && 1 <= x
    ensures o != 0 ==> (OffTrack(x, o) <==> Glyph(o, x) == WALL)
    ensures o == 0 ==> Glyph(o, x) == OPEN && (OffTrack(x, o) <==> x >= TRACK_WIDTH + 1)
  {
  }
}
