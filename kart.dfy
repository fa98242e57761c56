/**
 * The race session: the game record that Play, the periodic drawTrack tick
 * and the key receiver update in place, and the global `leftLimits` window.
 */
module Kart {
  import opened Config
  import opened Track
  import opened Render
  import opened Speed

  /** What a key press asks for. */
  datatype Key = Left | Right | Ignored

  /** Keys that move the car: 'a' ',' 'A' '<' to the left, 'd' 'D' '.' '>' to the right. */
  const LEFT_KEYS: set<char> := {'a', ',', 'A', '<'}
  const RIGHT_KEYS: set<char> := {'d', 'D', '.', '>'}

  /** The receiver's decoding of one input byte; every other byte is ignored. */
  function Decode(key: char): (k: Key)
    ensures k == Left <==> key in LEFT_KEYS
    ensures k == Right <==> key in RIGHT_KEYS
  {
    match key
    case 'a' | ',' | 'A' | '<' => Left
    case 'd' | 'D' | '.' | '>' => Right
    case _ => Ignored
  }

  /**
   * The race time in seconds, from uint32 millisecond timestamps: the
   * difference is taken modulo 2^32, so a finish time below the start time
   * counts as one wrap of the clock.
   */
  function Elapsed(st: int, ft: int): (t: int)
    requires IsU32(st) && IsU32(ft)
    ensures IsU32(t) && t < U32_MOD / 1000 + 1
    ensures st <= ft ==> t == (ft - st) / 1000
    ensures ft < st ==> t == (ft - st + U32_MOD) / 1000
  {
    ((ft - st) % U32_MOD) / 1000
  }

  /** The tier digit shown at column WINDOW_WIDTH + 1 of row 1. */
  function Digit(ss: int): (d: char)
    requires 0 <= ss <= 9
    ensures '0' <= d <= '9' && d as int - '0' as int == ss
  {
    (ss + '0' as int) as char
  }

  /**
   * The game record (`struct mario_kart`) and the track window. Widths of
   * the C fields: x, ss are uint8, s, i uint16, ts, st, ft, t uint32. The
   * host scheduler is represented by `scheduled` (the drawTrack task is
   * registered) together with `s`, the period most recently requested; the
   * terminal background is `alert` (red) or not (black).
   */
  class Game {
    var x: int
    var c: char
    var s: int
    var ts: int
    var st: int
    var ft: int
    var ss: int
    var t: int
    var i: int
    var alert: bool
    var scheduled: bool
    /** Play has run at least once. */
    ghost var started: bool
    /** The window is global and outlives races: Play does not reset it. */
    const leftLimits: array<int>

    /** The window invariant; it depends on the array alone, not on the record. */
    ghost predicate WindowValid()
      reads leftLimits
    {
      leftLimits.Length == WINDOW_HEIGHT - 1 && WindowOk(leftLimits[..])
    }

    /**
     * The record as every operation leaves it, except that a tick may reach
     * MAXCYCLES just before it cancels itself. `st` is never assigned.
     */
    ghost predicate Consistent()
      reads this, leftLimits
    {
      WindowValid() &&
      0 <= x <= WINDOW_WIDTH - 1 &&
      IsU32(ts) && st == 0 && IsU32(ft) && IsU32(t) &&
      0 <= i <= MAXCYCLES &&
      (started ==> 1 <= x && SettingOk(Setting(ss, s))) &&
      (scheduled ==> started)
    }

    /** The object invariant: in addition, no tick is scheduled once the race is over. */
    ghost predicate Valid()
      reads this, leftLimits
    {
      Consistent() && (scheduled ==> i < MAXCYCLES)
    }

    /** The program's static state before any race: zeroed record, seeded window. */
    constructor ()
      ensures Valid() && fresh(leftLimits)
      ensures leftLimits[..] == INITIAL_WINDOW
      ensures x == 0 && s == 0 && ts == 0 && st == 0 && ft == 0 && ss == 0 && t == 0 && i == 0
      ensures !alert && !scheduled && !started
    {
      leftLimits := new int[WINDOW_HEIGHT - 1](k => if k == 0 then 7 else 0);
      x, c, s, ts, st, ft, ss, t, i := 0, 0 as char, 0, 0, 0, 0, 0, 0, 0;
      alert, scheduled, started := false, false, false;
      new;
      assert leftLimits[..] == INITIAL_WINDOW;
    }

    /**
     * Starts a race: the car at column 12, tier 5 with period 175, the tick
     * count at 0, the clock reading stored in `ts` (not in `st`), the
     * background black and the drawTrack task scheduled.
     */
    method Play(now: int)
      requires Valid() && IsU32(now)
      modifies this
      ensures Valid() && started && scheduled && !alert
      ensures x == 12 && c == '^' && Setting(ss, s) == START && i == 0 && ts == now
      ensures st == old(st) && ft == old(ft) && t == old(t)
      ensures leftLimits[..] == old(leftLimits[..])
    {
      alert := false;
      x, c := 12, '^';
      ss, s := 5, 175;
      i := 0;
      ts := now;
      started := true;
      scheduled := true;
    }

    /**
     * One generator step: shifts the window one row toward the car in place,
     * then stores the new leader `r`, which the caller draws uniformly from
     * [DrawLow(p), DrawHigh(p)] for the previous leader p.
     */
    method NewTrackWidth(r: int)
      requires Valid()
      requires DrawLow(leftLimits[0]) <= r <= DrawHigh(leftLimits[0])
      modifies leftLimits
      ensures Valid()
      ensures leftLimits[..] == Shifted(old(leftLimits[..]), r)
    {
      ShiftKeepsWindow(leftLimits[..], r);
      var y := WINDOW_HEIGHT - 2;
      while y > 0
        invariant 0 <= y <= WINDOW_HEIGHT - 2
        invariant forall k :: 0 <= k <= y ==> leftLimits[k] == old(leftLimits[k])
        invariant forall k :: y < k < leftLimits.Length ==> leftLimits[k] == old(leftLimits[k - 1])
      {
        leftLimits[y] := leftLimits[y - 1];
        y := y - 1;
      }
      var lo := (leftLimits[1] - 2) % U8_MOD;
      var hi := (leftLimits[1] + 2) % U8_MOD;
      if lo <= 2 {
        lo := 2;
      }
      if hi >= MAXSPACE {
        hi := MAXSPACE;
      }
      assert lo <= r <= hi;
      leftLimits[0] := r;
      assert leftLimits[..] == Shifted(old(leftLimits[..]), r);
    }

    /** The grid part of drawTrack: every cell of rows 1 .. 9, row by row. */
    method Render() returns (log: seq<Draw>)
      requires Valid()
      ensures log == Frame(leftLimits[..])
    {
      ghost var w := leftLimits[..];
      log := [];
      var y := 1;
      while y < WINDOW_HEIGHT
        invariant 1 <= y <= WINDOW_HEIGHT
        invariant log == FrameRows(w, y - 1)
      {
        var x := 1;
        while x < WINDOW_WIDTH
          invariant 1 <= x <= WINDOW_WIDTH
          invariant log == FrameRows(w, y - 1) + RowDraws(w[y - 1], y)[..x - 1]
        {
          log := log + [Draw(Glyph(leftLimits[y - 1], x), x, y)];
          x := x + 1;
        }
        assert RowDraws(w[y - 1], y)[..x - 1] == RowDraws(w[y - 1], y);
        y := y + 1;
      }
    }

    /**
     * Checks the car against the bottom row: off an established row resets
     * the collision-free counter and turns the background red, on the track
     * increments it and turns the background black, and off a row with offset
     * 0 changes nothing.
     */
    method DetectCollision()
      requires Valid()
      modifies this`ts, this`alert
      ensures Valid()
      ensures var o := leftLimits[WINDOW_HEIGHT - 2];
        ts == CollisionFree(old(ts), x, o) &&
        (OffTrack(x, o) && o != 0 ==> ts == 0 && alert) &&
        (!OffTrack(x, o) ==> ts == (old(ts) + 1) % U32_MOD && !alert) &&
        (OffTrack(x, o) && o == 0 ==> ts == old(ts) && alert == old(alert))
    {
      var o := leftLimits[WINDOW_HEIGHT - 2];
      if x <= o || x >= o + TRACK_WIDTH + 1 {
        if o != 0 {
          ts := 0;
          alert := true;
        }
      } else {
        ts := (ts + 1) % U32_MOD;
        alert := false;
      }
    }

    /**
     * Chooses tier and period from the collision-free counter; a counter of 0
     * (just collided) selects tier 1. The period is then requested from the
     * scheduler whether or not it changed.
     */
    method SetSpeed()
      requires Valid() && started
      modifies this`ss, this`s
      ensures Valid()
      ensures Setting(ss, s) == Lookup(ts, Setting(old(ss), old(s)))
      ensures ts == 0 ==> ss == 1 && s == 1000
    {
      if ts == 0 {
        ss, s := 1, 1000;
      } else if ts == 10 {
        ss, s := 2, 750;
      } else if ts == 30 {
        ss, s := 3, 500;
      } else if ts == 50 {
        ss, s := 4, 250;
      } else if ts == 75 {
        ss, s := 5, 175;
      }
    }

    /**
     * Ends the race: cancels the tick, turns the background black, stores the
     * finish time and the elapsed seconds since `st`.
     */
    method FinishRace(now: int)
      requires Consistent() && IsU32(now)
      modifies this`alert, this`scheduled, this`ft, this`t
      ensures Valid() && !alert && !scheduled
      ensures ft == now && t == Elapsed(st, ft)
    {
      alert := false;
      scheduled := false;
      ft := now;
      t := ((ft - st) % U32_MOD) / 1000;
    }

    /**
     * The rest of a tick that does not finish the race: draw the car and the
     * tier digit, check for a collision against the bottom row as it was
     * drawn, advance the window with the drawn value `r` and set the speed.
     */
    method Advance(r: int) returns (marks: seq<Draw>)
      requires Valid() && started
      requires DrawLow(leftLimits[0]) <= r <= DrawHigh(leftLimits[0])
      modifies this`ts, this`alert, this`ss, this`s, leftLimits
      ensures Valid()
      ensures marks == [Draw(c, x, WINDOW_HEIGHT - 1), Draw(Digit(old(ss)), WINDOW_WIDTH + 1, 1)]
      ensures var o := old(leftLimits[WINDOW_HEIGHT - 2]);
        ts == CollisionFree(old(ts), x, o) &&
        (OffTrack(x, o) && o != 0 ==> alert) &&
        (!OffTrack(x, o) ==> !alert) &&
        (OffTrack(x, o) && o == 0 ==> alert == old(alert))
      ensures leftLimits[..] == Shifted(old(leftLimits[..]), r)
      ensures Setting(ss, s) == Lookup(ts, Setting(old(ss), old(s)))
    {
      marks := [Draw(c, x, WINDOW_HEIGHT - 1), Draw(Digit(ss), WINDOW_WIDTH + 1, 1)];
      DetectCollision();
      NewTrackWidth(r);
      SetSpeed();
    }

    /**
     * One drawTrack tick, in the program's order: draw the grid, count the
     * cycle, then either finish the race on cycle MAXCYCLES or advance.
     * `now` is the clock reading used only when the race finishes.
     */
    method Tick(r: int, now: int) returns (frame: seq<Draw>)
      requires Valid() && scheduled && IsU32(now)
      requires i + 1 != MAXCYCLES ==> DrawLow(leftLimits[0]) <= r <= DrawHigh(leftLimits[0])
      modifies this, leftLimits
      ensures Valid() && i == old(i) + 1 && (scheduled <==> i < MAXCYCLES)
      ensures x == old(x) && c == old(c) && st == old(st)
      ensures i == MAXCYCLES ==>
        frame == Frame(old(leftLimits[..])) &&
        !alert && ft == now && t == Elapsed(st, now) &&
        ts == old(ts) && ss == old(ss) && s == old(s) &&
        leftLimits[..] == old(leftLimits[..])
      ensures i < MAXCYCLES ==>
        var o := old(leftLimits[WINDOW_HEIGHT - 2]);
        frame == Frame(old(leftLimits[..])) +
          [Draw(c, x, WINDOW_HEIGHT - 1), Draw(Digit(old(ss)), WINDOW_WIDTH + 1, 1)] &&
        ft == old(ft) && t == old(t) &&
        ts == CollisionFree(old(ts), x, o) &&
        (OffTrack(x, o) && o != 0 ==> alert) &&
        (!OffTrack(x, o) ==> !alert) &&
        (OffTrack(x, o) && o == 0 ==> alert == old(alert)) &&
        leftLimits[..] == Shifted(old(leftLimits[..]), r) &&
        Setting(ss, s) == Lookup(ts, Setting(old(ss), old(s)))
    {
      frame := Render();
      i := i + 1;
      if i == MAXCYCLES {
        FinishRace(now);
      } else {
        var marks := Advance(r);
        frame := frame + marks;
      }
    }

    /** Moves the car one column left unless it is at column 1 or less. */
    method MoveLeft()
      requires Valid()
      modifies this`x
      ensures Valid()
      ensures old(x) > 1 ==> x == old(x) - 1
      ensures old(x) <= 1 ==> x == old(x)
      ensures old(x) >= 1 ==> x >= 1
    {
      if x > 1 {
        x := x - 1;
      }
    }

    /** Moves the car one column right unless it is at column WINDOW_WIDTH - 1. */
    method MoveRight()
      requires Valid()
      modifies this`x
      ensures Valid()
      ensures old(x) < WINDOW_WIDTH - 1 ==> x == old(x) + 1
      ensures old(x) >= WINDOW_WIDTH - 1 ==> x == old(x)
      ensures x <= WINDOW_WIDTH - 1
    {
      if x < WINDOW_WIDTH - 1 {
        x := x + 1;
      }
    }

    /**
     * The key handler: while the race is not over a left key moves the car
     * left and a right key moves it right; nothing but `x` ever changes.
     */
    method Receiver(key: char)
      requires Valid()
      modifies this`x
      ensures Valid()
      ensures i == MAXCYCLES || Decode(key) == Ignored ==> x == old(x)
      ensures i != MAXCYCLES && Decode(key) == Left ==> x == if old(x) > 1 then old(x) - 1 else old(x)
      ensures i != MAXCYCLES && Decode(key) == Right ==>
        x == if old(x) < WINDOW_WIDTH - 1 then old(x) + 1 else old(x)
    {
      if i != MAXCYCLES {
        match Decode(key)
        case Left => MoveLeft();
        case Right => MoveRight();
        case Ignored =>
      }
    }
  }
}
