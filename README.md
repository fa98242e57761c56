# MSP Mario Kart race simulation, modelled in Dafny

The model covers the per-tick simulation of MSP Mario Kart, a terminal driving game. A car on the bottom row of a
25 x 10 window moves left and right under key presses. Each tick, a generated track scrolls one row toward the car.
The track is a window of nine left-wall offsets (`leftLimits`), and every established row has `TRACK_WIDTH` open
columns. The collision-free tick counter `ts` picks one of five speed tiers, and that tier sets the tick period.
After `MAXCYCLES` ticks the race ends and the elapsed time is computed.

Files and modules:

- `config.dfy` (`Config`): the constants of `mario_kart.h` and the uint8/uint32 ranges.
- `track.dfy` (`Track`): the window invariant, the uint8 arithmetic of the draw bounds, the shift, and the proof
  that a generator step keeps the invariant.
- `render.dfy` (`Render`): the cell rule, the row-major draw log of one frame, and the count of open cells in a row.
- `speed.dfy` (`Speed`): the off-track test, the collision-free counter, the `SetSpeed` table, and the step function
  that the tiers follow over a safe run.
- `kart.dfy` (`Kart`): key decoding, elapsed time, and the class `Game`. `Game` holds the fields of
  `struct mario_kart` and the global array `leftLimits`. Its methods mirror `Play`, `newTrackWidth`, `drawTrack`,
  `DetectCollision`, `SetSpeed`, `FinishRace`, `MoveLeft`, `MoveRight` and `Receiver`.

External calls become parameters. `random_int(min, max)` is the argument `r` of `NewTrackWidth` and `Tick`. It is
required to lie in the computed range only on ticks where the code calls `random_int`. `TimeNow()` is the argument
`now` of `Play` and `Tick`. The scheduler is the flag `scheduled` together with the period field `s`. The
background colour is the flag `alert`. The grid, car and tier-digit draws of a tick are returned as a sequence of
`Draw(glyph, column, row)`.

Every operation is modelled as the code behaves, including the following points, which differ from what a reader
of the header comments might expect:

- `Play` stores the clock reading into `ts`, not `st`. `st` is never assigned, so it stays 0 (`Game.Consistent`
  states `st == 0`). The elapsed time is therefore `(ft - 0) mod 2^32 / 1000`. The collision-free counter also
  starts at the clock reading rather than at 0.
- A race starts at tier 5 with period 175, although the header comment of `Play` (mario_kart.h:136-137) says the car
  starts at the slowest speed.
- The right clamp is `x < WINDOW_WIDTH - 1`, so the car reaches column 24, the column next to the border.
- A row with offset 0 is drawn fully open. Even so, a car at column 11 or beyond on such a row fails the on-track
  test. The counter and the colour are then left unchanged rather than treated as a safe tick.
  `Speed.OffTrackIsWall` states this divergence from the render rule.
- Collision is checked against `leftLimits[8]` before the window shifts, which is the row drawn under the car in
  that frame.
- The period is re-requested on every tick that is not the final one, whether or not it changed. Requesting the
  same period again changes nothing in the model, because it is just the field `s`.
- `leftLimits` is global and `Play` does not reset it. A second race continues the previous window.

The host calls the tick only while its task is scheduled, so `Game.Tick` requires `scheduled`. `Game.Valid` shows
that no tick is scheduled once `i` has reached `MAXCYCLES`.

## Model

| member | source | states |
|---|---|---|
| Track.DrawLow | mario_kart.c:59-64 | The uint8 lower bound is max(p-2, 2) for every previous leader p >= 2. For p < 2 it wraps to p+254. |
| Track.DrawHigh | mario_kart.c:60-68 | The uint8 upper bound is min(p+2, MAXSPACE) whenever p+2 does not wrap. It never exceeds MAXSPACE. |
| Track.Shifted | mario_kart.c:55-69 | After a generator step, the length is unchanged, entry k is the old entry k-1 for k >= 1, and the new leader is the drawn value. The last old entry is dropped. |
| Track.ZerosFormSuffix | mario_kart.c:14-69 | In a window that satisfies the invariant, every row behind a row with offset 0 also has offset 0. |
| Track.ShiftKeepsWindow | mario_kart.c:52-71 | Under the window invariant the draw range is non-empty. The drawn leader lies in [2, MAXSPACE] within 2 of the old leader. The shifted window keeps the invariant: leader established, entries 0 or in [2, MAXSPACE], a 0 followed only by 0, neighbours within 2. |
| Track.UnseededDrawIsEmpty | mario_kart.c:59-69 | With a previous leader of 0 or 1 the uint8 bounds wrap and the range is empty, so the invariant is what keeps random_int's range valid. |
| Render.Glyph | mario_kart.c:82-98 | A cell is a wall exactly when the column is at most the offset, or the offset is non-zero and the column is past offset + TRACK_WIDTH. Otherwise it is open. |
| Render.FrameRowsAt | mario_kart.c:78-100 | A frame of n rows has 24n draws in row-major order. Draw k paints column k%24+1 of row k/24+1 with the cell rule for that row's offset. |
| Render.OpenCellsSpan | mario_kart.c:86-94 | Among columns 1..n, a row with offset 0 is all open. Otherwise the open cells are exactly the part of [o+1, o+TRACK_WIDTH] inside 1..n. |
| Render.RowOpenCells | mario_kart.h:73-85 | MAXSPACE + TRACK_WIDTH < WINDOW_WIDTH - 1. An established row's open span lies inside columns 1..24 and has exactly TRACK_WIDTH cells. An offset-0 row has all 24 cells open. |
| Speed.CollisionFree | mario_kart.c:168-184 | The counter after a collision check stays a uint32 value. DetectCollision states the three cases. |
| Speed.Lookup | mario_kart.c:186-210 | A counter equal to threshold k of [0,10,30,50,75] selects setting k of [(1,1000),(2,750),(3,500),(4,250),(5,175)]. Any other counter keeps the current setting. The result is one of the five settings if the current one is. |
| Speed.TierFor | mario_kart.h:213-220 | Reference step function: the setting of the largest threshold not above the counter. |
| Speed.SafeRunIsStep | mario_kart.h:213-220 | Feeding SetSpeed the counters 0, 1, ..., n in turn gives the step-function setting for n, whatever the setting was before. For example, 1000 ms for ten ticks, then 750 ms. |
| Speed.TierForMonotone | mario_kart.h:213-220 | A larger counter never gives a lower tier or a longer period. |
| Speed.CollisionResetsSpeed | mario_kart.h:203-220 | Off an established row the counter becomes 0, and SetSpeed then selects tier 1, period 1000. |
| Speed.OffTrackIsWall | mario_kart.c:170-173 | For a non-zero bottom offset the off-track test equals the renderer's wall test at the car's column. For offset 0 the cell is open, but the test still fails from column 11 on. |
| Kart.Decode | mario_kart.c:122-138 | A byte means "left" exactly when it is one of a , A <, and "right" exactly when it is one of d D . >. Every other byte is ignored. |
| Kart.Elapsed | mario_kart.c:219 | Elapsed seconds are (ft - st)/1000 when ft >= st. Otherwise they are (ft - st + 2^32)/1000, i.e. uint32 subtraction. The result is a uint32. |
| Kart.Digit | mario_kart.c:111 | The tier digit drawn is the character whose code is ss + '0'. |
| Kart.Game.constructor | mario_kart.c:12-14 | Initial state: zeroed record, window [7,0,...,0], no task scheduled, invariant holds. |
| Kart.Game.Play | mario_kart.c:30-50 | Sets car at 12, glyph '^', tier 5 / period 175, i = 0, ts = clock reading, background black, task scheduled. st, ft, t and the window are unchanged. |
| Kart.Game.NewTrackWidth | mario_kart.c:52-71 | Shifts the array in place and stores the drawn leader: the new contents are Shifted(old contents, r). The window invariant is kept. |
| Kart.Game.Render | mario_kart.c:78-100 | The nested loops emit exactly Frame(window): every cell of rows 1..9, columns 1..24, in row-major order. |
| Kart.Game.DetectCollision | mario_kart.c:168-184 | Off an established bottom row: ts = 0 and the background turns red. On track: ts + 1 mod 2^32 and black. Off an offset-0 row: ts and colour are unchanged. |
| Kart.Game.SetSpeed | mario_kart.c:186-212 | (ss, s) becomes Lookup(ts, old (ss, s)). ts = 0 gives tier 1 / period 1000. The pair stays one of the five settings. |
| Kart.Game.FinishRace | mario_kart.c:214-223 | Cancels the tick, background black, ft = clock reading, t = Elapsed(st, ft). |
| Kart.Game.Advance | mario_kart.c:110-114 | Non-final part of a tick. Returns the car draw at its column on row 9 and the old tier digit at column 26 of row 1. Sets the counter by the collision check on the pre-shift bottom row, shifts the window with r, and sets (ss, s) by Lookup of the new counter. |
| Kart.Game.Tick | mario_kart.c:73-116 | Draws the pre-shift frame and increments i by exactly 1. On reaching MAXCYCLES it only finishes: ts, ss, s, x and the window are unchanged and the task is cancelled. Otherwise it draws the car and the old tier digit, checks collision on the pre-shift bottom row, shifts, and sets the speed. It stays scheduled exactly while i < MAXCYCLES. |
| Kart.Game.MoveLeft | mario_kart.c:155-166 | Decrements x when it is above 1 and is a no-op otherwise. x >= 1 is preserved. |
| Kart.Game.MoveRight | mario_kart.c:142-153 | Increments x when it is below WINDOW_WIDTH-1 and is a no-op otherwise. x <= WINDOW_WIDTH-1 is preserved. |
| Kart.Game.Receiver | mario_kart.c:118-140 | Once i == MAXCYCLES, or for an ignored byte, nothing changes. Otherwise a left or right key moves the car one column, clamped at the edges. Only x can change. |

## Left out

- Speed.CollisionFree: its own contract only bounds the counter to uint32. The three cases are stated by `Game.DetectCollision`, and `Speed.CollisionResetsSpeed` and `Speed.OffTrackIsWall` state the consequences.
- Terminal primitives (`Game_CharXY`, `Game_DrawRect`, `Game_SetColor`, `Game_Printf`, `Game_ClearScreen`, `Game_HideCursor`) are host calls. Only the drawTrack draws are kept, as a returned log, and the background colour is kept as a flag. The box, the cursor and the car redraws in `Play`, `MoveLeft` and `MoveRight` are not modelled, nor are the screen clear and the win message in `FinishRace`.
- Task scheduler (`Task_Schedule`, `Task_ChangePeriod`, `Task_Remove`): its timing lives in a library that is not part of this model. It is represented only by `scheduled` and the requested period `s`. The initial delay passed to `Task_Schedule` is not modelled.
- `random_int` and `TimeNow` are not part of this model. Their results are parameters with range preconditions, and uniformity of the draw is not modelled.
- `Mario_Kart_Init`, `Help`, `Game_Register` and the game id: these are registration and help text with no logic.
- `Game_RegisterPlayer1Receiver`: the receiver is modelled as a method the host may call at any time.
- project_settings.h: build and board configuration only.
- The unused constants `MAXSPEED` and `MINSPACE`.
- Interleaving of tick and key callbacks: the host delivers them serially, so they are separate sequential methods.
