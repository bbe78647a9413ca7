# Endless rally: a Dafny model of the track stream, the death line, the game-over rules and the car controller

The game is a top-down rally racer played on an endless vertical track. The car drives up
the screen (toward smaller world y). It drives over a stream of 20-row track chunks that
are generated ahead of the camera and discarded behind it. A "death line" chases the car
from behind. The game ends in one of three ways:

- the line catches the car;
- the car stays off the track for too long;
- the car stays stuck for too long.

The model covers these parts, one Dafny module per source file:

| module | source | what it models |
|---|---|---|
| `Common` | – | `Option`, `Min`/`Max`/`Abs`, `Clamp` (Python's `max(lo, min(hi, x))`) |
| `Config` | config.py | screen and car constants, and the six-gear `GEAR_RATIOS` table |
| `TrackConfig` | endless_track_advanced.py | tile size, chunk height, difficulty rate, tile codes, floor division by 16 |
| `TrackGenerator` | advanced_track_generator.py | one chunk: the per-row centre, width and surface generation, and the chunk-local queries |
| `EndlessTrack` | endless_track_advanced.py | the `Track` class: the ordered chunk list, camera/distance/difficulty, generate-ahead, cleanup, first-match lookups |
| `Pursuit` | death_line.py | the `DeathLine` class: speed, rubber-band snap, warning overlay, collision, reset |
| `RallyCar` | realistic_rally_car.py | the `Car` class's discrete parts: paddle shifting, steering, torque, wheelspin, surface tables, engine speed, slip wrap, drift, heading, speed cap and position clamps |
| `Tachometer` | tachometer.py | the rev counter's engine speed, needle angle and red zone |
| `Game` | endless_game.py | the `EndlessRallyGame` class: the game-over checks with their grace timers, best distance, restart and the per-frame update guard |

Modelling conventions:

- **Exact arithmetic.** All arithmetic is exact `real` arithmetic. Python's integers are unbounded, so no wrap-around arises.
- **Random draws.** Every value `random.random()` would produce is an input. `uniform(a, b)` is `a + (b - a)·u` for a draw `u ∈ [0, 1)`, which is how Python defines it.
  - A chunk's draws are a `ChunkDraws` value.
  - The track holds a stream `source: nat -> ChunkDraws`, indexed by the running chunk number, and a count `drawn` of the chunks generated so far.
- **`math.sin`.** It is a parameter `sin: real -> real`. The lemmas that need it assume only that it is bounded by 1.
- **Vector lengths.** `Vector2.length()` needs a square root. It enters the model as a parameter `speed` with `IsLength(vx, vy, speed)`, meaning `speed ≥ 0` and `speed² = vx² + vy²`.
  - The stuck test `length < 0.1` is the equivalent `vx² + vy² < 0.01`.
- **Attributes created by `hasattr`.** The off-track and stuck timers do not exist until a check first creates them at 0, or until a restart does. They are `Option<int>`, where `None` means the attribute is absent.

The death line works in world coordinates:

- World y grows downward. A reset puts the line 300 *below* the car, so the gap `car_y − y_position` is negative while the car is still ahead.
- As a result, the reported distance is 0 and the level is always DANGER while the car is alive (`Pursuit.LiveCarAlwaysDanger`).
- The 400 rubber band only moves a line that has already caught the car (`Pursuit.RubberBandOnlyAfterCatch`).
- Nothing bounds the gap for a car that is still alive; the snap acts only once the car is caught.

## Model

| member | source | states |
|---|---|---|
| Common.Clamp | advanced_track_generator.py:64 | the result lies in [lo, hi]; it is x when x is in range, lo below the range and hi above it |
| Common.ClampIsNonExpanding | advanced_track_generator.py:59-64 | clamping never moves two values further apart, which gives each centre step its bound |
| Config.Gear | config.py:27-34 | every gear's table entry has 0 ≤ min_speed < max_speed and 0 < base_acceleration ≤ 0.12 |
| Config.GearTableDomain | config.py:27-34 | the table is defined for exactly the gears 1..6 |
| Config.MaxSpeedIncreases | config.py:28-33 | max_speed strictly increases from gear 1 to gear 6 |
| Config.BaseAccelerationDecreases | config.py:28-33 | base_acceleration strictly decreases from gear 1 to gear 6 |
| Config.MinSpeedsOverlap | config.py:28-33 | gear 1 starts at min_speed 0, and every higher gear's min_speed is below the previous gear's max_speed |
| TrackConfig.TileCoord | endless_track_advanced.py:234-235 | `v // 16` is the floor, so tile t holds the coordinates [16t, 16t+16), for negative v too |
| TrackGenerator.UniformBounds | advanced_track_generator.py:39-76 | `uniform(a, b)` with a draw in [0, 1] lies in [a, b] |
| TrackGenerator.CurveDirection | advanced_track_generator.py:38 | the chunk's curve direction is +1 or -1 |
| TrackGenerator.RowWidth | advanced_track_generator.py:69-78 | every row width is at least 50, from the floor applied after the section's variation |
| TrackGenerator.WidthBounds | advanced_track_generator.py:69-78 | with draws in range, hairpin widths lie in [55, 105], straight ones in [85, 145] and all others in [65, 125] |
| TrackGenerator.SurfaceBySection | advanced_track_generator.py:84-119 | the picked surface is gravel, dirt or tarmac (1, 2 or 3) |
| TrackGenerator.SurfaceFollowsWeights | advanced_track_generator.py:84-119 | each section's choice is the cumulative-threshold pick over its own band table (straight 0.6/0.2/0.2 tarmac/gravel/dirt, hairpin 0.5/0.2/0.3 gravel/dirt/tarmac, elevation 0.5/0.2/0.3 dirt/gravel/tarmac, others 0.35/0.3/0.35 tarmac/gravel/dirt); each table's weights sum to 1 |
| TrackGenerator.CentersUpTo | advanced_track_generator.py:41-66 | the first n centres number n, and each lies in [60, 740] |
| TrackGenerator.WidthsUpTo | advanced_track_generator.py:69-78 | the first n widths number n, and each is at least 50 |
| TrackGenerator.SurfacesUpTo | advanced_track_generator.py:80-82 | the first n surface codes number n, and each is a row surface |
| TrackGenerator.MakeChunk | advanced_track_generator.py:9-27 | the chunk keeps its y_offset and difficulty |
| TrackGenerator.MakeChunkWellFormed | advanced_track_generator.py:9-82 | every chunk has exactly 20 centres, widths and surface codes, with centres in [60, 740], widths ≥ 50 and surfaces in {1, 2, 3} |
| TrackGenerator.GenerateRallyTrack | advanced_track_generator.py:29-82 | the per-row loop yields exactly the centre line, widths and surfaces of the row-by-row definition, 20 of each |
| TrackGenerator.NewChunk | advanced_track_generator.py:9-27 | building a chunk runs the generator from 400 without a previous centre, or from the previous centre otherwise |
| TrackGenerator.CentersPrefix | advanced_track_generator.py:41-66 | a centre, once computed, is not changed by later rows |
| TrackGenerator.CenterSteps | advanced_track_generator.py:59-66 | centre 0 is clamp(start + Δ0), each later centre is clamp(previous + Δi), and each step moves at most \|Δi\| |
| TrackGenerator.ChunkStartsFromSeed | advanced_track_generator.py:20-64 | a chunk's first centre is clamp(400 + Δ0) without a previous centre and clamp(prev_center + Δ0) with one |
| TrackGenerator.CurveBounds | advanced_track_generator.py:38-57 | with draws in range and a sine bounded by 1, the per-row delta satisfies: straight at most 0.8; hairpin at most 5(1+difficulty); curve in [1, 2(1+difficulty)] with the chunk's one sign; chicane at most 4; elevation at most 3 |
| TrackGenerator.CurveAmount | advanced_track_generator.py:41-57 | the per-row centre delta of each section type, from the row's draw and the sine; its bounds per section are `TrackGenerator.CurveBounds` and the section lemmas |
| TrackGenerator.CurveSectionBounds | advanced_track_generator.py:45-48 | a curve row's delta has the curve direction's sign and magnitude in [1, 2(1+difficulty)] |
| TrackGenerator.HairpinBounds | advanced_track_generator.py:49-51 | a hairpin row's delta is at most 5(1+difficulty) in magnitude |
| TrackGenerator.ChicaneBounds | advanced_track_generator.py:52-54 | a chicane row's delta is at most 4 in magnitude |
| TrackGenerator.ElevationBounds | advanced_track_generator.py:55-57 | an elevation row's delta is at most 3 in magnitude |
| TrackGenerator.StraightDrift | advanced_track_generator.py:38-66 | on a straight chunk, row k's centre is within 0.8·(k+1) of the start centre |
| TrackGenerator.LastCenter | advanced_track_generator.py:121-123 | the last centre of the line, or 400 when the line is empty |
| TrackGenerator.SurfaceAtPosition | advanced_track_generator.py:141-160 | the label is one of grass, tarmac, gravel or dirt, and it is grass exactly when the point is off the chunk's track |
| TrackGenerator.SurfaceBands | advanced_track_generator.py:141-160 | on the track, the label is tarmac iff d < 0.3w, gravel iff 0.3w ≤ d < 0.4w, and dirt iff d ≥ 0.4w, where d is the distance from the row's centre |
| TrackGenerator.TileAt | advanced_track_generator.py:162-171 | a tile row outside [y_offset, y_offset+20) is grass |
| TrackGenerator.TileAgreesWithIsOnTrack | advanced_track_generator.py:125-188 | a tile is non-grass iff the chunk's point query puts its left edge on the track, and it is then that row's surface code |
| TrackGenerator.IsOnTrack | advanced_track_generator.py:125-139 | false outside the chunk's 20 rows, otherwise \|x − centre\| ≤ width/2 for row int(local_y); `TrackGenerator.TileAgreesWithIsOnTrack` ties it to the tile grid |
| EndlessTrack.InitialChunks | endless_track_advanced.py:48-61 | chunk i of the initial list has y_offset 31 − (10 − i)·20 and difficulty 0.1 |
| EndlessTrack.InitialWellFormed | endless_track_advanced.py:48-61 | every initial chunk is well formed |
| EndlessTrack.InitialLayout | endless_track_advanced.py:48-61 | the initial chunks tile rows −169..230 contiguously from first to last, and a lookup of any of those rows finds the chunk (row+169)/20 |
| EndlessTrack.InitialSeeding | endless_track_advanced.py:52-61 | each initial chunk after the first is seeded with its predecessor's last centre |
| EndlessTrack.InitialPrefix | endless_track_advanced.py:52-61 | generating more initial chunks does not change the earlier ones |
| EndlessTrack.FirstCenter | endless_track_advanced.py:96 | the optional seed is the chunk's first centre, and it is absent only for an empty centre line |
| EndlessTrack.AheadCount | endless_track_advanced.py:88-100 | generate-ahead appends no chunk exactly when the last chunk already reaches the look-ahead line |
| EndlessTrack.AheadCountStep | endless_track_advanced.py:94-100 | below the line, one loop pass adds one chunk and moves the last offset up by 20 |
| EndlessTrack.AheadCountTop | endless_track_advanced.py:88-100 | every chunk but the last appended one lies below the line, and the last one reaches it |
| EndlessTrack.AheadChunks | endless_track_advanced.py:88-100 | appended chunk k has the current difficulty and the y_offset of the old last chunk minus 20(k+1) |
| EndlessTrack.AheadStep | endless_track_advanced.py:94-100 | each appended chunk sits 20 rows above the chunk below it and is seeded with that chunk's first centre |
| EndlessTrack.AheadPrefix | endless_track_advanced.py:94-100 | appending more chunks does not change the ones already appended |
| EndlessTrack.AheadWellFormed | endless_track_advanced.py:94-100 | every appended chunk is well formed |
| EndlessTrack.AheadAllWellFormed | endless_track_advanced.py:81-100 | generate-ahead keeps every chunk in the list well formed |
| EndlessTrack.AheadReachesTop | endless_track_advanced.py:81-100 | after generate-ahead, the last chunk's top is at or above camera_y − 400, and every chunk appended before it is below |
| EndlessTrack.FirstPassOverlaps | endless_track_advanced.py:48-100 | the first pass after the initial layout starts from the bottom-most initial chunk; its first chunk lands on initial chunk 18's rows, is seeded with chunk 19's first centre, and lookups there still answer from chunk 18 |
| EndlessTrack.KeepVisible | endless_track_advanced.py:102-107 | only chunks above the cleanup line remain, and the list does not grow |
| EndlessTrack.KeepVisibleMembers | endless_track_advanced.py:102-107 | a chunk is kept iff it was in the list and its top is above camera_y + 1000 |
| EndlessTrack.KeepVisibleAppend | endless_track_advanced.py:102-107 | filtering respects concatenation, so the kept chunks keep their relative order |
| EndlessTrack.KeepVisibleLast | endless_track_advanced.py:102-107 | a visible last chunk stays last |
| EndlessTrack.KeepVisibleWellFormed | endless_track_advanced.py:102-107 | filtering keeps the list well formed |
| EndlessTrack.AllWellFormedAppend | endless_track_advanced.py:56-61 | appending well-formed lists keeps the list well formed |
| EndlessTrack.FirstCovering | endless_track_advanced.py:223-230 | the index returned is the first chunk in list order whose rows contain the row, or none if no chunk does |
| EndlessTrack.FirstCoveringAppend | endless_track_advanced.py:223-230 | chunks appended after a covering chunk never change the answer |
| EndlessTrack.FirstCoveringIs | endless_track_advanced.py:223-230 | the first covering index is the answer |
| EndlessTrack.SurfaceLabel | endless_track_advanced.py:232-249 | GRAVEL, DIRT, TARMAC and MUD get their own labels; every other code, grass included, reads as "gravel", so "grass" is never returned |
| EndlessTrack.DistanceFor | endless_track_advanced.py:68-70 | the distance is (500 − y)/10 for y ≤ 500 and 0 otherwise, never negative |
| EndlessTrack.DifficultyFor | endless_track_advanced.py:73 | the difficulty lies in [0, 1] and reaches 1 exactly at distance 1250 |
| EndlessTrack.DifficultyMonotone | endless_track_advanced.py:66-73 | the difficulty does not decrease as the car climbs |
| EndlessTrack.UpdateKeepsLookahead | endless_track_advanced.py:63-79 | after generate-ahead and cleanup, the list is non-empty and its last chunk still reaches the look-ahead line |
| EndlessTrack.Track.constructor | endless_track_advanced.py:37-46 | camera 200, distance 0, difficulty 0; the list is the 20 initial chunks drawn from the start of the stream |
| EndlessTrack.Track.GenerateInitialChunks | endless_track_advanced.py:48-61 | appends the 20 initial chunks from the next draws, and changes nothing else |
| EndlessTrack.Track.Update | endless_track_advanced.py:63-79 | sets camera, distance and difficulty from the car's y, then appends ahead and cleans up; the chunk stream advances by exactly the chunks appended, the last chunk reaches camera_y − 400 and the list stays well formed |
| EndlessTrack.Track.CheckAndGenerateChunks | endless_track_advanced.py:81-100 | the while loop appends exactly the generate-ahead chunks, nothing on an empty list, and consumes as many draws as it appends |
| EndlessTrack.Track.CleanupOldChunks | endless_track_advanced.py:102-107 | keeps exactly the chunks with top above camera_y + 1000, in order, and changes nothing else |
| EndlessTrack.Track.GetTileAtWorldPos | endless_track_advanced.py:223-230 | grass when no chunk covers the row; otherwise exactly the first covering chunk's tile, which is non-grass iff that chunk puts the tile on the track |
| EndlessTrack.Track.GetSurfaceAtPosition | endless_track_advanced.py:232-249 | the label of the tile under the point, always gravel, dirt or tarmac |
| EndlessTrack.Track.GetDistanceTraveled | endless_track_advanced.py:260-262 | the distance is never negative |
| EndlessTrack.Track.GetDifficulty | endless_track_advanced.py:264-266 | the difficulty lies in [0, 1] |
| EndlessTrack.OnTrackMeansCoveredBand | endless_track_advanced.py:251-258 | is_on_track holds iff the tile at (x // 16, y // 16) is not grass; off the track the surface reads "gravel" |
| EndlessTrack.Track.IsOnTrack | endless_track_advanced.py:251-258 | the tile under (x // 16, y // 16) is gravel, dirt, tarmac or mud; `EndlessTrack.OnTrackMeansCoveredBand` shows this is exactly a non-grass tile |
| Pursuit.SpeedFor | death_line.py:23-24 | the speed is 0.5 at distance 0 and at least 0.5 for any distance ≥ 0 |
| Pursuit.SpeedMonotone | death_line.py:23-24 | the speed grows strictly with the distance travelled |
| Pursuit.Snap | death_line.py:30-35 | the gap after the snap is at most 400; the line only moves down (to larger y), and it moves exactly when the gap exceeded 400, to a gap of exactly 400 |
| Pursuit.AlphaFor | death_line.py:39-49 | the alpha is 100 iff the gap is < 80, 50 iff it is in [80, 150), and 0 iff it is ≥ 150 |
| Pursuit.LevelFor | death_line.py:111-120 | DANGER below 80, WARNING below 150, SAFE otherwise |
| Pursuit.AlphaAgreesWithLevel | death_line.py:39-120 | the overlay alpha from the raw gap matches the level reported for the clipped distance |
| Pursuit.DeathLine.constructor | death_line.py:8-18 | the line starts at 0 with speed 0.5, and the pulse and alpha at 0 |
| Pursuit.DeathLine.Update | death_line.py:20-49 | sets the speed from the distance; moves the line up by it, snapped back to a gap of at most 400; advances the pulse by 0.1; sets the alpha from the gap, in agreement with the warning level |
| Pursuit.DeathLine.GetDistanceToCar | death_line.py:106-109 | max(0, car_y − y): never negative, and 0 exactly when the car is at or above the line |
| Pursuit.DeathLine.CheckCollision | death_line.py:102-104 | the car is caught exactly when car_y ≥ y_position; `Pursuit.LiveCarAlwaysDanger` and the reset's `!CheckCollision` give it its meaning for the game |
| Pursuit.DeathLine.GetWarningLevel | death_line.py:111-120 | DANGER iff the raw gap is < 80, WARNING iff it is in [80, 150), SAFE iff it is ≥ 150 |
| Pursuit.DeathLine.Reset | death_line.py:122-127 | the line goes 300 below the car with speed 0.5 and pulse and alpha 0, so the car is not caught right after a reset |
| Pursuit.LiveCarAlwaysDanger | death_line.py:102-120 | while the car is not caught, the distance is 0 and the level is DANGER |
| Pursuit.SafeOnlyWhenCaught | death_line.py:102-120 | SAFE or WARNING is reported only for a car that is already caught |
| Pursuit.RubberBandOnlyAfterCatch | death_line.py:30-104 | the snap never moves a line that is still below the car, and a moved line is left above the car |
| RallyCar.ShiftedUp | realistic_rally_car.py:88-92 | the gear stays in 1..6; it rises by one below 6 and is unchanged at 6 |
| RallyCar.ShiftedDown | realistic_rally_car.py:94-98 | the gear stays in 1..6; it falls by one above 1 and is unchanged at 1 |
| RallyCar.ShiftRoundTrip | realistic_rally_car.py:88-98 | away from the limits, a shift down undoes a shift up and vice versa |
| RallyCar.PaddleStep | realistic_rally_car.py:162-173 | each latch becomes the key's state; with no fresh press (a key held past its latch, or released) the gear stays; a fresh Q alone shifts up, a fresh E alone shifts down, and both together shift up then down, which leaves any gear below 6 where it was |
| RallyCar.RunPaddles | realistic_rally_car.py:162-173 | the gear stays in 1..6 over any sequence of ticks |
| RallyCar.LatchedHoldKeepsGear | realistic_rally_car.py:163-167 | holding Q after its latch is set never changes the gear |
| RallyCar.HeldKeyShiftsOnce | realistic_rally_car.py:163-167 | holding Q for any number of ticks shifts up at most once, until the key is released |
| RallyCar.LatchedDownHoldKeepsGear | realistic_rally_car.py:169-173 | holding E after its latch is set never changes the gear |
| RallyCar.HeldDownShiftsOnce | realistic_rally_car.py:169-173 | holding E for any number of ticks shifts down at most once, until the key is released |
| RallyCar.LastTickLatch | realistic_rally_car.py:163-173 | after any ticks, the latches equal the last tick's keys |
| RallyCar.SteerStep | realistic_rally_car.py:175-184 | \|angle\| ≤ 30 is preserved; left gives min(angle + 2, 30) and takes priority over right; right gives max(angle − 2, −30); with no key an angle of magnitude above 1 is scaled by 0.9 and any other becomes 0, so the magnitude never grows |
| RallyCar.DecayKeepsSide | realistic_rally_car.py:180-184 | the decay with no key never flips the angle's sign |
| RallyCar.TorqueEfficiency | realistic_rally_car.py:100-108 | the efficiency lies in [0.15, 1]; it is 1 iff min_speed is 0 or speed ≥ min_speed, and max(0.15, speed/min_speed) otherwise |
| RallyCar.FirstGearFullTorque | realistic_rally_car.py:100-108 | in gear 1 the efficiency is always 1 |
| RallyCar.SlipFactor | realistic_rally_car.py:151-156 | the factor lies in [0.7, 1]; it is 1 iff a ≤ 0.08, and max(0.7, 0.9 − 1.2(a − 0.08)) above |
| RallyCar.Acceleration | realistic_rally_car.py:144-158 | with a = base·efficiency, the acceleration is a when a ≤ 0.08 and a·max(0.7, 0.9 − 1.2(a − 0.08)) otherwise |
| RallyCar.AccelerationBounds | realistic_rally_car.py:144-158 | the acceleration is positive and at most the gear's base acceleration; its wheelspin factor stays above 0.7 |
| RallyCar.GripModifier | realistic_rally_car.py:110-125 | gravel 0.8, dirt 0.7, tarmac 1.2, mud 0.5; exactly 1.0 for no track or an unknown label |
| RallyCar.FrictionModifier | realistic_rally_car.py:127-142 | gravel 0.9, dirt 0.7, tarmac 1.3, mud 0.4; exactly 1.0 for no track or an unknown label |
| RallyCar.TrackSurfaceHasModifier | realistic_rally_car.py:110-142 | every label the track returns has a table entry, so the 1.0 fallback never applies on a track |
| RallyCar.SpeedKmh | realistic_rally_car.py:54-58 | km/h = speed·21.6, never negative |
| RallyCar.Rpm | realistic_rally_car.py:60-86 | 800 below speed 0.1; otherwise in [800 + 500(g−1), 8000], and at least 200 higher on throttle |
| RallyCar.RpmNeverCapped | realistic_rally_car.py:60-86 | the 8000 caps never bite: rpm = 800 + 500(g−1) + 3000·ratio (+200 on throttle), at most 6500 |
| RallyCar.RpmMonotone | realistic_rally_car.py:60-86 | for a fixed gear and throttle, rpm does not decrease as the speed rises |
| RallyCar.RpmSaturates | realistic_rally_car.py:73-86 | at or above the gear's max_speed, rpm is constant at the top of the gear's band |
| RallyCar.Ceil | realistic_rally_car.py:242-245 | the ceiling of x, counting the wrap loop's passes |
| RallyCar.WrappedSlip | realistic_rally_car.py:241-245 | the wrapped slip lies in [−180, 180] and is the raw value itself inside that range |
| RallyCar.WrappedSlipUnique | realistic_rally_car.py:241-245 | any angle strictly inside (−180, 180) that is a whole number of turns from the raw slip is the wrapped slip |
| RallyCar.LoopExitIsWrapped | realistic_rally_car.py:242-245 | where the loops stop (whole turns from raw, in [−180, 180], raw itself when it started in range, off the far end only when coming from the other side) is the wrapped slip |
| RallyCar.WrapSlipAngle | realistic_rally_car.py:241-245 | the two while loops yield the wrapped slip, which differs from the raw angle by a whole number of turns and lies in [−180, 180] |
| RallyCar.DriftIntensity | realistic_rally_car.py:248 | \|slip\|/30 is never negative and is at most 6 for a wrapped slip |
| RallyCar.DriftIffSlipOverNine | realistic_rally_car.py:248-249 | the car is drifting iff \|slip\| > 9 |
| RallyCar.HeadingMod | realistic_rally_car.py:279-280 | the heading lies in [0, 360) and is unchanged when already in range |
| RallyCar.HeadingUnique | realistic_rally_car.py:279-280 | any heading in [0, 360) a whole number of turns from d is `d % 360` |
| RallyCar.HeadingPeriodic | realistic_rally_car.py:279-280 | adding whole turns to a heading does not change `% 360` |
| RallyCar.CapVelocity | realistic_rally_car.py:325-328 | a velocity within the gear's max_speed is unchanged; a faster one is scaled to exactly max_speed along the same direction |
| RallyCar.DampedStaysCapped | realistic_rally_car.py:344-347 | damping by a factor in [0, 1] keeps the speed within the cap |
| RallyCar.Car.constructor | realistic_rally_car.py:7-43 | the car starts at (400, 480), at rest, heading 90, with zero steering, gear 1, no latches set and no drift |
| RallyCar.Car.ShiftUp | realistic_rally_car.py:88-92 | the gear becomes the gear shifted up, and nothing else changes |
| RallyCar.Car.ShiftDown | realistic_rally_car.py:94-98 | the gear becomes the gear shifted down, and nothing else changes |
| RallyCar.Car.HandleInput | realistic_rally_car.py:160-184 | the gear and latches follow one paddle step, the steering follows one steer step, and the gear and steering bounds are kept |
| RallyCar.Car.ApplySlip | realistic_rally_car.py:234-249 | above speed 0.1, the drift intensity and flag come from the wrapped slip angle; otherwise they are unchanged |
| RallyCar.Car.ApplyTurn | realistic_rally_car.py:262-280 | a turn adds to the heading modulo 360, and no turn leaves it unchanged |
| RallyCar.Car.Move | realistic_rally_car.py:325-347 | the capped velocity moves the car; x is clamped to [20, 780] and y to at most 550; the velocity is damped by 0.95 when the new position is off the track; the speed stays within the gear's cap |
| RallyCar.Car.UpdateForEndlessMode | realistic_rally_car.py:315-347 | one endless-mode tick in the source's order: input, slip and drift, heading, speed cap, position clamps and off-track damping; the whole new state is given by `SteppedBy` against the old state and the functions above, and the speed stays within the gear's top speed |
| Tachometer.CalculateRpm | tachometer.py:35-61 | 800 below speed 0.1; otherwise in [800 + 500(g−1), 8000] |
| Tachometer.ReadingNeverCapped | tachometer.py:48-61 | neither 8000 cap ever acts: a moving car reads its gear's base plus 3000 times the speed fraction plus the throttle bonus, at most 6500 |
| Tachometer.AgreesWithCar | tachometer.py:35-61 | the rev counter computes the same engine speed as the car's get_rpm |
| Tachometer.RpmMonotone | tachometer.py:48-54 | for a fixed gear and throttle the reading does not decrease with speed, and it is constant from the gear's max_speed on |
| Tachometer.RpmToAngle | tachometer.py:188-192 | an engine speed in [0, 8000] maps to a needle angle in [240, 480] |
| Tachometer.AngleIsLinear | tachometer.py:188-192 | 0 maps to 240 and 8000 to 480, at 0.03 degrees per rpm |
| Tachometer.IsInRedline | tachometer.py:194-196 | an engine speed is in the red zone iff it is at least 7000 |
| Tachometer.NeverInRedline | tachometer.py:194-196 | the computed engine speed is at most 6500, so is_in_redline (rpm ≥ 7000) never holds for it |
| Game.EndGame | endless_game.py:142-147 | game over is set and the best distance becomes max(best, distance); the reason and timers are untouched |
| Game.Count | endless_game.py:117-140 | a grace timer resets to 0 when its condition clears, starts at 0 when it is absent, and otherwise counts up by one |
| Game.CheckGameOver | endless_game.py:109-140 | the best distance never decreases; game over requires a catch, an off-track timer over 120 or a stuck timer over 180; a catch ends the game at once without touching the timers; otherwise both timers follow the counting rule |
| Game.CaughtWins | endless_game.py:112-115 | a catch ends the game with "Caught by Death Line!" and returns before the timer checks |
| Game.OffTrackRule | endless_game.py:117-128 | off the track and moving, the game ends iff the timer existed and passes 120, with "Off Track Too Long!" |
| Game.StuckRule | endless_game.py:130-140 | on the track and stuck, the game ends iff the timer existed and passes 180, with "Vehicle Stuck!" |
| Game.StuckOverwritesReason | endless_game.py:117-140 | when both limits pass in one tick, the stuck check runs last and its reason wins |
| Game.Step | endless_game.py:65-76 | a frame after game over changes nothing |
| Game.RunFrozen | endless_game.py:65-76 | once the game is over, any number of frames leaves the state unchanged |
| Game.OffTrackGrace | endless_game.py:117-128 | from timer c, the game ends within n off-track frames iff n ≥ 121 − c |
| Game.FreshOffTrackGrace | endless_game.py:117-128 | with no timer yet, the first off-track frame only creates it at 0, so the game ends iff n ≥ 122 |
| Game.BestNeverDecreases | endless_game.py:142-147 | the best distance never decreases over any run of frames |
| Game.Restarted | endless_game.py:149-154 | a restart clears game over and the reason, sets both timers to 0 and keeps the best distance |
| Game.RestartGivesGrace | endless_game.py:149-154 | the frame after a restart cannot end the game unless the car is caught |
| Game.StartCar | endless_game.py:159-165 | the new car is at (400, 500), at rest, heading 90, in gear 1, with the wheel centred, both latches clear and no drift |
| Game.EndlessRallyGame.constructor | endless_game.py:11-42 | a fresh track drawn from the start of the given stream with the given sine (20 chunks drawn, camera 200, distance and difficulty 0) and a car at (400, 500) at rest, heading 90, gear 1, wheel centred, latches clear and not drifting; the line reset 300 below the car with speed 0.5 and pulse and alpha 0; and no game over, reason, timers or best distance |
| Game.EndlessRallyGame.EndGameNow | endless_game.py:142-147 | the state becomes the game-over state for the track's distance |
| Game.EndlessRallyGame.CheckGameOverNow | endless_game.py:109-140 | the fields become the state-machine result for what the line, the track and the car's velocity show |
| Game.EndlessRallyGame.RestartGame | endless_game.py:149-173 | the status is restarted; a new track is drawn from the start of the given stream with the old sine (20 chunks drawn, camera 200, distance and difficulty 0); a new car is placed at (400, 500) at rest, heading 90, gear 1, wheel centred, latches clear and not drifting; the line is reset 300 behind it with speed 0.5 and pulse and alpha 0, so the car is not caught |
| Game.EndlessRallyGame.Tick | endless_game.py:65-76 | after game over nothing changes; otherwise the car steps against the track as it was (its whole new state by `SteppedBy`), then the track follows the car (camera, distance, difficulty, the appended and trimmed chunk list and the stream count), then the line moves by its speed and snaps to the car, its pulse advances and its overlay alpha follows the gap, and the status follows the game-over check on the result |

## Left out

- Rendering is not modelled. This covers:
  - every `draw` method;
  - the chunk's own `draw`;
  - the tile-surface creation and caching in endless_track_advanced.py:109-221;
  - the HUD classes `DeathLineUI` and `EndlessGameUI`, and ui.py;
  - the tachometer's scale, needle and text;
  - the car's `_update_graphics`.
- The reseed in the tile cache: the cache calls `random.seed` on Python's global generator, which disturbs the values later chunks draw. Here the generator's draws are an independent input stream, so that coupling is not reproduced.
- realistic_car.py (sprite drawing and synthesised sound) is not part of this model. The sound calls in `shift_up`/`shift_down`, the skid sound and `_update_sound` are treated as no-ops.
- The vector and trigonometric physics is not modelled. This covers `_apply_acceleration`, `_apply_friction`, the lateral force and the bicycle-model turn (realistic_rally_car.py:186-231 and 250-278). These need `rotate`, `normalize`, `atan2` and `tan`.
  - Their outcome reaches `RallyCar.Car.UpdateForEndlessMode` as its `Physics` argument: the speed that gates the slip test, the velocity angle, the velocity and its length, and the heading change if a turn happened.
  - The model does not tie that argument to these formulas. In particular, it does not check that a turn happens only beyond the 0.5-degree steering deadzone.
- Floating-point rounding is not modelled. All arithmetic is exact over the reals, and `Vector2.length()` enters as a parameter.
- RallyCar.Car.UpdateForEndlessMode: the `if self.track` guard is not modelled, since the endless game always gives the car a track. The surface tables still model the no-track case as `None`.
- Keyboard reads (`pygame.key.get_pressed`) are not modelled. The keys arrive as a `Keys` value, and the throttle as a boolean in `Rpm` and `CalculateRpm`.
- The event loop in `run` (endless_game.py:44-64, 78-107) is not modelled: quitting, the R and M keys after game over, ESC, and the frame clock. Only its update guard (65-76) is modelled.
- The car's non-endless `update` (realistic_rally_car.py:349-377) is not modelled, because endless mode never calls it.
- Pursuit.Acceleration is declared but unused, because no operation in death_line.py reads it.
- main.py, main_web.py, build_web.py and setup.py are entry points and packaging, and are not part of this model.
- The track's `source` and `sin` parameters stand in for `random.random`, `random.uniform`, `random.choice` and `math.sin`, which the model cannot see.
  - `Game.EndlessRallyGame.RestartGame` takes the stream for the new track as an argument, and the track reuses the old track's sine.
