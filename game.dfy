/**
 * endless_game.py: the game-over and restart state machine of the endless mode.
 *
 * Each tick, while the game is not over, the car moves, the track follows it, the death
 * line chases it and then _check_game_over runs. That check ends the game at once when the
 * death line has caught the car. Otherwise it runs two grace counters, one for being off
 * the track and one for being stuck (speed below 0.1), each of which ends the game once it
 * passes its limit. The counters are attributes that do not exist until the first check
 * creates them (Python's hasattr), which is why they are optional here: the first tick
 * that finds the condition creates the counter at 0 rather than counting 1. The off-track
 * branch does not return after ending the game, so the stuck branch can end it too in the
 * same tick and overwrite the reason.
 */
module Game {
  import opened Common
  import opened Config
  import opened TrackGenerator
  import opened EndlessTrack
  import opened Pursuit
  import opened RallyCar

  const CaughtReason: string := "Caught by Death Line!"
  const OffTrackReason: string := "Off Track Too Long!"
  const StuckReason: string := "Vehicle Stuck!"
  /** The off-track counter must exceed this many ticks (two seconds at 60 fps). */
  const OffTrackLimit: int := 120
  /** The stuck counter must exceed this many ticks (three seconds at 60 fps). */
  const StuckLimit: int := 180

  /** The game-over fields of EndlessRallyGame. None is a counter attribute that does not
      exist yet. */
  datatype Status = Status(gameOver: bool, reason: string, offTrackTimer: Option<int>,
                           stuckTimer: Option<int>, bestDistance: real)

  /** What _check_game_over reads from the car, the track and the death line. */
  datatype Observation = Observation(caught: bool, onTrack: bool, stuck: bool, distance: real)

  /** A velocity shorter than 0.1, written without the square root. */
  predicate IsStuck(vx: real, vy: real)
  {
    vx * vx + vy * vy < 0.01
  }

  /** _game_over: the game ends and the best distance becomes the larger of the two. */
  function EndGame(s: Status, distance: real): (r: Status)
    ensures r.gameOver
    ensures r.bestDistance == Max(s.bestDistance, distance)
    ensures r.reason == s.reason && r.offTrackTimer == s.offTrackTimer && r.stuckTimer == s.stuckTimer
  {
    s.(gameOver := true, bestDistance := if distance > s.bestDistance then distance else s.bestDistance)
  }

  /** One grace counter: reset to 0 while the condition does not hold, created at 0 the
      first time it does, and counted up by one after that. */
  function Count(timer: Option<int>, condition: bool): (r: Option<int>)
    ensures r.Some?
    ensures !condition ==> r == Some(0)
    ensures condition && timer.None? ==> r == Some(0)
    ensures condition && timer.Some? ==> r == Some(timer.value + 1)
  {
    if !condition then Some(0)
    else match timer
      case None => Some(0)
      case Some(t) => Some(t + 1)
  }

  /** The off-track half of _check_game_over. */
  function OffTrackCheck(s: Status, o: Observation): Status
  {
    var s1 := s.(offTrackTimer := Count(s.offTrackTimer, !o.onTrack));
    if !o.onTrack && s.offTrackTimer.Some? && s1.offTrackTimer.value > OffTrackLimit then
      EndGame(s1.(reason := OffTrackReason), o.distance)
    else s1
  }

  /** The stuck half of _check_game_over. */
  function StuckCheck(s: Status, o: Observation): Status
  {
    var s1 := s.(stuckTimer := Count(s.stuckTimer, o.stuck));
    if o.stuck && s.stuckTimer.Some? && s1.stuckTimer.value > StuckLimit then
      EndGame(s1.(reason := StuckReason), o.distance)
    else s1
  }

  /** _check_game_over: a catch ends the game and skips the counters; otherwise the
      off-track counter and then the stuck counter run. */
  function CheckGameOver(s: Status, o: Observation): (r: Status)
    ensures r.bestDistance >= s.bestDistance
    ensures r.gameOver ==>
      (|| s.gameOver || o.caught
       || (r.offTrackTimer.Some? && r.offTrackTimer.value > OffTrackLimit)
       || (r.stuckTimer.Some? && r.stuckTimer.value > StuckLimit))
    ensures o.caught ==> r == EndGame(s.(reason := CaughtReason), o.distance)
    ensures !o.caught ==> r.offTrackTimer == Count(s.offTrackTimer, !o.onTrack)
    ensures !o.caught ==> r.stuckTimer == Count(s.stuckTimer, o.stuck)
  {
    if o.caught then EndGame(s.(reason := CaughtReason), o.distance)
    else StuckCheck(OffTrackCheck(s, o), o)
  }

  /** A catch ends the game with its own reason and leaves both counters as they were. */
  lemma CaughtWins(s: Status, o: Observation)
    requires o.caught
    ensures CheckGameOver(s, o).gameOver && CheckGameOver(s, o).reason == CaughtReason
    ensures CheckGameOver(s, o).offTrackTimer == s.offTrackTimer
    ensures CheckGameOver(s, o).stuckTimer == s.stuckTimer
  {
  }

  /** The off-track counter ends the game exactly when an existing counter passes the limit
      (or when some other rule ends it). */
  lemma OffTrackRule(s: Status, o: Observation)
    requires !o.caught && !o.onTrack && !s.gameOver && !o.stuck
    ensures CheckGameOver(s, o).gameOver <==>
      s.offTrackTimer.Some? && s.offTrackTimer.value + 1 > OffTrackLimit
    ensures CheckGameOver(s, o).gameOver ==> CheckGameOver(s, o).reason == OffTrackReason
  {
  }

  /** The stuck counter ends the game exactly when an existing counter passes its limit. */
  lemma StuckRule(s: Status, o: Observation)
    requires !o.caught && o.onTrack && !s.gameOver && o.stuck
    ensures CheckGameOver(s, o).gameOver <==>
      s.stuckTimer.Some? && s.stuckTimer.value + 1 > StuckLimit
    ensures CheckGameOver(s, o).gameOver ==> CheckGameOver(s, o).reason == StuckReason
  {
  }

  /** When both counters end the game in the same tick, the stuck reason is the one kept. */
  lemma StuckOverwritesReason(s: Status, o: Observation)
    requires !o.caught && !o.onTrack && o.stuck
    requires s.offTrackTimer.Some? && s.offTrackTimer.value + 1 > OffTrackLimit
    requires s.stuckTimer.Some? && s.stuckTimer.value + 1 > StuckLimit
    ensures CheckGameOver(s, o).gameOver && CheckGameOver(s, o).reason == StuckReason
  {
  }

  /** One tick of the game loop's update guard: nothing happens once the game is over. */
  function Step(s: Status, o: Observation): (r: Status)
    ensures s.gameOver ==> r == s
  {
    if s.gameOver then s else CheckGameOver(s, o)
  }

  /** The state after a run of ticks, one observation each. */
  function Run(s: Status, os: seq<Observation>): Status
    decreases |os|
  {
    if os == [] then s else Run(Step(s, os[0]), os[1..])
  }

  /** Every tick finds the car off the track, moving and not caught. */
  predicate OffTrackOnly(os: seq<Observation>)
  {
    forall i :: 0 <= i < |os| ==> !os[i].caught && !os[i].onTrack && !os[i].stuck
  }

  /** Off the track from a counter at c <= 120, the game ends after exactly 121 - c ticks:
      the counter has to climb past 120. */
  lemma {:induction false} OffTrackGrace(s: Status, os: seq<Observation>, c: int)
    requires !s.gameOver && s.offTrackTimer == Some(c) && 0 <= c <= OffTrackLimit
    requires OffTrackOnly(os)
    ensures Run(s, os).gameOver <==> |os| >= OffTrackLimit + 1 - c
    decreases |os|
  {
    if os != [] {
      assert !os[0].caught && !os[0].onTrack && !os[0].stuck;
      var s1 := Step(s, os[0]);
      assert s1.offTrackTimer == Some(c + 1);
      assert OffTrackOnly(os[1..]) by {
        forall i | 0 <= i < |os[1..]| ensures !os[1..][i].caught && !os[1..][i].onTrack && !os[1..][i].stuck {
          assert os[1..][i] == os[i + 1];
        }
      }
      if c + 1 > OffTrackLimit {
        assert s1.gameOver;
        RunFrozen(s1, os[1..]);
      } else {
        assert !s1.gameOver;
        OffTrackGrace(s1, os[1..], c + 1);
      }
    }
  }

  /** Once the game is over no tick changes anything. */
  lemma {:induction false} RunFrozen(s: Status, os: seq<Observation>)
    requires s.gameOver
    ensures Run(s, os) == s
    decreases |os|
  {
    if os != [] {
      RunFrozen(Step(s, os[0]), os[1..]);
    }
  }

  /** From a fresh game, whose counters do not exist yet, leaving the track for good ends
      the game only on the 122nd tick: the first tick merely creates the counter. */
  lemma FreshOffTrackGrace(s: Status, os: seq<Observation>)
    requires !s.gameOver && s.offTrackTimer.None? && OffTrackOnly(os) && os != []
    ensures Run(s, os).gameOver <==> |os| >= OffTrackLimit + 2
  {
    assert !os[0].caught && !os[0].onTrack && !os[0].stuck;
    var s1 := Step(s, os[0]);
    assert s1.offTrackTimer == Some(0) && !s1.gameOver;
    assert OffTrackOnly(os[1..]) by {
      forall i | 0 <= i < |os[1..]| ensures !os[1..][i].caught && !os[1..][i].onTrack && !os[1..][i].stuck {
        assert os[1..][i] == os[i + 1];
      }
    }
    OffTrackGrace(s1, os[1..], 0);
  }

  /** The best distance never decreases over any run of ticks. */
  lemma {:induction false} BestNeverDecreases(s: Status, os: seq<Observation>)
    ensures Run(s, os).bestDistance >= s.bestDistance
    decreases |os|
  {
    if os != [] {
      BestNeverDecreases(Step(s, os[0]), os[1..]);
    }
  }

  /** _restart_game's effect on the status: play resumes with fresh counters and the best
      distance kept. */
  function Restarted(s: Status): (r: Status)
    ensures !r.gameOver && r.reason == ""
    ensures r.offTrackTimer == Some(0) && r.stuckTimer == Some(0)
    ensures r.bestDistance == s.bestDistance
  {
    Status(false, "", Some(0), Some(0), s.bestDistance)
  }

  /** After a restart the next tick from the restart position is not a game over unless the
      car is caught: both counters start from an existing 0. */
  lemma RestartGivesGrace(s: Status, o: Observation)
    requires !o.caught
    ensures !Step(Restarted(s), o).gameOver
    ensures Step(Restarted(s), o).offTrackTimer.value <= 1 && Step(Restarted(s), o).stuckTimer.value <= 1
  {
  }

  /** The car's start position in endless mode: (SCREEN_WIDTH // 2, SCREEN_HEIGHT - 100). */
  const StartX: real := (ScreenWidth / 2) as real
  const StartY: real := (ScreenHeight - 100) as real

  /** A new car placed at the start position, at rest, pointing up in first gear, with
      the wheel centred, both paddle latches clear and no drift. */
  method StartCar() returns (c: Car)
    ensures fresh(c) && c.Valid()
    ensures c.x == StartX && c.y == StartY
    ensures c.vx == 0.0 && c.vy == 0.0 && c.direction == 90.0 && c.currentGear == 1
    ensures c.steeringAngle == 0.0 && c.Gearbox() == Transmission(1, false, false)
    ensures !c.isDrifting && c.driftIntensity == 0.0
  {
    c := new Car();
    c.x, c.y := StartX, StartY;
    c.vx, c.vy := 0.0, 0.0;
    c.direction := 90.0;
    c.currentGear := 1;
  }

  class EndlessRallyGame {
    var track: Track
    var car: Car
    const deathLine: DeathLine
    var gameOver: bool
    var gameOverReason: string
    var offTrackTimer: Option<int>
    var stuckTimer: Option<int>
    var bestDistance: real

    ghost predicate Valid()
      reads this, track, car
    {
      track.Valid() && car.Valid()
    }

    function CurrentStatus(): Status
      reads this
    {
      Status(gameOver, gameOverReason, offTrackTimer, stuckTimer, bestDistance)
    }

    /** What the game-over check sees now. */
    function Observe(): Observation
      reads this, track, car, deathLine
      requires track.Valid()
    {
      Observation(deathLine.CheckCollision(car.y), track.IsOnTrack(car.x, car.y),
                  IsStuck(car.vx, car.vy), track.GetDistanceTraveled())
    }

    /** A new game on a track drawn from `source`: a fresh car at the start position (see
        StartCar), the death line reset behind it, no game over, no counters yet and a best distance of 0. */
    constructor(source: nat -> ChunkDraws, sin: real -> real)
      ensures Valid()
      ensures fresh(track) && fresh(car) && fresh(deathLine)
      ensures track.chunks == InitialChunks(source, 0, sin, InitialChunkCount)
      ensures track.source == source && track.sin == sin && track.drawn == InitialChunkCount
      ensures track.cameraY == InitialCameraY && track.distanceTraveled == 0.0 && track.difficulty == 0.0
      ensures car.x == StartX && car.y == StartY && car.currentGear == 1
      ensures car.vx == 0.0 && car.vy == 0.0 && car.direction == 90.0
      ensures car.steeringAngle == 0.0 && car.Gearbox() == Transmission(1, false, false)
      ensures !car.isDrifting && car.driftIntensity == 0.0
      ensures deathLine.yPosition == StartY + ResetOffset
      ensures deathLine.currentSpeed == BaseSpeed && deathLine.pulseTimer == 0.0 && deathLine.warningAlpha == 0
      ensures CurrentStatus() == Status(false, "", None, None, 0.0)
    {
      hide MakeChunk, InitialChunks, AllWellFormed, Track.Valid, DifficultyFor;
      var t := new Track(source, sin);
      var c := StartCar();
      var d := new DeathLine();
      d.Reset(c.y);
      track, car, deathLine := t, c, d;
      gameOver, gameOverReason := false, "";
      offTrackTimer, stuckTimer := None, None;
      bestDistance := 0.0;
    }

    /** _game_over */
    method EndGameNow()
      requires track.Valid()
      modifies this`gameOver, this`bestDistance
      ensures CurrentStatus() == EndGame(old(CurrentStatus()), track.GetDistanceTraveled())
    {
      gameOver := true;
      var distance := track.GetDistanceTraveled();
      if distance > bestDistance {
        bestDistance := distance;
      }
    }

    /** _check_game_over */
    method CheckGameOverNow()
      requires track.Valid()
      modifies this`gameOver, this`gameOverReason, this`offTrackTimer, this`stuckTimer, this`bestDistance
      ensures CurrentStatus() == CheckGameOver(old(CurrentStatus()), Observe())
    {
      hide Track.IsOnTrack, Track.GetTileAtWorldPos, MakeChunk;
      ghost var o := Observe();
      ghost var s0 := CurrentStatus();
      if deathLine.CheckCollision(car.y) {
        gameOverReason := CaughtReason;
        EndGameNow();
        return;
      }
      if !track.IsOnTrack(car.x, car.y) {
        match offTrackTimer {
          case Some(t) =>
            offTrackTimer := Some(t + 1);
            if t + 1 > OffTrackLimit {
              gameOverReason := OffTrackReason;
              EndGameNow();
            }
          case None =>
            offTrackTimer := Some(0);
        }
      } else {
        offTrackTimer := Some(0);
      }
      assert CurrentStatus() == OffTrackCheck(s0, o);
      ghost var s1 := CurrentStatus();
      if IsStuck(car.vx, car.vy) {
        match stuckTimer {
          case Some(t) =>
            stuckTimer := Some(t + 1);
            if t + 1 > StuckLimit {
              gameOverReason := StuckReason;
              EndGameNow();
            }
          case None =>
            stuckTimer := Some(0);
        }
      } else {
        stuckTimer := Some(0);
      }
      assert CurrentStatus() == StuckCheck(s1, o);
    }

    /** _restart_game: a new track from `source` (with the same sine), a new car at the
        start position as StartCar builds it, and the death line reset behind
        it (twice, as the source does). */
    method RestartGame(source: nat -> ChunkDraws)
      modifies this, deathLine
      ensures Valid()
      ensures CurrentStatus() == Restarted(old(CurrentStatus()))
      ensures fresh(track) && fresh(car)
      ensures track.chunks == InitialChunks(source, 0, old(track.sin), InitialChunkCount)
      ensures track.source == source && track.sin == old(track.sin) && track.drawn == InitialChunkCount
      ensures track.cameraY == InitialCameraY && track.distanceTraveled == 0.0 && track.difficulty == 0.0
      ensures car.x == StartX && car.y == StartY
      ensures car.vx == 0.0 && car.vy == 0.0 && car.direction == 90.0 && car.currentGear == 1
      ensures car.steeringAngle == 0.0 && car.Gearbox() == Transmission(1, false, false)
      ensures !car.isDrifting && car.driftIntensity == 0.0
      ensures deathLine.yPosition == StartY + ResetOffset && !deathLine.CheckCollision(car.y)
      ensures deathLine.currentSpeed == BaseSpeed && deathLine.pulseTimer == 0.0 && deathLine.warningAlpha == 0
    {
      hide MakeChunk, InitialChunks, AllWellFormed, Track.Valid, DifficultyFor;
      gameOver := false;
      gameOverReason := "";
      offTrackTimer := Some(0);
      stuckTimer := Some(0);
      track := new Track(source, track.sin);
      car := StartCar();
      deathLine.Reset(car.y);
      deathLine.Reset(car.y);
    }

    /** The update part of one pass of run: while the game is not over, the car, the track
        and the death line are updated in that order and the game-over check runs; once it
        is over nothing changes. The car steps against the track as it was before the
        track moved on, and the death line against the car's new position. */
    method Tick(keys: Keys, physics: Physics)
      requires Valid()
      requires IsLength(physics.vx, physics.vy, physics.speed)
      modifies this, track, car, deathLine
      ensures Valid()
      ensures track == old(track) && car == old(car)
      ensures old(gameOver) ==> CurrentStatus() == old(CurrentStatus()) && unchanged(track, car, deathLine)
      ensures !old(gameOver) ==>
        var nx, ny := car.x, car.y;
        car.SteppedBy(keys, physics, old(track.IsOnTrack(nx, ny)))
      ensures !old(gameOver) ==>
        && track.cameraY == CameraFor(car.y)
        && track.distanceTraveled == DistanceFor(car.y)
        && track.difficulty == DifficultyFor(DistanceFor(car.y))
      ensures !old(gameOver) ==>
        var ahead := Ahead(old(track.chunks), track.difficulty, track.cameraY - AheadBuffer,
                           track.source, old(track.drawn), track.sin);
        && track.chunks == KeepVisible(old(track.chunks) + ahead, track.cameraY + BehindBuffer)
        && track.drawn == old(track.drawn) + |ahead|
      ensures !old(gameOver) ==>
        && deathLine.currentSpeed == SpeedFor(track.distanceTraveled)
        && deathLine.yPosition == Snap(old(deathLine.yPosition) - deathLine.currentSpeed, car.y)
        && car.y - deathLine.yPosition <= MaxDistance
        && deathLine.pulseTimer == old(deathLine.pulseTimer) + PulseStep
        && deathLine.warningAlpha == AlphaFor(car.y - deathLine.yPosition)
      ensures !old(gameOver) ==> CurrentStatus() == CheckGameOver(old(CurrentStatus()), Observe())
    {
      hide Car.SteppedBy, Track.IsOnTrack, Track.Valid, Car.Valid, KeepVisible, Ahead, MakeChunk, CheckGameOver;
      if !gameOver {
        car.UpdateForEndlessMode(keys, physics, track);
        ghost var onTrack := track.IsOnTrack(car.x, car.y);
        assert onTrack == var nx, ny := car.x, car.y; old(track.IsOnTrack(nx, ny));
        track.Update(car.y);
        deathLine.Update(car.y, track.GetDistanceTraveled());
        CheckGameOverNow();
      }
    }
  }
}
