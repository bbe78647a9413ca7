/**
 * death_line.py: the death line, a horizontal line that chases the car up the screen.
 *
 * World y grows downward and the car drives toward smaller y. The line starts 300 below
 * the car after a reset and moves up by its speed every tick. A car is caught once its y is
 * at or below the line (car y >= line y).
 *
 * The gap the source measures is car y - line y. While the car is still ahead of the line
 * that gap is negative, so the distance it reports is 0 and the warning level is always
 * DANGER; the rubber-band snap only fires once the car is already caught. The class keeps
 * that behaviour, and the lemmas at the end of the module state it.
 */
module Pursuit {
  import opened Common

  const BaseSpeed: real := 0.5
  /** Declared by the source but never read by any of its operations. */
  const Acceleration: real := 0.001
  const WarningDistance: real := 150.0
  const DangerDistance: real := 80.0
  /** The largest gap car y - line y that update tolerates before it snaps the line. */
  const MaxDistance: real := 400.0
  const PulseStep: real := 0.1
  /** How far behind the car a reset places the line. */
  const ResetOffset: real := 300.0

  datatype WarningLevel = Safe | Warning | Danger

  /** The line's speed for a distance travelled: the base speed scaled by 1 + d/10000. */
  function SpeedFor(distanceTraveled: real): (s: real)
    ensures distanceTraveled >= 0.0 ==> s >= BaseSpeed
    ensures distanceTraveled == 0.0 ==> s == BaseSpeed
  {
    BaseSpeed * (1.0 + distanceTraveled * 0.0001)
  }

  lemma SpeedMonotone(d1: real, d2: real)
    requires d1 <= d2
    ensures SpeedFor(d1) <= SpeedFor(d2)
    ensures d1 < d2 ==> SpeedFor(d1) < SpeedFor(d2)
  {
  }

  /** The rubber band: a line more than MaxDistance above the car is pulled back to exactly
      MaxDistance above it; otherwise it stays where it is. */
  function Snap(y: real, carY: real): (r: real)
    ensures carY - r <= MaxDistance
    ensures r >= y
    ensures r == y <==> carY - y <= MaxDistance
    ensures r != y ==> carY - r == MaxDistance
  {
    if carY - y > MaxDistance then carY - MaxDistance else y
  }

  /** The warning overlay's alpha for a raw gap car y - line y. */
  function AlphaFor(gap: real): (a: int)
    ensures a == 0 || a == 50 || a == 100
    ensures a == 100 <==> gap < DangerDistance
    ensures a == 50 <==> DangerDistance <= gap < WarningDistance
    ensures a == 0 <==> gap >= WarningDistance
  {
    if gap < DangerDistance then 100
    else if gap < WarningDistance then 50
    else 0
  }

  /** The level reported for a (non-negative) distance. */
  function LevelFor(distance: real): (l: WarningLevel)
    ensures l == Danger <==> distance < DangerDistance
    ensures l == Warning <==> DangerDistance <= distance < WarningDistance
    ensures l == Safe <==> distance >= WarningDistance
  {
    if distance < DangerDistance then Danger
    else if distance < WarningDistance then Warning
    else Safe
  }

  /** The alpha each level's overlay uses. */
  function AlphaOfLevel(l: WarningLevel): int
  {
    match l
    case Danger => 100
    case Warning => 50
    case Safe => 0
  }

  /** The overlay that update computes from the raw gap always matches the level reported
      for the clipped distance: clipping a negative gap to 0 keeps it below DangerDistance. */
  lemma AlphaAgreesWithLevel(gap: real)
    ensures AlphaFor(gap) == AlphaOfLevel(LevelFor(Max(0.0, gap)))
  {
  }

  class DeathLine {
    var yPosition: real
    var currentSpeed: real
    var pulseTimer: real
    var warningAlpha: int

    constructor()
      ensures yPosition == 0.0 && currentSpeed == BaseSpeed
      ensures pulseTimer == 0.0 && warningAlpha == 0
    {
      yPosition := 0.0;
      currentSpeed := BaseSpeed;
      pulseTimer := 0.0;
      warningAlpha := 0;
    }

    /** One tick: set the speed from the distance, move up, snap back if the car is more
        than MaxDistance below the line, advance the pulse and recompute the alpha. */
    method Update(carY: real, distanceTraveled: real)
      modifies this
      ensures currentSpeed == SpeedFor(distanceTraveled)
      ensures yPosition == Snap(old(yPosition) - currentSpeed, carY)
      ensures carY - yPosition <= MaxDistance
      ensures pulseTimer == old(pulseTimer) + PulseStep
      ensures warningAlpha == AlphaFor(carY - yPosition)
      ensures warningAlpha == AlphaOfLevel(GetWarningLevel(carY))
    {
      currentSpeed := BaseSpeed * (1.0 + distanceTraveled * 0.0001);
      yPosition := yPosition - currentSpeed;
      if carY - yPosition > MaxDistance {
        yPosition := carY - MaxDistance;
      }
      pulseTimer := pulseTimer + PulseStep;
      var distanceToCar := carY - yPosition;
      if distanceToCar < DangerDistance {
        warningAlpha := 100;
      } else if distanceToCar < WarningDistance {
        warningAlpha := 50;
      } else {
        warningAlpha := 0;
      }
      AlphaAgreesWithLevel(carY - yPosition);
    }

    predicate CheckCollision(carY: real)
      reads this
    {
      carY >= yPosition
    }

    function GetDistanceToCar(carY: real): (d: real)
      reads this
      ensures d >= 0.0
      ensures d == 0.0 <==> carY <= yPosition
      ensures d > 0.0 ==> d == carY - yPosition
    {
      Max(0.0, carY - yPosition)
    }

    function GetWarningLevel(carY: real): (l: WarningLevel)
      reads this
      ensures l == Danger <==> carY - yPosition < DangerDistance
      ensures l == Warning <==> DangerDistance <= carY - yPosition < WarningDistance
      ensures l == Safe <==> carY - yPosition >= WarningDistance
    {
      LevelFor(GetDistanceToCar(carY))
    }

    /** Put the line ResetOffset behind the car and clear the speed and the overlay. */
    method Reset(carY: real)
      modifies this
      ensures yPosition == carY + ResetOffset
      ensures currentSpeed == BaseSpeed
      ensures pulseTimer == 0.0 && warningAlpha == 0
      ensures !CheckCollision(carY)
    {
      yPosition := carY + ResetOffset;
      currentSpeed := BaseSpeed;
      pulseTimer := 0.0;
      warningAlpha := 0;
    }
  }

  /** While the car is ahead of the line the reported distance is 0 and the level is DANGER. */
  lemma LiveCarAlwaysDanger(line: DeathLine, carY: real)
    requires !line.CheckCollision(carY)
    ensures line.GetDistanceToCar(carY) == 0.0
    ensures line.GetWarningLevel(carY) == Danger
  {
  }

  /** The level is SAFE or WARNING only while the car is already caught. */
  lemma SafeOnlyWhenCaught(line: DeathLine, carY: real)
    requires line.GetWarningLevel(carY) != Danger
    ensures line.CheckCollision(carY)
    ensures carY - line.yPosition >= DangerDistance
  {
  }

  /** The rubber band never moves a line that is still below (behind) the car's position,
      and a line it does move is left catching the car. */
  lemma RubberBandOnlyAfterCatch(y: real, carY: real)
    ensures carY < y ==> Snap(y, carY) == y
    ensures Snap(y, carY) != y ==> carY > Snap(y, carY)
  {
  }
}
