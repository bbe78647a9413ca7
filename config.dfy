/** config.py: screen geometry and the car constants, with the gear table. */
module Config {

  const ScreenWidth: int := 800
  const ScreenHeight: int := 600
  const Fps: int := 60

  const LateralGrip: real := 0.45
  const BaseDeceleration: real := 0.04
  const MaxSteeringAngle: real := 30.0
  const Wheelbase: real := 30.0
  const VehicleMass: real := 1.2

  /** The highest gear; the gear table has exactly the keys 1 .. MaxGear. */
  const MaxGear: int := 6

  datatype GearSetting = GearSetting(maxSpeed: real, baseAcceleration: real, minSpeed: real)

  /** CarConfig.GEAR_RATIOS */
  const GearRatios: map<int, GearSetting> := map[
    1 := GearSetting(2.8, 0.12, 0.0),
    2 := GearSetting(4.5, 0.09, 1.8),
    3 := GearSetting(6.5, 0.07, 3.2),
    4 := GearSetting(8.2, 0.055, 5.0),
    5 := GearSetting(9.8, 0.045, 6.8),
    6 := GearSetting(11.0, 0.035, 8.5)
  ]

  predicate IsGear(g: int) { 1 <= g <= MaxGear }

  /** GEAR_RATIOS[g]; a gear outside the table is a KeyError in the source. */
  function Gear(g: int): (s: GearSetting)
    requires IsGear(g)
    ensures 0.0 <= s.minSpeed < s.maxSpeed
    ensures 0.0 < s.baseAcceleration <= 0.12
  {
    GearRatios[g]
  }

  lemma GearTableDomain()
    ensures forall g :: g in GearRatios <==> IsGear(g)
  {
  }

  lemma MaxSpeedIncreases()
    ensures forall g :: 1 <= g < MaxGear ==> Gear(g).maxSpeed < Gear(g + 1).maxSpeed
  {
  }

  lemma BaseAccelerationDecreases()
    ensures forall g :: 1 <= g < MaxGear ==> Gear(g).baseAcceleration > Gear(g + 1).baseAcceleration
  {
  }

  /** Each gear's efficient band starts below its own top speed and below the top speed
      of the gear beneath it, so shifting up at the lower gear's limit is never below band
      for long; first gear has no band at all. */
  lemma MinSpeedsOverlap()
    ensures Gear(1).minSpeed == 0.0
    ensures forall g :: 1 < g <= MaxGear ==> Gear(g).minSpeed < Gear(g - 1).maxSpeed
  {
  }
}
