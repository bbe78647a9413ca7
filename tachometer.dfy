/**
 * tachometer.py: the engine-speed arithmetic behind the rev counter. The Tachometer
 * recomputes the engine speed from the car itself rather than asking the car, with the
 * same formula as the car's get_rpm; the needle angle is linear in the engine speed and
 * the red zone starts at 7000.
 */
module Tachometer {
  import opened Common
  import opened Config
  import RallyCar

  const MaxRpm: real := 8000.0
  const RedlineRpm: real := 7000.0
  const IdleRpm: real := 800.0
  const StartAngle: real := 240.0
  const SweepAngle: real := 240.0

  /** calculate_rpm, with the throttle key passed in: idle below a speed of 0.1, otherwise
      the gear's band from IdleRpm + 500 per gear above first, 3000 wide (capped at MaxRpm),
      scaled by the fraction of the gear's top speed, plus 200 on throttle, capped at MaxRpm. */
  function CalculateRpm(gear: int, speed: real, throttle: bool): (rpm: real)
    requires IsGear(gear)
    ensures speed < 0.1 ==> rpm == IdleRpm
    ensures speed >= 0.1 ==> IdleRpm + (gear - 1) as real * 500.0 <= rpm <= MaxRpm
  {
    if speed < 0.1 then IdleRpm
    else
      var ratio := Min(1.0, speed / Gear(gear).maxSpeed);
      RallyCar.PositiveRatio(speed, Gear(gear).maxSpeed);
      var lo := IdleRpm + (gear - 1) as real * 500.0;
      var hi := Min(MaxRpm, lo + 3000.0);
      var rpm := lo + (hi - lo) * ratio;
      var rpm := if throttle then rpm + 200.0 else rpm;
      Min(MaxRpm, rpm)
  }

  /** Neither cap of calculate_rpm ever acts: the band of gear 6 ends at 6300 and the
      throttle adds 200, so a moving car reads its gear's base plus 3000 times the speed
      fraction plus the throttle bonus. */
  lemma ReadingNeverCapped(gear: int, speed: real, throttle: bool)
    requires IsGear(gear) && speed >= 0.1
    ensures var ratio := Min(1.0, speed / Gear(gear).maxSpeed);
      CalculateRpm(gear, speed, throttle) ==
        IdleRpm + (gear - 1) as real * 500.0 + 3000.0 * ratio + (if throttle then 200.0 else 0.0)
    ensures CalculateRpm(gear, speed, throttle) <= 6500.0
  {
    RallyCar.PositiveRatio(speed, Gear(gear).maxSpeed);
    var lo := IdleRpm + (gear - 1) as real * 500.0;
    assert lo + 3000.0 <= 6300.0;
  }

  /** The rev counter shows exactly the engine speed the car itself reports. */
  lemma AgreesWithCar(gear: int, speed: real, throttle: bool)
    requires IsGear(gear)
    ensures CalculateRpm(gear, speed, throttle) == RallyCar.Rpm(gear, speed, throttle)
  {
    if speed >= 0.1 {
      ReadingNeverCapped(gear, speed, throttle);
      RallyCar.RpmNeverCapped(gear, speed, throttle);
      assert RallyCar.MinRpm(gear) as real == IdleRpm + (gear - 1) as real * 500.0;
    }
  }

  /** For a fixed gear and throttle the reading does not fall as the speed rises, and it is
      constant once the speed reaches the gear's top speed. */
  lemma RpmMonotone(gear: int, s1: real, s2: real, throttle: bool)
    requires IsGear(gear) && s1 <= s2
    ensures CalculateRpm(gear, s1, throttle) <= CalculateRpm(gear, s2, throttle)
    ensures Gear(gear).maxSpeed <= s1 ==> CalculateRpm(gear, s1, throttle) == CalculateRpm(gear, s2, throttle)
  {
    AgreesWithCar(gear, s1, throttle);
    AgreesWithCar(gear, s2, throttle);
    RallyCar.RpmMonotone(gear, s1, s2, throttle);
    if Gear(gear).maxSpeed <= s1 {
      RallyCar.RpmSaturates(gear, s1, throttle);
      RallyCar.RpmSaturates(gear, s2, throttle);
    }
  }

  /** _rpm_to_angle: StartAngle plus the fraction of MaxRpm of the sweep. */
  function RpmToAngle(rpm: real): (angle: real)
    ensures 0.0 <= rpm <= MaxRpm ==> StartAngle <= angle <= StartAngle + SweepAngle
  {
    StartAngle + SweepAngle * (rpm / MaxRpm)
  }

  /** The needle mapping is affine: 0 rpm at 240 degrees, 8000 at 480, 0.03 degrees per rpm. */
  lemma AngleIsLinear(r1: real, r2: real)
    ensures RpmToAngle(0.0) == StartAngle
    ensures RpmToAngle(MaxRpm) == StartAngle + SweepAngle
    ensures RpmToAngle(r2) - RpmToAngle(r1) == (r2 - r1) * 0.03
  {
  }

  /** is_in_redline: the red zone starts at RedlineRpm. */
  predicate IsInRedline(rpm: real)
  {
    rpm >= RedlineRpm
  }

  /** The computed engine speed never reaches the red zone: the highest band ends at 6300,
      so the reading is at most 6500 even with the throttle down. */
  lemma NeverInRedline(gear: int, speed: real, throttle: bool)
    requires IsGear(gear)
    ensures CalculateRpm(gear, speed, throttle) <= 6500.0
    ensures !IsInRedline(CalculateRpm(gear, speed, throttle))
  {
    AgreesWithCar(gear, speed, throttle);
    if speed >= 0.1 {
      RallyCar.RpmNeverCapped(gear, speed, throttle);
    }
  }
}
