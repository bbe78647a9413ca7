/**
 * realistic_rally_car.py: the discrete and bounded parts of the rally car.
 *
 * The car has a six-speed paddle gearbox whose Q and E keys are edge-triggered through
 * two latches, a steering angle bounded by MaxSteeringAngle that decays back to centre,
 * a torque curve per gear, surface-dependent grip and friction factors, an engine speed
 * computed from the gear and the road speed, a slip angle that decides whether the car
 * is drifting, and the clamps of the endless-mode tick.
 *
 * The road speed is the length of the velocity vector; since there is no square root here,
 * every operation that needs it takes it as a parameter `speed` together with the fact
 * speed * speed == vx * vx + vy * vy. The vector and trigonometric physics that turns the
 * keys into a new velocity and heading is not modelled: its outcome reaches the endless
 * tick as a `Physics` value.
 */
module RallyCar {
  import opened Common
  import opened Config
  import opened TrackConfig
  import EndlessTrack

  /** Keys read this tick: up is UP or W (throttle), down is DOWN or S, q and e are the
      paddles. */
  datatype Keys = Keys(up: bool, down: bool, left: bool, right: bool, q: bool, e: bool)

  /** The numbers the left-out vector physics leaves for the rest of the tick: the speed
      its vehicle step sees, the heading of the velocity in degrees (atan2), the velocity it
      produces with that velocity's length, and the heading change of a steering turn if
      one happened. */
  datatype Physics = Physics(slipSpeed: real, velocityAngle: real, vx: real, vy: real, speed: real, turn: Option<real>)

  /** `speed` is the length of (vx, vy). */
  predicate IsLength(vx: real, vy: real, speed: real)
  {
    speed >= 0.0 && speed * speed == vx * vx + vy * vy
  }

  // ---------------------------------------------------------------- gearbox

  function ShiftedUp(g: int): (r: int)
    requires IsGear(g)
    ensures IsGear(r)
    ensures g < MaxGear ==> r == g + 1
    ensures g == MaxGear ==> r == g
  {
    if g < MaxGear then g + 1 else g
  }

  function ShiftedDown(g: int): (r: int)
    requires IsGear(g)
    ensures IsGear(r)
    ensures g > 1 ==> r == g - 1
    ensures g == 1 ==> r == g
  {
    if g > 1 then g - 1 else g
  }

  /** Shifting up then down (or down then up) away from the limits returns to the gear. */
  lemma ShiftRoundTrip(g: int)
    requires IsGear(g)
    ensures g < MaxGear ==> ShiftedDown(ShiftedUp(g)) == g
    ensures g > 1 ==> ShiftedUp(ShiftedDown(g)) == g
  {
  }

  /** The gear and the two paddle latches. */
  datatype Transmission = Transmission(gear: int, upLatched: bool, downLatched: bool)

  /** A paddle key shifts only on the tick it goes down: pressed while its latch is clear. */
  predicate FreshPress(key: bool, latched: bool)
  {
    key && !latched
  }

  /** One tick of the paddle logic of _handle_input: a key that is down and not latched
      shifts and latches; a key that is up releases its latch; Q is handled before E. */
  function PaddleStep(t: Transmission, q: bool, e: bool): (r: Transmission)
    requires IsGear(t.gear)
    ensures IsGear(r.gear)
    ensures r.upLatched == q && r.downLatched == e
    ensures !FreshPress(q, t.upLatched) && !FreshPress(e, t.downLatched) ==> r.gear == t.gear
    ensures FreshPress(q, t.upLatched) && !FreshPress(e, t.downLatched) ==> r.gear == ShiftedUp(t.gear)
    ensures !FreshPress(q, t.upLatched) && FreshPress(e, t.downLatched) ==> r.gear == ShiftedDown(t.gear)
    ensures FreshPress(q, t.upLatched) && FreshPress(e, t.downLatched) ==> r.gear == ShiftedDown(ShiftedUp(t.gear))
    ensures FreshPress(q, t.upLatched) && FreshPress(e, t.downLatched) && t.gear < MaxGear ==> r.gear == t.gear
  {
    var afterUp := if q && !t.upLatched then ShiftedUp(t.gear) else t.gear;
    var afterDown := if e && !t.downLatched then ShiftedDown(afterUp) else afterUp;
    Transmission(afterDown, q, e)
  }

  /** The transmission after a sequence of ticks, each given as its (Q, E) keys. */
  function RunPaddles(t: Transmission, ticks: seq<(bool, bool)>): (r: Transmission)
    requires IsGear(t.gear)
    ensures IsGear(r.gear)
    decreases |ticks|
  {
    if ticks == [] then t else RunPaddles(PaddleStep(t, ticks[0].0, ticks[0].1), ticks[1..])
  }

  /** Every tick holds Q down and E up. */
  predicate HoldsUpOnly(ticks: seq<(bool, bool)>)
  {
    forall i :: 0 <= i < |ticks| ==> ticks[i] == (true, false)
  }

  lemma {:induction false} LatchedHoldKeepsGear(t: Transmission, ticks: seq<(bool, bool)>)
    requires IsGear(t.gear) && t.upLatched && HoldsUpOnly(ticks)
    ensures RunPaddles(t, ticks).gear == t.gear
    decreases |ticks|
  {
    if ticks != [] {
      var next := PaddleStep(t, true, false);
      assert ticks[0] == (true, false);
      assert HoldsUpOnly(ticks[1..]) by {
        forall i | 0 <= i < |ticks[1..]| ensures ticks[1..][i] == (true, false) {
          assert ticks[1..][i] == ticks[i + 1];
        }
      }
      LatchedHoldKeepsGear(next, ticks[1..]);
    }
  }

  /** Holding Q for any number of ticks shifts up at most once: exactly once if the latch was
      released when the hold began, and not at all if it was still set. */
  lemma HeldKeyShiftsOnce(t: Transmission, ticks: seq<(bool, bool)>)
    requires IsGear(t.gear) && HoldsUpOnly(ticks) && ticks != []
    ensures RunPaddles(t, ticks).gear == if t.upLatched then t.gear else ShiftedUp(t.gear)
    ensures RunPaddles(t, ticks).upLatched
  {
    assert ticks[0] == (true, false);
    var next := PaddleStep(t, true, false);
    assert HoldsUpOnly(ticks[1..]) by {
      forall i | 0 <= i < |ticks[1..]| ensures ticks[1..][i] == (true, false) {
        assert ticks[1..][i] == ticks[i + 1];
      }
    }
    LatchedHoldKeepsGear(next, ticks[1..]);
    assert RunPaddles(t, ticks) == RunPaddles(next, ticks[1..]);
    if ticks[1..] != [] {
      assert ticks[1..][|ticks[1..]| - 1] == (true, false);
      LastTickLatch(next, ticks[1..]);
    }
  }

  /** Every tick holds E down and Q up. */
  predicate HoldsDownOnly(ticks: seq<(bool, bool)>)
  {
    forall i :: 0 <= i < |ticks| ==> ticks[i] == (false, true)
  }

  lemma {:induction false} LatchedDownHoldKeepsGear(t: Transmission, ticks: seq<(bool, bool)>)
    requires IsGear(t.gear) && t.downLatched && HoldsDownOnly(ticks)
    ensures RunPaddles(t, ticks).gear == t.gear
    decreases |ticks|
  {
    if ticks != [] {
      var next := PaddleStep(t, false, true);
      assert ticks[0] == (false, true);
      assert HoldsDownOnly(ticks[1..]) by {
        forall i | 0 <= i < |ticks[1..]| ensures ticks[1..][i] == (false, true) {
          assert ticks[1..][i] == ticks[i + 1];
        }
      }
      LatchedDownHoldKeepsGear(next, ticks[1..]);
    }
  }

  /** Holding E for any number of ticks shifts down at most once. */
  lemma HeldDownShiftsOnce(t: Transmission, ticks: seq<(bool, bool)>)
    requires IsGear(t.gear) && HoldsDownOnly(ticks) && ticks != []
    ensures RunPaddles(t, ticks).gear == if t.downLatched then t.gear else ShiftedDown(t.gear)
    ensures RunPaddles(t, ticks).downLatched
  {
    assert ticks[0] == (false, true);
    var next := PaddleStep(t, false, true);
    assert HoldsDownOnly(ticks[1..]) by {
      forall i | 0 <= i < |ticks[1..]| ensures ticks[1..][i] == (false, true) {
        assert ticks[1..][i] == ticks[i + 1];
      }
    }
    LatchedDownHoldKeepsGear(next, ticks[1..]);
    assert RunPaddles(t, ticks) == RunPaddles(next, ticks[1..]);
    if ticks[1..] != [] {
      assert ticks[1..][|ticks[1..]| - 1] == (false, true);
      LastTickLatch(next, ticks[1..]);
    }
  }

  lemma {:induction false} LastTickLatch(t: Transmission, ticks: seq<(bool, bool)>)
    requires IsGear(t.gear) && ticks != []
    ensures RunPaddles(t, ticks).upLatched == ticks[|ticks| - 1].0
    ensures RunPaddles(t, ticks).downLatched == ticks[|ticks| - 1].1
    decreases |ticks|
  {
    var next := PaddleStep(t, ticks[0].0, ticks[0].1);
    if |ticks| > 1 {
      assert ticks[1..][|ticks[1..]| - 1] == ticks[|ticks| - 1];
      LastTickLatch(next, ticks[1..]);
    }
  }

  // ---------------------------------------------------------------- steering

  /** The steering part of _handle_input: LEFT adds 2 (and wins over RIGHT), RIGHT takes 2,
      both bounded by MaxSteeringAngle; with neither the angle decays by 0.9, or snaps to 0
      once it is within 1 of centre. */
  function SteerStep(a: real, left: bool, right: bool): (r: real)
    ensures Abs(a) <= MaxSteeringAngle ==> Abs(r) <= MaxSteeringAngle
    ensures left ==> r == Min(a + 2.0, MaxSteeringAngle)
    ensures !left && right ==> r == Max(a - 2.0, -MaxSteeringAngle)
    ensures !left && !right && Abs(a) > 1.0 ==> r == 0.9 * a
    ensures !left && !right && Abs(a) <= 1.0 ==> r == 0.0
    ensures !left && !right ==> Abs(r) <= Abs(a)
  {
    if left then Min(a + 2.0, MaxSteeringAngle)
    else if right then Max(a - 2.0, -MaxSteeringAngle)
    else if Abs(a) > 1.0 then a * 0.9
    else 0.0
  }

  /** Releasing the keys never flips the wheel to the other side. */
  lemma DecayKeepsSide(a: real)
    ensures a >= 0.0 ==> SteerStep(a, false, false) >= 0.0
    ensures a <= 0.0 ==> SteerStep(a, false, false) <= 0.0
  {
  }

  // ---------------------------------------------------------------- torque and acceleration

  /** get_torque_efficiency: below the gear's efficient band the engine delivers in
      proportion to the speed, but never less than 15 %. */
  function TorqueEfficiency(gear: int, speed: real): (eff: real)
    requires IsGear(gear)
    ensures 0.15 <= eff <= 1.0
    ensures eff == 1.0 <==> Gear(gear).minSpeed == 0.0 || speed >= Gear(gear).minSpeed
    ensures eff < 1.0 ==> eff == Max(0.15, speed / Gear(gear).minSpeed)
  {
    var m := Gear(gear).minSpeed;
    if m > 0.0 && speed < m then
      DivBelowOne(speed, m);
      Max(0.15, speed / m)
    else 1.0
  }

  lemma DivBelowOne(x: real, m: real)
    requires m > 0.0 && x < m
    ensures x / m < 1.0
  {
  }

  /** In first gear there is no efficient band, so the torque is always full. */
  lemma FirstGearFullTorque(speed: real)
    ensures TorqueEfficiency(1, speed) == 1.0
  {
  }

  /** The wheelspin factor of _calculate_acceleration for a raw acceleration a. */
  function SlipFactor(a: real): (f: real)
    ensures 0.7 <= f <= 1.0
    ensures a <= 0.08 <==> f == 1.0
    ensures a > 0.08 ==> f == Max(0.7, 0.9 - (a - 0.08) * 1.2)
  {
    if a > 0.08 then Max(0.7, 0.9 - (a - 0.08) * 1.2) else 1.0
  }

  /** _calculate_acceleration: base acceleration times torque efficiency, reduced by the
      wheelspin factor once it exceeds 0.08. */
  function Acceleration(gear: int, speed: real): (acc: real)
    requires IsGear(gear)
    ensures var a := Gear(gear).baseAcceleration * TorqueEfficiency(gear, speed);
      && (a <= 0.08 ==> acc == a)
      && (a > 0.08 ==> acc == a * Max(0.7, 0.9 - (a - 0.08) * 1.2))
  {
    var a := Gear(gear).baseAcceleration * TorqueEfficiency(gear, speed);
    a * SlipFactor(a)
  }

  /** The delivered acceleration is positive and never above the gear's base acceleration;
      with the gear table as it is the wheelspin floor of 0.7 is never reached. */
  lemma AccelerationBounds(gear: int, speed: real)
    requires IsGear(gear)
    ensures 0.0 < Acceleration(gear, speed) <= Gear(gear).baseAcceleration
    ensures var a := Gear(gear).baseAcceleration * TorqueEfficiency(gear, speed);
      a > 0.08 ==> SlipFactor(a) > 0.7
  {
    var b := Gear(gear).baseAcceleration;
    var e := TorqueEfficiency(gear, speed);
    MulBetween(b, e);
    var a := b * e;
    assert 0.0 < a <= b;
    var f := SlipFactor(a);
    MulBetween(a, f);
  }

  lemma MulBetween(x: real, f: real)
    requires x > 0.0 && 0.0 < f <= 1.0
    ensures 0.0 < x * f <= x
  {
  }

  // ---------------------------------------------------------------- surfaces

  /** _get_surface_grip_modifier: None stands for a car without a track. */
  function GripModifier(surface: Option<string>): (m: real)
    ensures surface == Some("gravel") ==> m == 0.8
    ensures surface == Some("dirt") ==> m == 0.7
    ensures surface == Some("tarmac") ==> m == 1.2
    ensures surface == Some("mud") ==> m == 0.5
    ensures m == 1.0 <==> surface.None? || surface.value !in {"gravel", "dirt", "tarmac", "mud"}
  {
    match surface
    case None => 1.0
    case Some(s) =>
      if s == "gravel" then 0.8
      else if s == "dirt" then 0.7
      else if s == "tarmac" then 1.2
      else if s == "mud" then 0.5
      else 1.0
  }

  /** _get_surface_friction_modifier: None stands for a car without a track. */
  function FrictionModifier(surface: Option<string>): (m: real)
    ensures surface == Some("gravel") ==> m == 0.9
    ensures surface == Some("dirt") ==> m == 0.7
    ensures surface == Some("tarmac") ==> m == 1.3
    ensures surface == Some("mud") ==> m == 0.4
    ensures m == 1.0 <==> surface.None? || surface.value !in {"gravel", "dirt", "tarmac", "mud"}
  {
    match surface
    case None => 1.0
    case Some(s) =>
      if s == "gravel" then 0.9
      else if s == "dirt" then 0.7
      else if s == "tarmac" then 1.3
      else if s == "mud" then 0.4
      else 1.0
  }

  /** On the endless track every point has a known surface label, so the neutral 1.0 of
      both tables is only ever used by a car without a track; mud never occurs. */
  lemma TrackSurfaceHasModifier(t: EndlessTrack.Track, x: real, y: real)
    requires t.Valid()
    ensures GripModifier(Some(t.GetSurfaceAtPosition(x, y))) in {0.8, 0.7, 1.2}
    ensures FrictionModifier(Some(t.GetSurfaceAtPosition(x, y))) in {0.9, 0.7, 1.3}
  {
  }

  // ---------------------------------------------------------------- engine speed

  /** get_speed_kmh: pixels per frame times 0.1 m, 60 frames and 3.6. */
  function SpeedKmh(speed: real): (kmh: real)
    ensures kmh == speed * 21.6
    ensures speed >= 0.0 ==> kmh >= 0.0
  {
    speed * 0.1 * 60.0 * 3.6
  }

  /** The bottom of a gear's engine-speed band. */
  function MinRpm(gear: int): int
  {
    800 + (gear - 1) * 500
  }

  /** get_rpm: idle below 0.1; otherwise the gear's 3000-rpm band scaled by the fraction of
      the gear's top speed, plus 200 on throttle, capped at 8000. */
  function Rpm(gear: int, speed: real, throttle: bool): (rpm: real)
    requires IsGear(gear)
    ensures speed < 0.1 ==> rpm == 800.0
    ensures speed >= 0.1 ==> MinRpm(gear) as real <= rpm <= 8000.0
    ensures speed >= 0.1 && throttle ==> rpm >= MinRpm(gear) as real + 200.0
  {
    if speed < 0.1 then 800.0
    else
      var ratio := Min(1.0, speed / Gear(gear).maxSpeed);
      PositiveRatio(speed, Gear(gear).maxSpeed);
      var lo := MinRpm(gear) as real;
      var hi := Min(8000.0, lo + 3000.0);
      var rpm := lo + (hi - lo) * ratio;
      var rpm := if throttle then rpm + 200.0 else rpm;
      Min(8000.0, rpm)
  }

  lemma PositiveRatio(x: real, m: real)
    requires x > 0.0 && m > 0.0
    ensures x / m > 0.0
  {
  }

  lemma DivMono(x: real, y: real, m: real)
    requires x <= y && m > 0.0
    ensures x / m <= y / m
  {
    assert y / m - x / m == (y - x) / m;
  }

  /** The band never reaches the 8000 cap: every gear's band ends at MinRpm + 3000 <= 6300,
      so the engine speed is at most 6500 with throttle and no cap ever applies. */
  lemma RpmNeverCapped(gear: int, speed: real, throttle: bool)
    requires IsGear(gear) && speed >= 0.1
    ensures var ratio := Min(1.0, speed / Gear(gear).maxSpeed);
      Rpm(gear, speed, throttle) == MinRpm(gear) as real + 3000.0 * ratio + (if throttle then 200.0 else 0.0)
    ensures Rpm(gear, speed, throttle) <= 6500.0
  {
    PositiveRatio(speed, Gear(gear).maxSpeed);
  }

  /** For a fixed gear and throttle the engine speed does not fall as the road speed rises. */
  lemma RpmMonotone(gear: int, s1: real, s2: real, throttle: bool)
    requires IsGear(gear) && s1 <= s2
    ensures Rpm(gear, s1, throttle) <= Rpm(gear, s2, throttle)
  {
    if s1 >= 0.1 {
      RpmNeverCapped(gear, s1, throttle);
      RpmNeverCapped(gear, s2, throttle);
      DivMono(s1, s2, Gear(gear).maxSpeed);
    }
  }

  /** At or above the gear's top speed the engine speed stays at the end of the band. */
  lemma RpmSaturates(gear: int, speed: real, throttle: bool)
    requires IsGear(gear) && speed >= Gear(gear).maxSpeed
    ensures Rpm(gear, speed, throttle) == MinRpm(gear) as real + 3000.0 + (if throttle then 200.0 else 0.0)
  {
    var m := Gear(gear).maxSpeed;
    RpmNeverCapped(gear, speed, throttle);
    DivMono(m, speed, m);
    assert m / m == 1.0;
  }

  // ---------------------------------------------------------------- slip, drift, heading

  /** The ceiling of a real. */
  function Ceil(x: real): (c: int)
    ensures x <= c as real < x + 1.0
  {
    -((-x).Floor)
  }

  /** The representative of raw in [-180, 180] that the two while-loops of
      _apply_vehicle_physics reach: a raw angle above 180 loses whole turns until it is at
      most 180, one below -180 gains whole turns until it is at least -180. */
  function WrappedSlip(raw: real): (s: real)
    ensures -180.0 <= s <= 180.0
    ensures -180.0 <= raw <= 180.0 ==> s == raw
    ensures raw > 180.0 ==> -180.0 < s
    ensures raw < -180.0 ==> s < 180.0
  {
    if raw > 180.0 then raw - 360.0 * Ceil((raw - 180.0) / 360.0) as real
    else if raw < -180.0 then raw + 360.0 * Ceil((-180.0 - raw) / 360.0) as real
    else raw
  }

  /** WrappedSlip is the only angle strictly inside (-180, 180) that is a whole number of
      turns away from raw: any such angle is what the loops reach. */
  lemma WrappedSlipUnique(raw: real, s: real, k: int)
    requires -180.0 < s < 180.0 && s == raw + 360.0 * k as real
    ensures s == WrappedSlip(raw)
  {
    var j := if raw > 180.0 then -Ceil((raw - 180.0) / 360.0)
             else if raw < -180.0 then Ceil((-180.0 - raw) / 360.0)
             else 0;
    assert WrappedSlip(raw) == raw + 360.0 * j as real;
    assert -360.0 < 360.0 * (k - j) as real < 360.0;
  }

  /** Two angles in a half-open window of one turn that differ by whole turns are equal. */
  lemma SameTurnWindow(a: real, b: real, k: int, lo: real)
    requires lo < a <= lo + 360.0 && lo < b <= lo + 360.0
    requires a == b + 360.0 * k as real
    ensures a == b
  {
    assert -360.0 < 360.0 * k as real < 360.0;
  }

  /** Where the slip-angle loops stop is WrappedSlip: a whole number of turns from raw,
      inside [-180, 180], the raw angle itself when it was already there, and off the far
      end of the window only when the loops came from the other side. */
  lemma LoopExitIsWrapped(raw: real, slip: real, turns: int)
    requires slip == raw + 360.0 * turns as real && -180.0 <= slip <= 180.0
    requires raw > 180.0 ==> -180.0 < slip
    requires raw < -180.0 ==> slip < 180.0
    requires -180.0 <= raw <= 180.0 ==> slip == raw
    ensures slip == WrappedSlip(raw)
  {
    if raw > 180.0 {
      var k := Ceil((raw - 180.0) / 360.0);
      SameTurnWindow(slip, WrappedSlip(raw), -turns - k, -180.0);
    } else if raw < -180.0 {
      var k := Ceil((-180.0 - raw) / 360.0);
      SameTurnWindow(-slip, -WrappedSlip(raw), k - turns, -180.0);
    }
  }

  /** The slip-angle loops of _apply_vehicle_physics. turns is the number of whole turns the
      loops added (negative when they subtracted). */
  method WrapSlipAngle(raw: real) returns (slip: real, turns: int)
    ensures slip == WrappedSlip(raw)
    ensures slip == raw + 360.0 * turns as real
    ensures -180.0 <= slip <= 180.0
  {
    slip := raw;
    turns := 0;
    while slip > 180.0
      invariant slip == raw + 360.0 * turns as real
      invariant -180.0 <= raw <= 180.0 ==> slip == raw
      invariant raw > 180.0 ==> slip > -180.0
      decreases slip.Floor
    {
      slip := slip - 360.0;
      turns := turns - 1;
    }
    while slip < -180.0
      invariant slip == raw + 360.0 * turns as real
      invariant slip <= 180.0
      invariant -180.0 <= raw <= 180.0 ==> slip == raw
      invariant raw > 180.0 ==> slip > -180.0
      invariant raw < -180.0 ==> slip < 180.0
      decreases (-slip).Floor
    {
      slip := slip + 360.0;
      turns := turns + 1;
    }
    LoopExitIsWrapped(raw, slip, turns);
  }

  /** drift_intensity: the slip angle as a fraction of 30 degrees. */
  function DriftIntensity(slip: real): (i: real)
    ensures i >= 0.0
    ensures -180.0 <= slip <= 180.0 ==> i <= 6.0
  {
    Abs(slip) / 30.0
  }

  predicate IsDrifting(slip: real)
  {
    DriftIntensity(slip) > 0.3
  }

  /** The car drifts exactly when the slip angle exceeds 9 degrees either way. */
  lemma DriftIffSlipOverNine(slip: real)
    ensures IsDrifting(slip) <==> Abs(slip) > 9.0
  {
  }

  /** Python's `direction % 360` for a positive modulus: the result is in [0, 360). */
  function HeadingMod(d: real): (h: real)
    ensures 0.0 <= h < 360.0
    ensures 0.0 <= d < 360.0 ==> h == d
  {
    HeadingTurns(d);
    d - 360.0 * (d / 360.0).Floor as real
  }

  lemma HeadingTurns(d: real)
    ensures 0.0 <= d - 360.0 * (d / 360.0).Floor as real < 360.0
    ensures 0.0 <= d < 360.0 ==> (d / 360.0).Floor == 0
  {
    var k := (d / 360.0).Floor;
    assert k as real <= d / 360.0 < k as real + 1.0;
    assert 360.0 * k as real <= d < 360.0 * k as real + 360.0;
    if 0.0 <= d < 360.0 {
      assert 0.0 <= d / 360.0 < 1.0;
    }
  }

  /** HeadingMod(d) is the only heading in [0, 360) a whole number of turns away from d. */
  lemma HeadingUnique(d: real, h: real, k: int)
    requires 0.0 <= h < 360.0 && h == d + 360.0 * k as real
    ensures h == HeadingMod(d)
  {
    var j := (d / 360.0).Floor;
    assert HeadingMod(d) == d - 360.0 * j as real;
    assert -360.0 < 360.0 * (k + j) as real < 360.0;
  }

  /** Whole turns added to a heading do not change its reduction. */
  lemma HeadingPeriodic(d: real, k: int)
    ensures HeadingMod(d + 360.0 * k as real) == HeadingMod(d)
  {
    var j := (d / 360.0).Floor;
    assert HeadingMod(d) == (d + 360.0 * k as real) + 360.0 * (-k - j) as real;
    HeadingUnique(d + 360.0 * k as real, HeadingMod(d), -k - j);
  }

  // ---------------------------------------------------------------- speed cap

  /** The top-speed cap of update_for_endless_mode: a velocity longer than maxSpeed is
      rescaled to length maxSpeed in the same direction. */
  function CapVelocity(vx: real, vy: real, speed: real, maxSpeed: real): (r: (real, real))
    requires IsLength(vx, vy, speed) && maxSpeed > 0.0
    ensures speed <= maxSpeed ==> r == (vx, vy)
    ensures speed > maxSpeed ==> r == (vx * (maxSpeed / speed), vy * (maxSpeed / speed))
    ensures SpeedWithin(r.0, r.1, maxSpeed)
  {
    if speed > maxSpeed then
      ScaledLength(vx, vy, speed, maxSpeed / speed);
      assert (maxSpeed / speed) * speed == maxSpeed;
      (vx * (maxSpeed / speed), vy * (maxSpeed / speed))
    else
      SquareMono(speed, maxSpeed);
      (vx, vy)
  }

  lemma ScaledLength(vx: real, vy: real, speed: real, k: real)
    requires IsLength(vx, vy, speed)
    ensures (vx * k) * (vx * k) + (vy * k) * (vy * k) == (k * speed) * (k * speed)
  {
    calc {
      (vx * k) * (vx * k) + (vy * k) * (vy * k);
      (k * k) * (vx * vx + vy * vy);
      (k * k) * (speed * speed);
      (k * speed) * (k * speed);
    }
  }

  lemma SquareMono(a: real, b: real)
    requires 0.0 <= a <= b
    ensures a * a <= b * b
  {
    assert a * a <= a * b;
    assert a * b <= b * b;
  }

  /** Scaling by a factor in [0, 1] keeps a velocity within the cap. */
  lemma DampedStaysCapped(vx: real, vy: real, f: real, m: real)
    requires SpeedWithin(vx, vy, m) && 0.0 <= f <= 1.0
    ensures SpeedWithin(vx * f, vy * f, m)
  {
    assert (vx * f) * (vx * f) + (vy * f) * (vy * f) == (f * f) * (vx * vx + vy * vy);
    assert f * f <= 1.0 by { SquareMono(f, 1.0); }
    assert (f * f) * (vx * vx + vy * vy) <= vx * vx + vy * vy;
  }

  /** A velocity no longer than m. */
  predicate SpeedWithin(vx: real, vy: real, m: real)
  {
    vx * vx + vy * vy <= m * m
  }

  // ---------------------------------------------------------------- the car

  class Car {
    var x: real
    var y: real
    var vx: real
    var vy: real
    var direction: real
    var steeringAngle: real
    var currentGear: int
    var shiftUpPressed: bool
    var shiftDownPressed: bool
    var isDrifting: bool
    var driftIntensity: real

    /** The gear is in the table, the steering angle within its limit and the heading in
        [0, 360). */
    predicate Valid()
      reads this
    {
      IsGear(currentGear) && Abs(steeringAngle) <= MaxSteeringAngle && 0.0 <= direction < 360.0
    }

    /** The velocity is no longer than the current gear's top speed. */
    predicate WithinTopSpeed()
      reads this
      requires IsGear(currentGear)
    {
      SpeedWithin(vx, vy, Gear(currentGear).maxSpeed)
    }

    function Gearbox(): Transmission
      reads this
    {
      Transmission(currentGear, shiftUpPressed, shiftDownPressed)
    }

    /** A fresh car: pointing up (90), at rest in first gear, wheel centred, latches open,
        placed at the sprite's starting centre (SCREEN_WIDTH // 2, SCREEN_HEIGHT * 0.8). */
    constructor()
      ensures Valid()
      ensures x == (ScreenWidth / 2) as real && y == ScreenHeight as real * 0.8
      ensures vx == 0.0 && vy == 0.0 && direction == 90.0 && steeringAngle == 0.0
      ensures currentGear == 1 && !shiftUpPressed && !shiftDownPressed
      ensures !isDrifting && driftIntensity == 0.0
    {
      x := (ScreenWidth / 2) as real;
      y := ScreenHeight as real * 0.8;
      vx := 0.0;
      vy := 0.0;
      direction := 90.0;
      steeringAngle := 0.0;
      currentGear := 1;
      shiftUpPressed := false;
      shiftDownPressed := false;
      isDrifting := false;
      driftIntensity := 0.0;
    }

    /** shift_up; the gear sound is not modelled. */
    method ShiftUp()
      requires IsGear(currentGear)
      modifies this`currentGear
      ensures currentGear == ShiftedUp(old(currentGear))
    {
      if currentGear < MaxGear {
        currentGear := currentGear + 1;
      }
    }

    /** shift_down; the gear sound is not modelled. */
    method ShiftDown()
      requires IsGear(currentGear)
      modifies this`currentGear
      ensures currentGear == ShiftedDown(old(currentGear))
    {
      if currentGear > 1 {
        currentGear := currentGear - 1;
      }
    }

    /** _handle_input: the paddles, then the steering. */
    method HandleInput(keys: Keys)
      requires Valid()
      modifies this`currentGear, this`shiftUpPressed, this`shiftDownPressed, this`steeringAngle
      ensures Valid()
      ensures Gearbox() == PaddleStep(old(Gearbox()), keys.q, keys.e)
      ensures steeringAngle == SteerStep(old(steeringAngle), keys.left, keys.right)
    {
      if keys.q && !shiftUpPressed {
        ShiftUp();
        shiftUpPressed := true;
      } else if !keys.q {
        shiftUpPressed := false;
      }
      if keys.e && !shiftDownPressed {
        ShiftDown();
        shiftDownPressed := true;
      } else if !keys.e {
        shiftDownPressed := false;
      }
      if keys.left {
        steeringAngle := Min(steeringAngle + 2.0, MaxSteeringAngle);
      } else if keys.right {
        steeringAngle := Max(steeringAngle - 2.0, -MaxSteeringAngle);
      } else {
        if Abs(steeringAngle) > 1.0 {
          steeringAngle := steeringAngle * 0.9;
        } else {
          steeringAngle := 0.0;
        }
      }
    }

    /** One update_for_endless_mode, against the state before it, where onTrack is the
        track's answer at the new position: the paddles and the wheel step, the drift state
        follows the wrapped slip angle (when the car slides faster than 0.1), the heading
        turns modulo 360, the velocity is capped at the gear's top speed and slowed to 0.95
        off the track, and the position moves by the capped velocity and is clamped to
        x in [20, 780] and y <= 550. */
    twostate predicate SteppedBy(keys: Keys, physics: Physics, onTrack: bool)
      reads this
      requires old(IsGear(currentGear)) && IsGear(currentGear)
      requires IsLength(physics.vx, physics.vy, physics.speed)
    {
      && Gearbox() == PaddleStep(old(Gearbox()), keys.q, keys.e)
      && steeringAngle == SteerStep(old(steeringAngle), keys.left, keys.right)
      && (physics.slipSpeed > 0.1 ==>
            var slip := WrappedSlip(old(direction) - physics.velocityAngle);
            driftIntensity == DriftIntensity(slip) && isDrifting == IsDrifting(slip))
      && (physics.slipSpeed <= 0.1 ==>
            driftIntensity == old(driftIntensity) && isDrifting == old(isDrifting))
      && direction == (match physics.turn
                        case None => old(direction)
                        case Some(t) => HeadingMod(old(direction) + t))
      && var c := CapVelocity(physics.vx, physics.vy, physics.speed, Gear(currentGear).maxSpeed);
         && x == Clamp(old(x) + c.0, 20.0, (ScreenWidth - 20) as real)
         && y == Min(old(y) + c.1, (ScreenHeight - 50) as real)
         && (onTrack ==> (vx, vy) == c)
         && (!onTrack ==> (vx, vy) == (c.0 * 0.95, c.1 * 0.95))
    }

    /** update_for_endless_mode on a track: input, then the physics outcome (drift state
        from the slip angle, the turned heading), the top-speed cap of the current gear,
        the move, the clamps to x in [20, 780] and y <= 550, and the off-track slowdown. */
    method UpdateForEndlessMode(keys: Keys, physics: Physics, track: EndlessTrack.Track)
      requires Valid() && track.Valid()
      requires IsLength(physics.vx, physics.vy, physics.speed)
      modifies this
      ensures Valid()
      ensures SteppedBy(keys, physics, track.IsOnTrack(x, y))
      ensures WithinTopSpeed()
      ensures 20.0 <= x <= 780.0 && y <= 550.0
    {
      hide EndlessTrack.Track.IsOnTrack, HeadingMod, WrappedSlip, CapVelocity, PaddleStep, SteerStep, SpeedWithin, Clamp, Min, DriftIntensity, IsDrifting;
      HandleInput(keys);
      ApplySlip(physics);
      ApplyTurn(physics);
      Move(physics, track);
    }

    /** The drift part of _apply_vehicle_physics: above 0.1 the slip angle between the
        heading and the velocity, wrapped to [-180, 180], sets the drift state. */
    method ApplySlip(physics: Physics)
      modifies this`driftIntensity, this`isDrifting
      ensures physics.slipSpeed > 0.1 ==>
        var slip := WrappedSlip(direction - physics.velocityAngle);
        driftIntensity == DriftIntensity(slip) && isDrifting == IsDrifting(slip)
      ensures physics.slipSpeed <= 0.1 ==>
        driftIntensity == old(driftIntensity) && isDrifting == old(isDrifting)
    {
      if physics.slipSpeed > 0.1 {
        var slip, _ := WrapSlipAngle(direction - physics.velocityAngle);
        driftIntensity := Abs(slip) / 30.0;
        isDrifting := driftIntensity > 0.3;
      }
    }

    /** The steering turn of _apply_vehicle_physics, reduced modulo 360. */
    method ApplyTurn(physics: Physics)
      modifies this`direction
      ensures direction == match physics.turn
        case None => old(direction)
        case Some(t) => HeadingMod(old(direction) + t)
    {
      match physics.turn {
        case None =>
        case Some(t) => direction := HeadingMod(direction + t);
      }
    }

    /** The top-speed cap, the move, the position clamps and the off-track slowdown. */
    method Move(physics: Physics, track: EndlessTrack.Track)
      requires IsGear(currentGear) && track.Valid()
      requires IsLength(physics.vx, physics.vy, physics.speed)
      modifies this`vx, this`vy, this`x, this`y
      ensures var c := CapVelocity(physics.vx, physics.vy, physics.speed, Gear(currentGear).maxSpeed);
        && x == Clamp(old(x) + c.0, 20.0, (ScreenWidth - 20) as real)
        && y == Min(old(y) + c.1, (ScreenHeight - 50) as real)
        && (track.IsOnTrack(x, y) ==> (vx, vy) == c)
        && (!track.IsOnTrack(x, y) ==> (vx, vy) == (c.0 * 0.95, c.1 * 0.95))
      ensures WithinTopSpeed()
      ensures 20.0 <= x <= 780.0 && y <= 550.0
    {
      hide EndlessTrack.Track.IsOnTrack, CapVelocity, SpeedWithin;
      var maxSpeed := Gear(currentGear).maxSpeed;
      var c := CapVelocity(physics.vx, physics.vy, physics.speed, maxSpeed);
      vx, vy := c.0, c.1;
      x := x + vx;
      y := y + vy;
      x := Max(20.0, Min(x, (ScreenWidth - 20) as real));
      if y > (ScreenHeight - 50) as real {
        y := (ScreenHeight - 50) as real;
      }
      if !track.IsOnTrack(x, y) {
        DampedStaysCapped(vx, vy, 0.95, maxSpeed);
        vx, vy := vx * 0.95, vy * 0.95;
      }
      assert SpeedWithin(vx, vy, maxSpeed);
    }
  }
}
