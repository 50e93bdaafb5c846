/** The aircraft: its kinematic state, the forces acting on it, the pilot's
    control inputs, fuel burn and the once-per-second mission log. The
    Aircraft class is updated in place by its own methods, by the mission
    autopilot and by the collision check, as in the source. */
module AircraftDynamics {
  import opened Numerics

  // Default aircraft data (a mid-size jet); loading it from a file is not
  // modelled.
  const EMPTY_MASS: real := 50000.0
  const WING_AREA: real := 150.0
  const MAX_THRUST: real := 200000.0
  const FUEL_CAPACITY: real := 15000.0
  const FUEL_FLOW_RATE: real := 2.0

  // Aerodynamic coefficients
  const CL0: real := 0.2
  const CL_ALPHA: real := 5.0
  const CD0: real := 0.025
  const K: real := 0.04
  const CL_LIMIT: real := 1.5

  // Performance limits
  const MAX_SPEED: real := 250.0
  const MIN_SPEED: real := 60.0
  const SERVICE_CEILING: real := 12000.0
  const MAX_LOAD_FACTOR: real := 2.5

  const GRAVITY: real := 9.81
  /** The physics step never lets the aircraft sink below this altitude. */
  const FLOOR_ALTITUDE: real := 10.0
  /** Below this airspeed there is no lift, no drag and no angle of attack. */
  const MIN_AERO_SPEED: real := 0.1

  const INITIAL_POSITION: Vec3 := Vec3(0.0, 500.0, 0.0)
  const INITIAL_VELOCITY: Vec3 := Vec3(0.0, 0.0, 100.0)
  const INITIAL_THROTTLE: real := 0.5
  const INITIAL_FUEL: real := FUEL_CAPACITY * 0.8

  /** The keys the aircraft reads each tick (pygame.key.get_pressed()). */
  datatype Keys = Keys(
    w: bool, s: bool,           // pitch up / down
    a: bool, d: bool,           // roll left / right
    q: bool, e: bool,           // yaw left / right
    lshift: bool, lctrl: bool,  // throttle up / down
    space: bool)                // auto-level

  /** The aircraft's mission_data dictionary: five parallel sample lists
      and the name of the current phase. */
  datatype MissionLog = MissionLog(
    time: seq<real>,
    altitude: seq<real>,
    speed: seq<real>,
    fuel: seq<real>,
    range: seq<real>,
    phase: string)
  {
    predicate Aligned() {
      |altitude| == |time| && |speed| == |time| && |fuel| == |time| && |range| == |time|
    }
  }

  const EMPTY_LOG: MissionLog := MissionLog([], [], [], [], [], "GROUND")

  // ---------------------------------------------------------------------
  // Thrust
  // ---------------------------------------------------------------------

  /** Thrust lapse with altitude. */
  function AltitudeThrustFactor(y: real): (f: real)
    ensures 0.0 < f
    ensures 0.0 <= y < 20000.0 ==> f <= 1.0
    ensures 20000.0 <= y ==> f == 0.5
  {
    if y < 20000.0 then 1.0 - y / 20000.0 else 0.5
  }

  /** Thrust lapse with airspeed; no thrust from 1000 m/s on. */
  function SpeedThrustFactor(speed: real): (f: real)
    ensures 0.0 <= speed ==> 0.0 <= f <= 1.0
    ensures f == 0.0 <==> 1000.0 <= speed
  {
    if speed < 1000.0 then 1.0 - speed / 1000.0 else 0.0
  }

  /** Available thrust for a throttle setting, altitude and airspeed. */
  function ThrustFor(throttle: real, y: real, speed: real): real {
    MAX_THRUST * throttle * AltitudeThrustFactor(y) * SpeedThrustFactor(speed)
  }

  /** Within the flight envelope thrust lies between zero and the maximum,
      and any open throttle below 1000 m/s gives positive thrust. */
  lemma ThrustBounds(throttle: real, y: real, speed: real)
    requires 0.0 <= throttle <= 1.0 && 0.0 <= y < 20000.0 && 0.0 <= speed
    ensures 0.0 <= ThrustFor(throttle, y, speed) <= MAX_THRUST
    ensures 0.0 < throttle && speed < 1000.0 ==> 0.0 < ThrustFor(throttle, y, speed)
  {
    var af := AltitudeThrustFactor(y);
    var sf := SpeedThrustFactor(speed);
    UnitProduct(throttle, af);
    UnitProduct(throttle * af, sf);
    ScaleUnit(MAX_THRUST, throttle * af * sf);
    assert ThrustFor(throttle, y, speed) == MAX_THRUST * (throttle * af * sf);
    if 0.0 < throttle && speed < 1000.0 {
      PositiveProduct3(throttle, af, sf);
    }
  }

  // ---------------------------------------------------------------------
  // Aerodynamics
  // ---------------------------------------------------------------------

  /** Exponential air-density model used by the lift and drag formulas. */
  function AirDensity(m: MathLib, y: real): (rho: real)
    requires m.Valid()
    ensures 0.0 < rho
  {
    1.225 * m.exp(-y / 8000.0)
  }

  /** The lift coefficient CL0 + CL_alpha * alpha, clamped to +-1.5. */
  function LiftCoefficient(alpha: real): (cl: real)
    ensures -CL_LIMIT <= cl <= CL_LIMIT
    ensures -CL_LIMIT <= CL0 + CL_ALPHA * alpha <= CL_LIMIT ==> cl == CL0 + CL_ALPHA * alpha
    ensures CL_LIMIT < CL0 + CL_ALPHA * alpha ==> cl == CL_LIMIT
    ensures CL0 + CL_ALPHA * alpha < -CL_LIMIT ==> cl == -CL_LIMIT
  {
    Max(-CL_LIMIT, Min(CL_LIMIT, CL0 + CL_ALPHA * alpha))
  }

  /** A larger angle of attack never gives less lift coefficient. */
  lemma LiftCoefficientMonotone(alpha1: real, alpha2: real)
    requires alpha1 <= alpha2
    ensures LiftCoefficient(alpha1) <= LiftCoefficient(alpha2)
  {
  }

  /** 0.5 * rho * V * V * S, the factor shared by lift and drag. */
  function DynamicForce(rho: real, speed: real): real {
    0.5 * rho * speed * speed * WING_AREA
  }

  lemma DynamicForcePositive(rho: real, speed: real)
    requires 0.0 < rho && 0.0 < speed
    ensures 0.0 < DynamicForce(rho, speed)
  {
    ProductPositive(0.5 * rho, speed);
    ProductPositive(0.5 * rho * speed, speed);
    ProductPositive(0.5 * rho * speed * speed, WING_AREA);
  }

  /** Lift at an angle of attack; none below 0.1 m/s. Its sign is the sign
      of the clamped lift coefficient. */
  function LiftForce(m: MathLib, y: real, velocity: Vec3, alpha: real): (lift: real)
    requires m.Valid()
    ensures velocity.Length(m) < MIN_AERO_SPEED ==> lift == 0.0
    ensures MIN_AERO_SPEED <= velocity.Length(m) ==>
      (0.0 < lift <==> 0.0 < LiftCoefficient(alpha)) &&
      (lift < 0.0 <==> LiftCoefficient(alpha) < 0.0)
  {
    var speed := velocity.Length(m);
    if speed < MIN_AERO_SPEED then 0.0
    else
      var q := DynamicForce(AirDensity(m, y), speed);
      DynamicForcePositive(AirDensity(m, y), speed);
      QuotientSign(LiftCoefficient(alpha), q);
      MulComm(LiftCoefficient(alpha), q);
      q * LiftCoefficient(alpha)
  }

  /** Drag with the unclamped lift coefficient in the induced term; none
      below 0.1 m/s, and never less than the parasite drag. */
  function DragForce(m: MathLib, y: real, velocity: Vec3, alpha: real): (drag: real)
    requires m.Valid()
    ensures velocity.Length(m) < MIN_AERO_SPEED ==> drag == 0.0
    ensures MIN_AERO_SPEED <= velocity.Length(m) ==>
      0.0 < DynamicForce(AirDensity(m, y), velocity.Length(m)) * CD0 <= drag
  {
    var speed := velocity.Length(m);
    if speed < MIN_AERO_SPEED then 0.0
    else
      var q := DynamicForce(AirDensity(m, y), speed);
      var cl := CL0 + CL_ALPHA * alpha;
      DynamicForcePositive(AirDensity(m, y), speed);
      SquareSigns(cl);
      assert CD0 <= CD0 + K * cl * cl;
      ScaleMonotone(CD0, CD0 + K * cl * cl, q);
      ProductPositive(q, CD0);
      q * (CD0 + K * cl * cl)
  }

  // ---------------------------------------------------------------------
  // Fuel
  // ---------------------------------------------------------------------

  /** Fuel efficiency factor: better at altitude, 0.5 from 15000 m on. */
  function AltitudeEfficiency(y: real): (e: real)
    ensures 0.0 <= y < 15000.0 ==> 0.5 < e <= 1.0
    ensures 15000.0 <= y ==> e == 0.5
  {
    if y < 15000.0 then 1.0 - y / 30000.0 else 0.5
  }

  /** The efficiency factor falls with altitude and has no jump at 15000 m. */
  lemma AltitudeEfficiencyNonIncreasing(y1: real, y2: real)
    requires y1 <= y2
    ensures AltitudeEfficiency(y2) <= AltitudeEfficiency(y1)
  {
  }

  /** Fuel burnt in one tick. */
  function FuelConsumption(throttle: real, y: real, dt: real): real {
    FUEL_FLOW_RATE * throttle * dt * AltitudeEfficiency(y)
  }

  /** One tick never burns a negative amount, nor more than the full-throttle
      flow rate allows. */
  lemma FuelConsumptionBounds(throttle: real, y: real, dt: real)
    requires 0.0 <= throttle <= 1.0 && 0.0 <= y && 0.0 <= dt
    ensures 0.0 <= FuelConsumption(throttle, y, dt) <= FUEL_FLOW_RATE * dt
  {
    var e := AltitudeEfficiency(y);
    UnitProduct(throttle, e);
    ScaleUnit(FUEL_FLOW_RATE * dt, throttle * e);
  }

  // ---------------------------------------------------------------------
  // Pilot controls
  // ---------------------------------------------------------------------

  const PITCH_LIMIT: real := PI / 6.0
  const ROLL_LIMIT: real := PI / 3.0

  /** Pitch after the W/S keys (rate 1.5 rad/s, limit 30 degrees) and the
      auto-level key. */
  function PitchCommand(pitch: real, keys: Keys, dt: real): (p: real)
    ensures -PITCH_LIMIT <= pitch <= PITCH_LIMIT && 0.0 <= dt ==> -PITCH_LIMIT <= p <= PITCH_LIMIT
    ensures !keys.w && !keys.s && !keys.space ==> p == pitch
    ensures keys.w && !keys.s && !keys.space && pitch <= PITCH_LIMIT && 0.0 <= dt ==> pitch <= p
    ensures keys.s && !keys.w && !keys.space && -PITCH_LIMIT <= pitch && 0.0 <= dt ==> p <= pitch
  {
    var up := if keys.w then Min(PITCH_LIMIT, pitch + 1.5 * dt) else pitch;
    var down := if keys.s then Max(-PITCH_LIMIT, up - 1.5 * dt) else up;
    if keys.space then down * 0.95 else down
  }

  /** Roll after the A/D keys (rate 2 rad/s, limit 60 degrees) and the
      auto-level key. */
  function RollCommand(roll: real, keys: Keys, dt: real): (r: real)
    ensures -ROLL_LIMIT <= roll <= ROLL_LIMIT && 0.0 <= dt ==> -ROLL_LIMIT <= r <= ROLL_LIMIT
    ensures !keys.a && !keys.d && !keys.space ==> r == roll
    ensures keys.d && !keys.a && !keys.space && roll <= ROLL_LIMIT && 0.0 <= dt ==> roll <= r
    ensures keys.a && !keys.d && !keys.space && -ROLL_LIMIT <= roll && 0.0 <= dt ==> r <= roll
  {
    var left := if keys.a then Max(-ROLL_LIMIT, roll - 2.0 * dt) else roll;
    var right := if keys.d then Min(ROLL_LIMIT, left + 2.0 * dt) else left;
    if keys.space then right * 0.95 else right
  }

  /** Yaw after the Q/E keys (rate 1 rad/s, unlimited). */
  function YawCommand(yaw: real, keys: Keys, dt: real): (y: real)
    ensures keys.q == keys.e ==> y == yaw
    ensures keys.e && !keys.q ==> y - yaw == dt
    ensures keys.q && !keys.e ==> yaw - y == dt
  {
    var left := if keys.q then yaw - 1.0 * dt else yaw;
    if keys.e then left + 1.0 * dt else left
  }

  /** Throttle after fuel starvation and the LShift/LCtrl keys. */
  function ThrottleCommand(throttle: real, fuelMass: real, keys: Keys, dt: real): (t: real)
    ensures 0.0 <= throttle <= 1.0 && 0.0 <= dt ==> 0.0 <= t <= 1.0
    ensures fuelMass <= 0.0 && !keys.lshift && 0.0 <= dt ==> t == 0.0
    ensures fuelMass <= 0.0 && 0.0 <= dt ==> t <= dt
    ensures 0.0 < fuelMass && !keys.lshift && !keys.lctrl ==> t == throttle
  {
    var starved := if fuelMass <= 0.0 then 0.0 else throttle;
    var up := if keys.lshift then Min(1.0, starved + dt) else starved;
    if keys.lctrl then Max(0.0, up - dt) else up
  }

  /** A held auto-level key only ever brings pitch and roll closer to level. */
  lemma AutoLevelShrinks(pitch: real, roll: real, dt: real)
    ensures var keys := Keys(false, false, false, false, false, false, false, false, true);
      Abs(PitchCommand(pitch, keys, dt)) <= Abs(pitch) &&
      Abs(RollCommand(roll, keys, dt)) <= Abs(roll) &&
      (pitch != 0.0 ==> Abs(PitchCommand(pitch, keys, dt)) < Abs(pitch))
  {
  }

  // ---------------------------------------------------------------------
  // Physics step
  // ---------------------------------------------------------------------

  /** Unit thrust direction for a pitch (rotation.x) and yaw (rotation.y). */
  function ThrustDirection(m: MathLib, rotation: Vec3): Vec3 {
    var cosPitch := m.cos(rotation.x);
    Vec3(cosPitch * m.sin(rotation.y), m.sin(rotation.x), cosPitch * m.cos(rotation.y))
  }

  /** The thrust direction is a unit vector whatever the attitude. */
  lemma ThrustDirectionIsUnit(m: MathLib, rotation: Vec3)
    requires m.Valid()
    ensures ThrustDirection(m, rotation).LengthSq() == 1.0
  {
    var cp, sp := m.cos(rotation.x), m.sin(rotation.x);
    var cy, sy := m.cos(rotation.y), m.sin(rotation.y);
    assert sy * sy + cy * cy == 1.0;
    assert sp * sp + cp * cp == 1.0;
    calc {
      ThrustDirection(m, rotation).LengthSq();
      (cp * sy) * (cp * sy) + sp * sp + (cp * cy) * (cp * cy);
      cp * cp * (sy * sy + cy * cy) + sp * sp;
    }
  }

  /** Drag acceleration: against the direction of flight above 0.1 m/s,
      none otherwise. */
  function DragAcceleration(m: MathLib, velocity: Vec3, drag: real, mass: real): Vec3
    requires mass != 0.0
  {
    var speed := velocity.Length(m);
    if speed > MIN_AERO_SPEED then velocity.Scale(1.0 / speed).Scale(-drag / mass) else ZERO
  }

  /** Drag works against the motion: above 0.1 m/s its acceleration along
      the velocity is minus drag over mass times the speed, and below that
      there is none. */
  lemma DragOpposesMotion(m: MathLib, velocity: Vec3, drag: real, mass: real)
    requires m.Valid() && 0.0 < mass
    ensures var a := DragAcceleration(m, velocity, drag, mass);
      && (MIN_AERO_SPEED < velocity.Length(m) ==> a.Dot(velocity) * mass == -drag * velocity.Length(m))
      && (velocity.Length(m) <= MIN_AERO_SPEED ==> a == ZERO)
  {
    var s := velocity.Length(m);
    if MIN_AERO_SPEED < s {
      LengthNonNegative(m, velocity);
      var q, d := 1.0 / s, -drag / mass;
      ScaledDot(velocity, q, d);
      ReciprocalCancels(s, d, mass, -drag);
    }
  }

  lemma ScaledDot(v: Vec3, q: real, d: real)
    ensures v.Scale(q).Scale(d).Dot(v) == q * d * v.LengthSq()
  {
  }

  /** (1/s) d s^2 mass = s (d mass). */
  lemma ReciprocalCancels(s: real, d: real, mass: real, dm: real)
    requires 0.0 < s && d * mass == dm
    ensures (1.0 / s) * d * (s * s) * mass == dm * s
  {
    var q := 1.0 / s;
    assert q * s == 1.0;
    calc {
      q * d * (s * s) * mass;
      (q * s) * (d * mass) * s;
    }
  }

  /** Acceleration from thrust, drag, lift and gravity. The angle of attack
      is the pitch above 0.1 m/s and 0 otherwise; drag acts against the
      direction of flight. */
  function Acceleration(m: MathLib, position: Vec3, velocity: Vec3, rotation: Vec3, throttle: real, fuelMass: real): (a: Vec3)
    requires m.Valid() && 0.0 <= fuelMass
    ensures velocity.Length(m) < MIN_AERO_SPEED ==>
      a == ThrustDirection(m, rotation)
             .Scale(ThrustFor(throttle, position.y, velocity.Length(m)) / (EMPTY_MASS + fuelMass))
             .Plus(Vec3(0.0, -GRAVITY, 0.0))
  {
    var speed := velocity.Length(m);
    var alpha := if speed > MIN_AERO_SPEED then rotation.x else 0.0;
    var thrust := ThrustFor(throttle, position.y, speed);
    var lift := LiftForce(m, position.y, velocity, alpha);
    var drag := DragForce(m, position.y, velocity, alpha);
    var mass := EMPTY_MASS + fuelMass;
    var thrustAccel := ThrustDirection(m, rotation).Scale(thrust / mass);
    var dragAccel := DragAcceleration(m, velocity, drag, mass);
    var liftAccel := Vec3(0.0, lift / mass, 0.0);
    thrustAccel.Plus(dragAccel).Plus(liftAccel).Plus(Vec3(0.0, -GRAVITY, 0.0))
  }

  /** A velocity faster than the limit is renormalised onto the limit; the
      result is never faster than the limit and a slower velocity is kept. */
  function LimitSpeed(m: MathLib, v: Vec3, limit: real): (r: Vec3)
    requires m.Valid() && 0.0 <= limit
    ensures r.Length(m) <= limit
    ensures v.Length(m) <= limit ==> r == v
    ensures limit < v.Length(m) ==> r.Length(m) == limit
  {
    if v.Length(m) > limit then
      RescaledLength(m, v, limit);
      v.Scale(1.0 / v.Length(m)).Scale(limit)
    else v
  }

  /** The altitude clamps that end the physics step: at the floor the
      aircraft is put back to 10 m and may not keep sinking; above the
      service ceiling it is put back to the ceiling. */
  function ClampAltitude(position: Vec3, velocity: Vec3): (r: (Vec3, Vec3))
    ensures FLOOR_ALTITUDE <= r.0.y <= SERVICE_CEILING
    ensures r.0.x == position.x && r.0.z == position.z
    ensures r.1.x == velocity.x && r.1.z == velocity.z
    ensures position.y < FLOOR_ALTITUDE ==> r.0.y == FLOOR_ALTITUDE && 0.0 <= r.1.y
    ensures SERVICE_CEILING < position.y ==> r.0.y == SERVICE_CEILING && r.1 == velocity
    ensures FLOOR_ALTITUDE <= position.y <= SERVICE_CEILING ==> r == (position, velocity)
  {
    if position.y < FLOOR_ALTITUDE then
      (position.(y := FLOOR_ALTITUDE), if velocity.y < 0.0 then velocity.(y := 0.0) else velocity)
    else if position.y > SERVICE_CEILING then
      (position.(y := SERVICE_CEILING), velocity)
    else (position, velocity)
  }

  /** The altitude clamp never speeds the aircraft up. */
  lemma ClampAltitudeKeepsSpeedBound(m: MathLib, position: Vec3, velocity: Vec3)
    requires m.Valid()
    ensures ClampAltitude(position, velocity).1.Length(m) <= velocity.Length(m)
  {
    if position.y < FLOOR_ALTITUDE && velocity.y < 0.0 {
      DropVerticalShortens(m, velocity);
    }
  }

  /** Horizontal ground speed, sqrt(vx^2 + vz^2). */
  function HorizontalSpeed(m: MathLib, v: Vec3): (h: real)
    requires m.Valid()
    ensures 0.0 <= h && h * h == v.x * v.x + v.z * v.z
    ensures h <= v.Length(m)
  {
    SquareSigns(v.x);
    SquareSigns(v.y);
    SquareSigns(v.z);
    SqrtMonotone(m, v.x * v.x + v.z * v.z, v.LengthSq());
    m.sqrt(v.x * v.x + v.z * v.z)
  }

  // ---------------------------------------------------------------------
  // The aircraft object
  // ---------------------------------------------------------------------

  class Aircraft {
    /** The math library the aircraft's formulas call. */
    const math: MathLib

    var position: Vec3    // x, y (altitude), z
    var velocity: Vec3
    var rotation: Vec3    // pitch (x), yaw (y), roll (z) in radians
    var throttle: real
    var fuelMass: real
    var totalRange: real
    var missionTime: real
    var missionData: MissionLog

    /** What every tick preserves: the fuel floor and tank size, the
        throttle range, the altitude clamps, the clocks, parallel sample
        lists, and at most one sample per elapsed whole second. */
    ghost predicate Valid()
      reads this
    {
      && math.Valid()
      && 0.0 <= fuelMass <= FUEL_CAPACITY
      && 0.0 <= throttle <= 1.0
      && FLOOR_ALTITUDE <= position.y <= SERVICE_CEILING
      && 0.0 <= missionTime
      && 0.0 <= totalRange
      && missionData.Aligned()
      && |missionData.time| <= Trunc(missionTime)
    }

    /** The state a new or reset aircraft is in. */
    predicate AtInitialState()
      reads this
    {
      && position == INITIAL_POSITION
      && velocity == INITIAL_VELOCITY
      && rotation == ZERO
      && throttle == INITIAL_THROTTLE
      && fuelMass == INITIAL_FUEL
      && totalRange == 0.0
      && missionTime == 0.0
      && missionData == EMPTY_LOG
    }

    constructor (math: MathLib)
      requires math.Valid()
      ensures this.math == math
      ensures Valid() && AtInitialState()
    {
      this.math := math;
      position := INITIAL_POSITION;
      velocity := INITIAL_VELOCITY;
      rotation := ZERO;
      throttle := INITIAL_THROTTLE;
      fuelMass := INITIAL_FUEL;
      totalRange := 0.0;
      missionTime := 0.0;
      missionData := EMPTY_LOG;
    }

    /** Empty mass plus the fuel on board. */
    function TotalMass(): (mass: real)
      reads this
      requires Valid()
      ensures mass - fuelMass == EMPTY_MASS
      ensures EMPTY_MASS <= mass <= EMPTY_MASS + FUEL_CAPACITY
    {
      EMPTY_MASS + fuelMass
    }

    /** The airspeed, the length of the velocity. */
    function Speed(): (s: real)
      reads this
      requires math.Valid()
      ensures 0.0 <= s && s * s == velocity.LengthSq()
    {
      LengthNonNegative(math, velocity);
      velocity.Length(math)
    }

    /** The engines' thrust now: never negative and never above the
        maximum. */
    function Thrust(): (t: real)
      reads this
      requires Valid()
      ensures 0.0 <= t <= MAX_THRUST
    {
      LengthNonNegative(math, velocity);
      ThrustBounds(throttle, position.y, Speed());
      ThrustFor(throttle, position.y, Speed())
    }

    /** Burns one tick of fuel and never leaves the tank below empty. */
    method UpdateFuel(dt: real) returns (consumption: real)
      requires Valid() && 0.0 <= dt
      modifies this`fuelMass
      ensures Valid()
      ensures consumption == FuelConsumption(throttle, position.y, dt)
      ensures 0.0 <= consumption <= FUEL_FLOW_RATE * dt
      ensures fuelMass == Max(0.0, old(fuelMass) - consumption)
      ensures 0.0 <= fuelMass <= old(fuelMass)
    {
      FuelConsumptionBounds(throttle, position.y, dt);
      consumption := FuelConsumption(throttle, position.y, dt);
      fuelMass := Max(0.0, fuelMass - consumption);
    }

    /** Reads the keys: fuel starvation closes the throttle, then pitch,
        roll, yaw and throttle follow the held keys, and auto-level damps
        pitch and roll. The attitude and the throttle do not depend on each
        other, so the two are updated by separate steps. */
    method ApplyControls(dt: real, keys: Keys)
      requires Valid() && 0.0 <= dt
      modifies this`rotation, this`throttle
      ensures Valid()
      ensures rotation == Vec3(PitchCommand(old(rotation.x), keys, dt),
                               YawCommand(old(rotation.y), keys, dt),
                               RollCommand(old(rotation.z), keys, dt))
      ensures throttle == ThrottleCommand(old(throttle), fuelMass, keys, dt)
    {
      ApplyThrottleKeys(dt, keys);
      ApplyAttitudeKeys(dt, keys);
    }

    method ApplyThrottleKeys(dt: real, keys: Keys)
      requires Valid() && 0.0 <= dt
      modifies this`throttle
      ensures Valid()
      ensures throttle == ThrottleCommand(old(throttle), fuelMass, keys, dt)
    {
      if fuelMass <= 0.0 {
        throttle := 0.0;
      }
      if keys.lshift {
        throttle := Min(1.0, throttle + dt);
      }
      if keys.lctrl {
        throttle := Max(0.0, throttle - dt);
      }
    }

    method ApplyAttitudeKeys(dt: real, keys: Keys)
      modifies this`rotation
      ensures rotation == Vec3(PitchCommand(old(rotation.x), keys, dt),
                               YawCommand(old(rotation.y), keys, dt),
                               RollCommand(old(rotation.z), keys, dt))
    {
      var pitchRate := 1.5 * dt;
      var rollRate := 2.0 * dt;
      var yawRate := 1.0 * dt;
      var pitch, yaw, roll := rotation.x, rotation.y, rotation.z;
      if keys.w {
        pitch := Min(PITCH_LIMIT, pitch + pitchRate);
      }
      if keys.s {
        pitch := Max(-PITCH_LIMIT, pitch - pitchRate);
      }
      if keys.a {
        roll := Max(-ROLL_LIMIT, roll - rollRate);
      }
      if keys.d {
        roll := Min(ROLL_LIMIT, roll + rollRate);
      }
      if keys.q {
        yaw := yaw - yawRate;
      }
      if keys.e {
        yaw := yaw + yawRate;
      }
      if keys.space {
        pitch := pitch * 0.95;
        roll := roll * 0.95;
      }
      rotation := Vec3(pitch, yaw, roll);
    }

    /** One integration step: velocity from the acceleration, the speed
        limit, position from the new velocity, then the altitude clamps. */
    method UpdatePhysics(dt: real)
      requires Valid() && 0.0 <= dt
      modifies this`position, this`velocity
      ensures Valid()
      ensures var v := LimitSpeed(math, old(velocity).Plus(Acceleration(math, old(position), old(velocity), rotation, throttle, fuelMass).Scale(dt)), MAX_SPEED);
        (position, velocity) == ClampAltitude(old(position).Plus(v.Scale(dt)), v)
      ensures velocity.Length(math) <= MAX_SPEED
    {
      var acceleration := Acceleration(math, position, velocity, rotation, throttle, fuelMass);
      velocity := velocity.Plus(acceleration.Scale(dt));
      velocity := LimitSpeed(math, velocity, MAX_SPEED);
      ghost var limited := velocity;
      position := position.Plus(velocity.Scale(dt));
      ghost var unclamped := position;
      if position.y < FLOOR_ALTITUDE {
        position := position.(y := FLOOR_ALTITUDE);
        if velocity.y < 0.0 {
          velocity := velocity.(y := 0.0);
        }
      }
      if position.y > SERVICE_CEILING {
        position := position.(y := SERVICE_CEILING);
      }
      ClampAltitudeKeepsSpeedBound(math, unclamped, limited);
    }

    /** Advances the mission clock and the ground range, and appends one
        sample to every list whenever a new whole second has started. */
    method UpdateMissionData(dt: real)
      requires Valid() && 0.0 <= dt
      modifies this`missionTime, this`totalRange, this`missionData
      ensures Valid()
      ensures missionTime == old(missionTime) + dt
      ensures totalRange == old(totalRange) + HorizontalSpeed(math, velocity) * dt
      ensures old(totalRange) <= totalRange
      ensures Trunc(missionTime) > |old(missionData).time| ==>
        missionData == old(missionData).(
          time := old(missionData).time + [missionTime],
          altitude := old(missionData).altitude + [position.y],
          speed := old(missionData).speed + [velocity.Length(math)],
          fuel := old(missionData).fuel + [fuelMass],
          range := old(missionData).range + [totalRange])
      ensures Trunc(missionTime) <= |old(missionData).time| ==> missionData == old(missionData)
    {
      missionTime := missionTime + dt;
      var horizontalSpeed := HorizontalSpeed(math, velocity);
      ProductNonNegative(horizontalSpeed, dt);
      totalRange := totalRange + horizontalSpeed * dt;
      if Trunc(missionTime) > |missionData.time| {
        missionData := missionData.(
          time := missionData.time + [missionTime],
          altitude := missionData.altitude + [position.y],
          speed := missionData.speed + [velocity.Length(math)],
          fuel := missionData.fuel + [fuelMass],
          range := missionData.range + [totalRange]);
      } else {
        TruncMonotone(old(missionTime), missionTime);
      }
    }

    /** One tick of the aircraft: controls, physics, fuel, mission log. */
    method Update(dt: real, keys: Keys)
      requires Valid() && 0.0 <= dt
      modifies this`rotation, this`throttle, this`position, this`velocity
      modifies this`fuelMass, this`missionTime, this`totalRange, this`missionData
      ensures Valid()
      ensures rotation == Vec3(PitchCommand(old(rotation.x), keys, dt),
                               YawCommand(old(rotation.y), keys, dt),
                               RollCommand(old(rotation.z), keys, dt))
      ensures throttle == ThrottleCommand(old(throttle), old(fuelMass), keys, dt)
      ensures velocity.Length(math) <= MAX_SPEED
      ensures 0.0 <= fuelMass <= old(fuelMass)
      ensures missionTime == old(missionTime) + dt
      ensures old(totalRange) <= totalRange
      ensures |old(missionData).time| <= |missionData.time| <= |old(missionData).time| + 1
    {
      ApplyControls(dt, keys);
      UpdatePhysics(dt);
      var _ := UpdateFuel(dt);
      UpdateMissionData(dt);
    }

    /** Restores the initial position, velocity, attitude, throttle, fuel
        load, clocks and an empty mission log. */
    method Reset()
      requires math.Valid()
      modifies this`position, this`velocity, this`rotation, this`throttle
      modifies this`fuelMass, this`totalRange, this`missionTime, this`missionData
      ensures Valid() && AtInitialState()
    {
      position := INITIAL_POSITION;
      velocity := INITIAL_VELOCITY;
      rotation := ZERO;
      throttle := INITIAL_THROTTLE;
      fuelMass := FUEL_CAPACITY * 0.8;
      totalRange := 0.0;
      missionTime := 0.0;
      missionData := EMPTY_LOG;
    }
  }
}
