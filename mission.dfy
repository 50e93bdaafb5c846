/** The mission autopilot: an ordered list of six segments (warm-up and
    take-off, climb, cruise, turn, descent, landing) walked by a cursor that
    only moves forward. The controller of the current segment overwrites the
    aircraft's throttle and attitude each tick and marks its segment
    completed; the profile then moves on to the next segment. */
module MissionProfiles {
  import opened Numerics
  import Physics
  import opened AircraftDynamics

  /** The segment names the profile dispatches on. */
  datatype SegmentName = WUTO | CLIMB | CRUISE | TURN | DESCENT | LANDING
  {
    function Label(): string {
      match this
      case WUTO => "WUTO"
      case CLIMB => "CLIMB"
      case CRUISE => "CRUISE"
      case TURN => "TURN"
      case DESCENT => "DESCENT"
      case LANDING => "LANDING"
    }
  }

  /** The label the profile reports once every segment is done. */
  const COMPLETE_LABEL: string := "COMPLETE"

  /** A mission segment: its configuration (name, targets, optional
      duration and distance) and its run-time state. turnTime is the
      attribute the turn controller creates on first use and reset
      deletes. */
  datatype Segment = Segment(
    name: SegmentName,
    targetAltitude: real,
    targetSpeed: real,
    duration: Option<real>,
    distance: Option<real>,
    completed: bool,
    progress: real,
    turnTime: Option<real>)
  {
    /** The segment as the constructor leaves it. */
    predicate Fresh() {
      !completed && progress == 0.0 && turnTime == None
    }

    /** The run-time state cleared, the configuration kept. */
    function Cleared(): (s: Segment)
      ensures s.Fresh() && SameConfiguration(s, this)
    {
      this.(completed := false, progress := 0.0, turnTime := None)
    }
  }

  predicate SameConfiguration(a: Segment, b: Segment) {
    && a.name == b.name
    && a.targetAltitude == b.targetAltitude
    && a.targetSpeed == b.targetSpeed
    && a.duration == b.duration
    && a.distance == b.distance
  }

  function NewSegment(name: SegmentName, targetAltitude: real, targetSpeed: real,
                      duration: Option<real>, distance: Option<real>): Segment
  {
    Segment(name, targetAltitude, targetSpeed, duration, distance, false, 0.0, None)
  }

  /** The default mission, in flight order. */
  function DefaultSegments(): (s: seq<Segment>)
    ensures |s| == 6
    ensures forall i :: 0 <= i < |s| ==> s[i].Fresh() && 0.0 < s[i].targetSpeed
    ensures forall i, j :: 0 <= i < j < |s| ==> s[i].name != s[j].name
  {
    [ NewSegment(WUTO, 100.0, 80.0, Some(60.0), None),
      NewSegment(CLIMB, 5000.0, 150.0, None, Some(50000.0)),
      NewSegment(CRUISE, 5000.0, 200.0, None, Some(200000.0)),
      NewSegment(TURN, 5000.0, 180.0, Some(120.0), None),
      NewSegment(DESCENT, 500.0, 150.0, None, Some(40000.0)),
      NewSegment(LANDING, 0.0, 70.0, None, Some(10000.0)) ]
  }

  /** The default turn segment is the only one named TURN; it lasts 120 s
      at 180 m/s. */
  lemma DefaultTurnSegment(i: nat)
    requires i < |DefaultSegments()| && DefaultSegments()[i].name == TURN
    ensures DefaultSegments()[i].duration == Some(120.0) && DefaultSegments()[i].targetSpeed == 180.0
  {
  }

  /** Python truthiness of an optional number: present and non-zero. */
  predicate Truthy(x: Option<real>) {
    x.Some? && x.value != 0.0
  }

  /** The profile_data dictionary: three sample lists and the segment names
      recorded alongside them. */
  datatype ProfileLog = ProfileLog(
    altitude: seq<real>,
    range: seq<real>,
    fuel: seq<real>,
    segments: seq<string>)
  {
    predicate Aligned() {
      |range| == |altitude| && |fuel| == |altitude| && |segments| == |altitude|
    }
  }

  const EMPTY_PROFILE: ProfileLog := ProfileLog([], [], [], [])

  // ---------------------------------------------------------------------
  // Control laws of the segment controllers
  // ---------------------------------------------------------------------

  /** One pitch step of at most rate toward a desired pitch (the climb
      controller). With a non-negative rate the pitch moves toward the
      desired pitch by exactly rate: a step no longer than the remaining
      error closes the error by the step, a longer one overshoots by less
      than the step. */
  function StepToward(pitch: real, desired: real, rate: real): (p: real)
    ensures 0.0 <= rate && pitch <= desired ==> pitch <= p <= pitch + rate
    ensures 0.0 <= rate && desired <= pitch ==> pitch - rate <= p <= pitch
    ensures pitch != desired ==> Abs(p - pitch) == Abs(rate)
    ensures pitch == desired ==> p == pitch
    ensures 0.0 <= rate <= Abs(desired - pitch) ==> Abs(desired - p) == Abs(desired - pitch) - rate
    ensures 0.0 <= rate && Abs(desired - pitch) < rate ==> Abs(desired - p) < rate
  {
    if pitch < desired then pitch + rate
    else if pitch > desired then pitch - rate
    else pitch
  }

  /** The climb controller's pitch target: proportional to the altitude
      still to climb, at most 0.3 rad. */
  function ClimbPitchTarget(altitudeError: real): (p: real)
    ensures p <= 0.3
    ensures 0.0 < altitudeError ==> 0.0 < p
    ensures altitudeError <= 300.0 ==> p == altitudeError / 1000.0
  {
    Min(0.3, altitudeError / 1000.0)
  }

  /** Climb throttle: open by 0.5 per second while slower than the target
      speed, otherwise close by 0.5 per second down to 0.5. */
  function ClimbThrottle(throttle: real, speed: real, targetSpeed: real, dt: real): (t: real)
    ensures 0.0 <= throttle <= 1.0 && 0.0 <= dt ==> 0.0 <= t <= 1.0
    ensures speed < targetSpeed && throttle <= 1.0 && 0.0 <= dt ==> throttle <= t
    ensures targetSpeed <= speed ==> 0.5 <= t && (0.5 <= throttle && 0.0 <= dt ==> t <= throttle)
  {
    if speed < targetSpeed then Min(1.0, throttle + dt * 0.5)
    else Max(0.5, throttle - dt * 0.5)
  }

  /** Altitude hold used in cruise and turn: pitch proportional to the
      altitude error, nose up exactly when below the target. */
  function AltitudeHoldPitch(targetAltitude: real, altitude: real): (p: real)
    ensures 0.0 < p <==> altitude < targetAltitude
    ensures p < 0.0 <==> targetAltitude < altitude
    ensures p * 1000.0 == targetAltitude - altitude
  {
    (targetAltitude - altitude) * 0.001
  }

  /** Cruise throttle: left alone within 5 m/s of the target speed,
      otherwise adjusted by 1% of the error and kept within [0.3, 1]. */
  function CruiseThrottle(throttle: real, speed: real, targetSpeed: real): (t: real)
    ensures Abs(targetSpeed - speed) <= 5.0 ==> t == throttle
    ensures 5.0 < Abs(targetSpeed - speed) ==> 0.3 <= t <= 1.0
    ensures 5.0 < targetSpeed - speed && throttle <= 1.0 ==> throttle <= t
    ensures targetSpeed - speed < -5.0 && 0.3 <= throttle ==> t <= throttle
  {
    var speedError := targetSpeed - speed;
    if Abs(speedError) > 5.0 then Max(0.3, Min(1.0, throttle + speedError * 0.01))
    else throttle
  }

  /** Descent pitch: lowered by rate while above the desired (negative)
      pitch, never raised. */
  function DescentPitch(pitch: real, desired: real, rate: real): (p: real)
    ensures 0.0 <= rate ==> p <= pitch
    ensures desired < pitch ==> p == pitch - rate
    ensures pitch <= desired ==> p == pitch
  {
    if pitch > desired then pitch - rate else pitch
  }

  /** The descent controller's pitch target: nose down in proportion to the
      altitude still to lose, at most 0.2 rad. */
  function DescentPitchTarget(altitudeError: real): (p: real)
    ensures -0.2 <= p
    ensures 0.0 < altitudeError ==> p < 0.0
  {
    -Min(0.2, altitudeError / 2000.0)
  }

  /** Descent throttle: closes by 0.3 per second, never below 0.2. */
  function DescentThrottle(throttle: real, dt: real): (t: real)
    ensures 0.2 <= t
    ensures 0.2 <= throttle && 0.0 <= dt ==> t <= throttle
    ensures throttle <= 1.0 && 0.0 <= dt ==> t <= 1.0
  {
    Max(0.2, throttle - dt * 0.3)
  }

  /** Landing throttle: while faster than the approach speed it closes by
      0.5 per second, never below 0.1; otherwise it is left alone. */
  function LandingThrottle(throttle: real, speed: real, targetSpeed: real, dt: real): (t: real)
    ensures speed <= targetSpeed ==> t == throttle
    ensures targetSpeed < speed ==> 0.1 <= t
    ensures targetSpeed < speed && 0.1 <= throttle && 0.0 <= dt ==> t <= throttle
    ensures 0.0 <= throttle <= 1.0 && 0.0 <= dt ==> 0.0 <= t <= 1.0
  {
    if speed > targetSpeed then Max(0.1, throttle - dt * 0.5) else throttle
  }

  /** The bank angle held in the turn segment (30 degrees). */
  const TURN_BANK: real := PI / 6.0

  /** The turn controller's yaw rate g tan(30 degrees) / target speed. */
  function TurnYawRate(m: MathLib, targetSpeed: real): (omega: real)
    requires m.Valid() && targetSpeed != 0.0
    ensures omega * targetSpeed == 9.81 * m.tan(TURN_BANK)
  {
    9.81 * m.tan(TURN_BANK) / targetSpeed
  }

  /** At a positive target speed the turn controller yaws to the right
      (positive yaw rate). */
  lemma TurnYawRatePositive(m: MathLib, targetSpeed: real)
    requires m.Valid() && 0.0 < targetSpeed
    ensures 0.0 < TurnYawRate(m, targetSpeed)
  {
    ProductPositive(9.81, m.tan(TURN_BANK));
    QuotientSign(TurnYawRate(m, targetSpeed), targetSpeed);
  }

  /** The autopilot's yaw rate is the sustained-turn rate of the
      performance calculator at the same bank and speed. */
  lemma TurnYawRateIsTurnRate(m: MathLib, targetSpeed: real)
    requires m.Valid() && 0.0 < targetSpeed
    ensures TurnYawRate(m, targetSpeed) == Physics.TurnRate(m, targetSpeed, TURN_BANK)
  {
  }

  // ---------------------------------------------------------------------
  // One controller tick, on values
  // ---------------------------------------------------------------------

  /** What the segment controllers may set on the aircraft: the throttle,
      the attitude (pitch x, yaw y, roll z) and the velocity. */
  datatype Controls = Controls(throttle: real, rotation: Vec3, velocity: Vec3)

  /** A segment and the aircraft's controls after one controller tick. */
  datatype Step = Step(segment: Segment, controls: Controls)

  /** Warm-up and take-off: 30 s of warm-up at throttle 0.3, then full
      throttle until the target altitude is reached. */
  function WutoStep(s: Segment, c: Controls, altitude: real, dt: real): Step {
    if s.progress < 30.0 then
      Step(s.(progress := s.progress + dt), c.(throttle := 0.3))
    else
      Step(s.(completed := s.completed || altitude >= s.targetAltitude), c.(throttle := 1.0))
  }

  /** Minimum-fuel climb: below the target altitude, step the pitch toward
      the climb target and trim the throttle on speed; at the target,
      complete the segment and level off. */
  function ClimbStep(m: MathLib, s: Segment, c: Controls, altitude: real, dt: real): Step {
    if altitude < s.targetAltitude then
      var pitch := StepToward(c.rotation.x, ClimbPitchTarget(s.targetAltitude - altitude), 0.5 * dt);
      var throttle := ClimbThrottle(c.throttle, c.velocity.Length(m), s.targetSpeed, dt);
      Step(s, c.(rotation := c.rotation.(x := pitch), throttle := throttle))
    else
      Step(s.(completed := true), c.(rotation := c.rotation.(x := 0.0)))
  }

  /** Cruise: hold the target altitude, trim the throttle on speed, and
      complete once the range flown reaches the segment's distance (a
      missing or zero distance is never reached). */
  function CruiseStep(m: MathLib, s: Segment, c: Controls, altitude: real, range: real): Step {
    var pitch := AltitudeHoldPitch(s.targetAltitude, altitude);
    var throttle := CruiseThrottle(c.throttle, c.velocity.Length(m), s.targetSpeed);
    var segment :=
      if Truthy(s.distance) then s.(progress := range, completed := s.completed || range >= s.distance.value)
      else s;
    Step(segment, c.(rotation := c.rotation.(x := pitch), throttle := throttle))
  }

  /** The turn timer after one more tick; a missing timer starts at 0. */
  function TurnTimeAfter(s: Segment, dt: real): real {
    (if s.turnTime.Some? then s.turnTime.value else 0.0) + dt
  }

  /** Sustained turn: count the turn time, hold altitude, bank 30 degrees
      and yaw at the turn rate; after the segment's duration, complete and
      roll wings level. */
  function TurnStep(m: MathLib, s: Segment, c: Controls, altitude: real, dt: real): Step
    requires m.Valid() && s.duration.Some? && s.targetSpeed != 0.0
  {
    var turnTime := TurnTimeAfter(s, dt);
    var done := turnTime >= s.duration.value;
    var rotation := Vec3(AltitudeHoldPitch(s.targetAltitude, altitude),
                         c.rotation.y + TurnYawRate(m, s.targetSpeed) * dt,
                         if done then 0.0 else TURN_BANK);
    Step(s.(turnTime := Some(turnTime), completed := s.completed || done), c.(rotation := rotation))
  }

  /** Descent: above the target altitude, lower the pitch toward the
      descent target and close the throttle down to 0.2; at the target,
      complete and level off. */
  function DescentStep(s: Segment, c: Controls, altitude: real, dt: real): Step {
    if s.targetAltitude < altitude then
      var pitch := DescentPitch(c.rotation.x, DescentPitchTarget(altitude - s.targetAltitude), 0.3 * dt);
      Step(s, c.(rotation := c.rotation.(x := pitch), throttle := DescentThrottle(c.throttle, dt)))
    else
      Step(s.(completed := true), c.(rotation := c.rotation.(x := 0.0)))
  }

  /** Landing approach: bleed off speed above the approach speed, keep the
      nose 0.1 rad down while above 10 m, and at 10 m complete with the
      throttle closed and the aircraft stopped. */
  function LandingStep(m: MathLib, s: Segment, c: Controls, altitude: real, dt: real): Step {
    var throttle := LandingThrottle(c.throttle, c.velocity.Length(m), s.targetSpeed, dt);
    if FLOOR_ALTITUDE < altitude then
      Step(s, c.(rotation := c.rotation.(x := -0.1), throttle := throttle))
    else
      Step(s.(completed := true), c.(throttle := 0.0, velocity := ZERO))
  }

  /** What the turn controller needs of its segment: a duration to compare
      the timer with and a non-zero speed to divide by. */
  predicate Runnable(s: Segment) {
    s.name == TURN ==> s.duration.Some? && s.targetSpeed != 0.0
  }

  /** The controller of the segment's name, run for one tick. */
  function SegmentStep(m: MathLib, s: Segment, c: Controls, altitude: real, range: real, dt: real): Step
    requires m.Valid() && Runnable(s)
  {
    match s.name
    case WUTO => WutoStep(s, c, altitude, dt)
    case CLIMB => ClimbStep(m, s, c, altitude, dt)
    case CRUISE => CruiseStep(m, s, c, altitude, range)
    case TURN => TurnStep(m, s, c, altitude, dt)
    case DESCENT => DescentStep(s, c, altitude, dt)
    case LANDING => LandingStep(m, s, c, altitude, dt)
  }

  /** The condition on which each segment's controller declares it
      complete, stated per segment. */
  predicate Reached(s: Segment, altitude: real, range: real, dt: real) {
    match s.name
    case WUTO => 30.0 <= s.progress && s.targetAltitude <= altitude
    case CLIMB => s.targetAltitude <= altitude
    case CRUISE => Truthy(s.distance) && s.distance.value <= range
    case TURN => s.duration.Some? && s.duration.value <= TurnTimeAfter(s, dt)
    case DESCENT => altitude <= s.targetAltitude
    case LANDING => altitude <= FLOOR_ALTITUDE
  }

  /** A tick keeps the segment's configuration, and the segment is
      complete afterwards exactly when it already was or its completion
      condition holds. */
  lemma SegmentStepCompletesIffReached(m: MathLib, s: Segment, c: Controls, altitude: real, range: real, dt: real)
    requires m.Valid() && Runnable(s)
    ensures var r := SegmentStep(m, s, c, altitude, range, dt);
      && SameConfiguration(r.segment, s)
      && (r.segment.completed <==> s.completed || Reached(s, altitude, range, dt))
  {
  }

  /** Every controller keeps the throttle in [0, 1]. */
  lemma SegmentStepThrottleInRange(m: MathLib, s: Segment, c: Controls, altitude: real, range: real, dt: real)
    requires m.Valid() && Runnable(s)
    requires 0.0 <= c.throttle <= 1.0 && 0.0 <= dt
    ensures 0.0 <= SegmentStep(m, s, c, altitude, range, dt).controls.throttle <= 1.0
  {
  }

  /** In the turn the aircraft yaws right on every tick, and it is banked
      30 degrees until the turn's duration is reached, then wings level. */
  lemma TurnStepYawsRight(m: MathLib, s: Segment, c: Controls, altitude: real, dt: real)
    requires m.Valid() && s.duration.Some? && 0.0 < s.targetSpeed && 0.0 < dt
    ensures var r := TurnStep(m, s, c, altitude, dt);
      && c.rotation.y < r.controls.rotation.y
      && (r.controls.rotation.z == TURN_BANK <==> TurnTimeAfter(s, dt) < s.duration.value)
      && (r.controls.rotation.z == 0.0 <==> s.duration.value <= TurnTimeAfter(s, dt))
  {
    TurnYawRatePositive(m, s.targetSpeed);
    ProductPositive(TurnYawRate(m, s.targetSpeed), dt);
  }

  /** The tick on which the landing segment completes leaves the aircraft
      stopped with the throttle closed; before that the velocity is left
      to the physics. */
  lemma LandingStepStops(m: MathLib, s: Segment, c: Controls, altitude: real, dt: real)
    ensures var r := LandingStep(m, s, c, altitude, dt);
      && (r.segment.completed && !s.completed ==> r.controls.throttle == 0.0 && r.controls.velocity == ZERO)
      && (!r.segment.completed ==> r.controls.velocity == c.velocity && r.controls.rotation.x == -0.1)
  {
  }

  /** Below its target the climb moves the pitch by exactly its rate toward
      the climb target, and the descent above its target never raises the
      nose. */
  lemma PitchStepsTowardTarget(m: MathLib, s: Segment, c: Controls, altitude: real, dt: real)
    requires 0.0 <= dt
    ensures altitude < s.targetAltitude ==>
      var target := ClimbPitchTarget(s.targetAltitude - altitude);
      var pitch := ClimbStep(m, s, c, altitude, dt).controls.rotation.x;
      0.5 * dt <= Abs(target - c.rotation.x) ==> Abs(target - pitch) == Abs(target - c.rotation.x) - 0.5 * dt
    ensures s.targetAltitude < altitude ==> DescentStep(s, c, altitude, dt).controls.rotation.x <= c.rotation.x
  {
  }

  /** A snapshot of the profile's run state, for stating what an operation
      leaves alone. */
  datatype MissionState = MissionState(
    segments: seq<Segment>,
    currentSegmentIndex: nat,
    missionComplete: bool,
    totalFuelConsumed: real,
    totalDistance: real,
    totalTime: real,
    profileData: ProfileLog)

  // ---------------------------------------------------------------------
  // The mission profile object
  // ---------------------------------------------------------------------

  class MissionProfile {
    /** The aircraft the autopilot flies. */
    const aircraft: Aircraft

    var segments: seq<Segment>
    var currentSegmentIndex: nat
    var missionComplete: bool
    var totalFuelConsumed: real
    var totalDistance: real
    var totalTime: real
    var displayEnabled: bool
    var profileData: ProfileLog

    /** The configuration is the default mission, the cursor is in range,
        the clock is not negative and at most one profile sample is taken
        per whole second. */
    ghost predicate Configured()
      reads this
    {
      && |segments| == |DefaultSegments()|
      && (forall i :: 0 <= i < |segments| ==> SameConfiguration(segments[i], DefaultSegments()[i]))
      && currentSegmentIndex <= |segments|
      && 0.0 <= totalTime
      && profileData.Aligned()
      && |profileData.altitude| <= Trunc(totalTime)
    }

    /** Exactly the segments before the cursor are completed, and the
        mission is complete exactly when the cursor has passed the last
        segment. */
    ghost predicate Valid()
      reads this
    {
      && Configured()
      && (missionComplete <==> currentSegmentIndex == |segments|)
      && (forall i :: 0 <= i < |segments| ==> (segments[i].completed <==> i < currentSegmentIndex))
    }

    constructor (aircraft: Aircraft)
      ensures this.aircraft == aircraft
      ensures Valid()
      ensures segments == DefaultSegments() && currentSegmentIndex == 0
      ensures totalTime == 0.0 && displayEnabled && profileData == EMPTY_PROFILE
    {
      this.aircraft := aircraft;
      segments := DefaultSegments();
      currentSegmentIndex := 0;
      missionComplete := false;
      totalFuelConsumed := 0.0;
      totalDistance := 0.0;
      totalTime := 0.0;
      displayEnabled := true;
      profileData := EMPTY_PROFILE;
    }

    /** The mission's run state: everything but the aircraft and the
        display flag. */
    function RunState(): MissionState
      reads this
    {
      MissionState(segments, currentSegmentIndex, missionComplete, totalFuelConsumed,
                   totalDistance, totalTime, profileData)
    }

    /** The aircraft's controls as the segment controllers see them. */
    function AircraftControls(): Controls
      reads aircraft`throttle, aircraft`rotation, aircraft`velocity
    {
      Controls(aircraft.throttle, aircraft.rotation, aircraft.velocity)
    }

    /** One tick: nothing once the mission is complete; otherwise run the
        current segment's controller, advance the clock, copy the range,
        record a sample, and move the cursor on by one if the segment has
        just completed. */
    method Update(dt: real)
      requires Valid() && aircraft.Valid() && 0.0 <= dt
      modifies this, aircraft`throttle, aircraft`rotation, aircraft`velocity, aircraft`missionData
      ensures Valid() && aircraft.Valid()
      ensures old(missionComplete) ==> unchanged(this) && unchanged(aircraft)
      ensures |segments| == |old(segments)| && old(currentSegmentIndex) <= currentSegmentIndex
      ensures displayEnabled == old(displayEnabled) && totalFuelConsumed == old(totalFuelConsumed)
      ensures !old(missionComplete) ==>
        var k := old(currentSegmentIndex);
        && Step(segments[k], AircraftControls()) ==
             SegmentStep(aircraft.math, old(segments)[k], old(AircraftControls()),
                         aircraft.position.y, aircraft.totalRange, dt)
        && (forall j :: 0 <= j < |segments| && j != k ==> segments[j] == old(segments)[j])
        && currentSegmentIndex == k + (if segments[k].completed then 1 else 0)
        && totalTime == old(totalTime) + dt
        && totalDistance == aircraft.totalRange
        && aircraft.missionData ==
             old(aircraft.missionData).(phase := if missionComplete then COMPLETE_LABEL else segments[k].name.Label())
        && profileData ==
             if Trunc(totalTime) > |old(profileData).altitude| then
               ProfileLog(old(profileData).altitude + [aircraft.position.y],
                          old(profileData).range + [aircraft.totalRange],
                          old(profileData).fuel + [aircraft.fuelMass],
                          old(profileData).segments + [segments[k].name.Label()])
             else old(profileData)
    {
      if missionComplete || currentSegmentIndex >= |segments| {
        return;
      }
      ExecuteSegment(dt);
      CloseTick(dt);
    }

    /** The bookkeeping of a tick once the controller has run: advance the
        clock, copy the range, take a profile sample, and move the cursor on
        if the current segment has completed, publishing COMPLETE after the
        last one. */
    method CloseTick(dt: real)
      requires Configured() && aircraft.Valid() && 0.0 <= dt
      requires currentSegmentIndex < |segments| && !missionComplete
      requires forall i :: 0 <= i < |segments| && i != currentSegmentIndex ==>
        (segments[i].completed <==> i < currentSegmentIndex)
      modifies this`totalTime, this`totalDistance, this`profileData, this`currentSegmentIndex
      modifies this`missionComplete, aircraft`missionData
      ensures Valid() && aircraft.Valid()
      ensures var k := old(currentSegmentIndex);
        && currentSegmentIndex == k + (if segments[k].completed then 1 else 0)
        && totalTime == old(totalTime) + dt
        && totalDistance == aircraft.totalRange
        && aircraft.missionData ==
             (if missionComplete then old(aircraft.missionData).(phase := COMPLETE_LABEL) else old(aircraft.missionData))
        && profileData ==
             if Trunc(totalTime) > |old(profileData).altitude| then
               ProfileLog(old(profileData).altitude + [aircraft.position.y],
                          old(profileData).range + [aircraft.totalRange],
                          old(profileData).fuel + [aircraft.fuelMass],
                          old(profileData).segments + [segments[k].name.Label()])
             else old(profileData)
    {
      totalTime := totalTime + dt;
      totalDistance := aircraft.totalRange;
      RecordProfileData();
      if segments[currentSegmentIndex].completed {
        currentSegmentIndex := currentSegmentIndex + 1;
        if currentSegmentIndex >= |segments| {
          missionComplete := true;
          aircraft.missionData := aircraft.missionData.(phase := COMPLETE_LABEL);
        }
      }
    }

    /** Publishes the current segment's name as the aircraft's phase and
        runs that segment's controller. */
    method ExecuteSegment(dt: real)
      requires Valid() && aircraft.Valid() && 0.0 <= dt
      requires currentSegmentIndex < |segments|
      modifies this`segments, aircraft`throttle, aircraft`rotation, aircraft`velocity, aircraft`missionData
      ensures Configured() && aircraft.Valid()
      ensures forall j :: 0 <= j < |segments| && j != currentSegmentIndex ==> segments[j] == old(segments[j])
      ensures Step(segments[currentSegmentIndex], AircraftControls()) ==
        SegmentStep(aircraft.math, old(segments[currentSegmentIndex]), old(AircraftControls()),
                    aircraft.position.y, aircraft.totalRange, dt)
      ensures aircraft.missionData == old(aircraft.missionData).(phase := segments[currentSegmentIndex].name.Label())
    {
      var segment := segments[currentSegmentIndex];
      aircraft.missionData := aircraft.missionData.(phase := segment.name.Label());
      match segment.name
      case WUTO => ExecuteWuto(dt);
      case CLIMB => ExecuteClimb(dt);
      case CRUISE => ExecuteCruise();
      case TURN => ExecuteTurn(dt);
      case DESCENT => ExecuteDescent(dt);
      case LANDING => ExecuteLanding(dt);
    }

    /** Warm-up and take-off: 30 s of warm-up at throttle 0.3, then full
        throttle until the target altitude is reached. */
    method ExecuteWuto(dt: real)
      requires Configured() && aircraft.Valid() && 0.0 <= dt
      requires currentSegmentIndex < |segments|
      modifies this`segments, aircraft`throttle
      ensures Configured() && aircraft.Valid()
      ensures forall j :: 0 <= j < |segments| && j != currentSegmentIndex ==> segments[j] == old(segments[j])
      ensures Step(segments[currentSegmentIndex], AircraftControls()) ==
        WutoStep(old(segments[currentSegmentIndex]), old(AircraftControls()), aircraft.position.y, dt)
    {
      var segment := segments[currentSegmentIndex];
      if segment.progress < 30.0 {
        aircraft.throttle := 0.3;
        segment := segment.(progress := segment.progress + dt);
      } else {
        aircraft.throttle := 1.0;
        if aircraft.position.y >= segment.targetAltitude {
          segment := segment.(completed := true);
        }
      }
      segments := segments[currentSegmentIndex := segment];
    }

    /** Minimum-fuel climb: below the target altitude, step the pitch toward
        the climb target and trim the throttle on speed; at the target,
        complete the segment and level off. */
    method ExecuteClimb(dt: real)
      requires Configured() && aircraft.Valid() && 0.0 <= dt
      requires currentSegmentIndex < |segments|
      modifies this`segments, aircraft`throttle, aircraft`rotation
      ensures Configured() && aircraft.Valid()
      ensures forall j :: 0 <= j < |segments| && j != currentSegmentIndex ==> segments[j] == old(segments[j])
      ensures Step(segments[currentSegmentIndex], AircraftControls()) ==
        ClimbStep(aircraft.math, old(segments[currentSegmentIndex]), old(AircraftControls()), aircraft.position.y, dt)
    {
      var segment := segments[currentSegmentIndex];
      var targetAltitude := segment.targetAltitude;
      var currentAltitude := aircraft.position.y;
      if currentAltitude < targetAltitude {
        var altitudeError := targetAltitude - currentAltitude;
        var desiredPitch := ClimbPitchTarget(altitudeError);
        var pitchRate := 0.5 * dt;
        if aircraft.rotation.x < desiredPitch {
          aircraft.rotation := aircraft.rotation.(x := aircraft.rotation.x + pitchRate);
        } else if aircraft.rotation.x > desiredPitch {
          aircraft.rotation := aircraft.rotation.(x := aircraft.rotation.x - pitchRate);
        }
        var currentSpeed := aircraft.velocity.Length(aircraft.math);
        if currentSpeed < segment.targetSpeed {
          aircraft.throttle := Min(1.0, aircraft.throttle + dt * 0.5);
        } else {
          aircraft.throttle := Max(0.5, aircraft.throttle - dt * 0.5);
        }
      } else {
        segment := segment.(completed := true);
        aircraft.rotation := aircraft.rotation.(x := 0.0);
      }
      segments := segments[currentSegmentIndex := segment];
    }

    /** Cruise: hold the target altitude, trim the throttle on speed, and
        complete once the range flown reaches the segment's distance. */
    method ExecuteCruise()
      requires Configured() && aircraft.Valid()
      requires currentSegmentIndex < |segments|
      modifies this`segments, aircraft`throttle, aircraft`rotation
      ensures Configured() && aircraft.Valid()
      ensures forall j :: 0 <= j < |segments| && j != currentSegmentIndex ==> segments[j] == old(segments[j])
      ensures Step(segments[currentSegmentIndex], AircraftControls()) ==
        CruiseStep(aircraft.math, old(segments[currentSegmentIndex]), old(AircraftControls()), aircraft.position.y, aircraft.totalRange)
    {
      var segment := segments[currentSegmentIndex];
      var altitudeError := segment.targetAltitude - aircraft.position.y;
      aircraft.rotation := aircraft.rotation.(x := altitudeError * 0.001);
      var currentSpeed := aircraft.velocity.Length(aircraft.math);
      var speedError := segment.targetSpeed - currentSpeed;
      if Abs(speedError) > 5.0 {
        var throttleAdjustment := speedError * 0.01;
        aircraft.throttle := Max(0.3, Min(1.0, aircraft.throttle + throttleAdjustment));
      }
      if segment.distance.Some? && segment.distance.value != 0.0 {
        segment := segment.(progress := aircraft.totalRange);
        if segment.progress >= segment.distance.value {
          segment := segment.(completed := true);
        }
      }
      segments := segments[currentSegmentIndex := segment];
    }

    /** Sustained turn: count the turn time, hold altitude, bank 30 degrees
        and yaw at the turn rate; after the segment's duration, complete and
        roll wings level. */
    method ExecuteTurn(dt: real)
      requires Configured() && aircraft.Valid() && 0.0 <= dt
      requires currentSegmentIndex < |segments| && segments[currentSegmentIndex].name == TURN
      modifies this`segments, aircraft`rotation
      ensures Configured() && aircraft.Valid()
      ensures forall j :: 0 <= j < |segments| && j != currentSegmentIndex ==> segments[j] == old(segments[j])
      ensures Step(segments[currentSegmentIndex], AircraftControls()) ==
        TurnStep(aircraft.math, old(segments[currentSegmentIndex]), old(AircraftControls()), aircraft.position.y, dt)
    {
      var bankAngle := TURN_BANK;
      var segment := segments[currentSegmentIndex];
      assert SameConfiguration(segment, DefaultSegments()[currentSegmentIndex]);
      DefaultTurnSegment(currentSegmentIndex);
      ghost var before, controls := segment, AircraftControls();
      if segment.turnTime.None? {
        segment := segment.(turnTime := Some(0.0));
      }
      segment := segment.(turnTime := Some(segment.turnTime.value + dt));
      var rotation := aircraft.rotation;
      var altitudeError := segment.targetAltitude - aircraft.position.y;
      rotation := rotation.(x := altitudeError * 0.001);
      rotation := rotation.(z := bankAngle);
      var turnRate := TurnYawRate(aircraft.math, segment.targetSpeed);
      rotation := rotation.(y := rotation.y + turnRate * dt);
      if segment.turnTime.value >= segment.duration.value {
        segment := segment.(completed := true);
        rotation := rotation.(z := 0.0);
      }
      assert turnRate == TurnYawRate(aircraft.math, before.targetSpeed);
      assert Step(segment, controls.(rotation := rotation)) ==
        TurnStep(aircraft.math, before, controls, aircraft.position.y, dt);
      aircraft.rotation := rotation;
      segments := segments[currentSegmentIndex := segment];
    }

    /** Descent: above the target altitude, lower the pitch toward the
        descent target and close the throttle down to 0.2; at the target,
        complete and level off. */
    method ExecuteDescent(dt: real)
      requires Configured() && aircraft.Valid() && 0.0 <= dt
      requires currentSegmentIndex < |segments|
      modifies this`segments, aircraft`throttle, aircraft`rotation
      ensures Configured() && aircraft.Valid()
      ensures forall j :: 0 <= j < |segments| && j != currentSegmentIndex ==> segments[j] == old(segments[j])
      ensures Step(segments[currentSegmentIndex], AircraftControls()) ==
        DescentStep(old(segments[currentSegmentIndex]), old(AircraftControls()), aircraft.position.y, dt)
    {
      var segment := segments[currentSegmentIndex];
      var targetAltitude := segment.targetAltitude;
      var currentAltitude := aircraft.position.y;
      if currentAltitude > targetAltitude {
        var altitudeError := currentAltitude - targetAltitude;
        var desiredPitch := DescentPitchTarget(altitudeError);
        var pitchRate := 0.3 * dt;
        if aircraft.rotation.x > desiredPitch {
          aircraft.rotation := aircraft.rotation.(x := aircraft.rotation.x - pitchRate);
        }
        aircraft.throttle := Max(0.2, aircraft.throttle - dt * 0.3);
      } else {
        segment := segment.(completed := true);
        aircraft.rotation := aircraft.rotation.(x := 0.0);
      }
      segments := segments[currentSegmentIndex := segment];
    }

    /** Landing approach: bleed off speed above the approach speed, keep
        the nose 0.1 rad down while above 10 m, and at 10 m complete with
        the throttle closed and the aircraft stopped. */
    method ExecuteLanding(dt: real)
      requires Configured() && aircraft.Valid() && 0.0 <= dt
      requires currentSegmentIndex < |segments|
      modifies this`segments, aircraft`throttle, aircraft`rotation, aircraft`velocity
      ensures Configured() && aircraft.Valid()
      ensures forall j :: 0 <= j < |segments| && j != currentSegmentIndex ==> segments[j] == old(segments[j])
      ensures Step(segments[currentSegmentIndex], AircraftControls()) ==
        LandingStep(aircraft.math, old(segments[currentSegmentIndex]), old(AircraftControls()), aircraft.position.y, dt)
    {
      var segment := segments[currentSegmentIndex];
      var currentSpeed := aircraft.velocity.Length(aircraft.math);
      if currentSpeed > segment.targetSpeed {
        aircraft.throttle := Max(0.1, aircraft.throttle - dt * 0.5);
      }
      if aircraft.position.y > 10.0 {
        aircraft.rotation := aircraft.rotation.(x := -0.1);
      } else {
        segment := segment.(completed := true);
        aircraft.throttle := 0.0;
        aircraft.velocity := ZERO;
      }
      segments := segments[currentSegmentIndex := segment];
    }

    /** Takes one profile sample per whole second of mission time: altitude,
        range, fuel and the current segment's name. */
    method RecordProfileData()
      requires Configured()
      modifies this`profileData
      ensures Configured()
      ensures Trunc(totalTime) > |old(profileData).altitude| ==>
        profileData == ProfileLog(
          old(profileData).altitude + [aircraft.position.y],
          old(profileData).range + [aircraft.totalRange],
          old(profileData).fuel + [aircraft.fuelMass],
          old(profileData).segments + [CurrentSegmentName()])
      ensures Trunc(totalTime) <= |old(profileData).altitude| ==> profileData == old(profileData)
    {
      if Trunc(totalTime) > |profileData.altitude| {
        var name := if currentSegmentIndex < |segments| then segments[currentSegmentIndex].name.Label()
                    else COMPLETE_LABEL;
        profileData := ProfileLog(
          profileData.altitude + [aircraft.position.y],
          profileData.range + [aircraft.totalRange],
          profileData.fuel + [aircraft.fuelMass],
          profileData.segments + [name]);
      }
    }

    /** The current segment's name, or COMPLETE past the last segment. */
    function CurrentSegmentName(): (name: string)
      reads this
      ensures currentSegmentIndex < |segments| ==> name == segments[currentSegmentIndex].name.Label()
      ensures |segments| <= currentSegmentIndex ==> name == COMPLETE_LABEL
    {
      if currentSegmentIndex < |segments| then segments[currentSegmentIndex].name.Label()
      else COMPLETE_LABEL
    }

    /** Mission progress in percent: the share of segments already passed. */
    function Progress(): (percent: real)
      reads this
      ensures |segments| == 0 ==> percent == 0.0
      ensures 0 < |segments| ==> percent * (|segments| as real) == (currentSegmentIndex as real) * 100.0
      ensures currentSegmentIndex <= |segments| ==> 0.0 <= percent <= 100.0
    {
      if |segments| == 0 then 0.0
      else
        var n := |segments| as real;
        var i := currentSegmentIndex as real;
        ProgressBounds(i, n);
        (i / n) * 100.0
    }

    method ToggleDisplay()
      modifies this`displayEnabled
      ensures displayEnabled == !old(displayEnabled)
    {
      displayEnabled := !displayEnabled;
    }

    /** Puts the cursor, the completion flag and the totals back to zero,
        clears every segment's run-time state (deleting the turn timer) and
        empties the profile lists; the configuration is kept. */
    method Reset()
      requires Configured()
      modifies this`currentSegmentIndex, this`missionComplete, this`totalFuelConsumed
      modifies this`totalDistance, this`totalTime, this`segments, this`profileData
      ensures Valid()
      ensures currentSegmentIndex == 0 && !missionComplete
      ensures totalFuelConsumed == 0.0 && totalDistance == 0.0 && totalTime == 0.0
      ensures profileData == EMPTY_PROFILE
      ensures |segments| == |old(segments)|
      ensures forall i :: 0 <= i < |segments| ==> segments[i] == old(segments[i]).Cleared()
    {
      currentSegmentIndex := 0;
      missionComplete := false;
      totalFuelConsumed := 0.0;
      totalDistance := 0.0;
      totalTime := 0.0;
      var i := 0;
      while i < |segments|
        modifies this`segments
        invariant 0 <= i <= |segments| == |old(segments)|
        invariant forall j :: 0 <= j < i ==> segments[j] == old(segments[j]).Cleared()
        invariant forall j :: i <= j < |segments| ==> segments[j] == old(segments[j])
      {
        segments := segments[i := segments[i].Cleared()];
        i := i + 1;
      }
      profileData := EMPTY_PROFILE;
    }
  }

  lemma ProgressBounds(i: real, n: real)
    requires 0.0 <= i && 0.0 < n
    ensures (i / n) * 100.0 * n == i * 100.0
    ensures 0.0 <= (i / n) * 100.0
    ensures i <= n ==> (i / n) * 100.0 <= 100.0
  {
    QuotientSign(i / n, n);
    if i <= n {
      QuotientAtMostOne(i, n);
    }
  }

  lemma QuotientAtMostOne(a: real, b: real)
    requires 0.0 < b && a <= b
    ensures a / b <= 1.0
  {
    QuotientSign(a / b - 1.0, b);
    assert (a / b - 1.0) * b == a / b * b - b;
    assert a / b * b == a;
  }

  /** The reported name is COMPLETE exactly when the mission is complete,
      since no segment is called COMPLETE. */
  lemma CompleteNameIffComplete(profile: MissionProfile)
    requires profile.Valid()
    ensures profile.CurrentSegmentName() == COMPLETE_LABEL <==> profile.missionComplete
  {
    if !profile.missionComplete {
      var name := profile.segments[profile.currentSegmentIndex].name;
      assert name.Label() != COMPLETE_LABEL by {
        assert name.Label()[0] != COMPLETE_LABEL[0] || |name.Label()| != |COMPLETE_LABEL|;
      }
    }
  }

  /** Progress is 100 percent exactly when the mission is complete. */
  lemma FullProgressIffComplete(profile: MissionProfile)
    requires profile.Valid()
    ensures profile.Progress() == 100.0 <==> profile.missionComplete
  {
    var n := |profile.segments| as real;
    var i := profile.currentSegmentIndex as real;
    assert profile.Progress() * n == i * 100.0;
    if profile.Progress() == 100.0 {
      assert 100.0 * n == i * 100.0;
    }
  }
}
