/** The simulator's per-tick logic: the pause/crash gate and the tick order
    (aircraft, mission, world, collisions), the two-threshold collision
    evaluator with its sticky crash flag, the joint reset, the keyboard
    commands and the camera-mode cycle. Rendering, the HUD and the pygame
    event loop are not modelled. */
module Simulator {
  import opened Numerics
  import opened AircraftDynamics
  import opened MissionProfiles
  import opened WorldModel

  // ---------------------------------------------------------------------
  // Collision banding
  // ---------------------------------------------------------------------

  /** Below this height above ground, or this close to a building, the
      warning is raised. */
  const WARNING_THRESHOLD: real := 100.0
  /** The critical band, in which an impact is checked for. */
  const CRITICAL_THRESHOLD: real := 30.0
  /** An impact: this low above ground ... */
  const TERRAIN_IMPACT: real := 5.0
  /** ... or this close to a building. */
  const BUILDING_IMPACT: real := 10.0

  datatype AlertLevel = Clear | Caution | Critical

  /** The band the aircraft is in, given its height above ground and its
      distance to the nearest building (+infinity when there is none). */
  function Alert(agl: real, nearest: Extended): (level: AlertLevel)
    ensures level == Critical <==> agl < CRITICAL_THRESHOLD || nearest.Below(CRITICAL_THRESHOLD)
    ensures level == Caution <==>
      !(agl < CRITICAL_THRESHOLD || nearest.Below(CRITICAL_THRESHOLD))
      && (agl < WARNING_THRESHOLD || nearest.Below(WARNING_THRESHOLD))
    ensures level == Clear <==> WARNING_THRESHOLD <= agl && !nearest.Below(WARNING_THRESHOLD)
  {
    if agl < CRITICAL_THRESHOLD || nearest.Below(CRITICAL_THRESHOLD) then Critical
    else if agl < WARNING_THRESHOLD || nearest.Below(WARNING_THRESHOLD) then Caution
    else Clear
  }

  /** Contact with the terrain or a building. */
  predicate Impact(agl: real, nearest: Extended) {
    agl <= TERRAIN_IMPACT || nearest.AtMost(BUILDING_IMPACT)
  }

  /** An impact always lies inside the critical band, so the crash check
      nested in that band sees every impact. */
  lemma ImpactIsCritical(agl: real, nearest: Extended)
    requires Impact(agl, nearest)
    ensures Alert(agl, nearest) == Critical
  {
  }

  /** The alert is monotone: coming lower or closer never lowers it. */
  lemma AlertMonotone(agl: real, lowerAgl: real, nearest: Extended, closer: Extended)
    requires lowerAgl <= agl
    requires nearest.Finite? ==> closer.Finite? && closer.value <= nearest.value
    ensures Alert(agl, nearest) == Critical ==> Alert(lowerAgl, closer) == Critical
    ensures Alert(agl, nearest) == Caution ==> Alert(lowerAgl, closer) != Clear
  {
  }

  // ---------------------------------------------------------------------
  // Nearest building
  // ---------------------------------------------------------------------

  /** The running minimum of the building distances, in list order,
      starting from +infinity. */
  function NearestDistance(m: MathLib, p: Vec3, buildings: seq<Building>): Extended
    requires m.Valid()
    decreases |buildings|
  {
    if |buildings| == 0 then PosInf
    else MinExtended(NearestDistance(m, p, buildings[..|buildings| - 1]),
                     Finite(BuildingDistance(m, p, buildings[|buildings| - 1])))
  }

  /** The nearest distance is +infinity exactly when there are no
      buildings; otherwise it is at most every building's distance and is
      the distance of one of them. */
  lemma {:induction false} NearestDistanceIsMinimum(m: MathLib, p: Vec3, buildings: seq<Building>)
    requires m.Valid()
    ensures NearestDistance(m, p, buildings).PosInf? <==> |buildings| == 0
    ensures forall i :: 0 <= i < |buildings| ==>
      NearestDistance(m, p, buildings).AtMost(BuildingDistance(m, p, buildings[i]))
    ensures NearestDistance(m, p, buildings).Finite? ==>
      exists i :: 0 <= i < |buildings| && NearestDistance(m, p, buildings).value == BuildingDistance(m, p, buildings[i])
    decreases |buildings|
  {
    if |buildings| > 0 {
      var prefix := buildings[..|buildings| - 1];
      NearestDistanceIsMinimum(m, p, prefix);
      var last := Finite(BuildingDistance(m, p, buildings[|buildings| - 1]));
      var nearest := NearestDistance(m, p, buildings);
      assert nearest == MinExtended(NearestDistance(m, p, prefix), last);
      forall i | 0 <= i < |buildings|
        ensures nearest.AtMost(BuildingDistance(m, p, buildings[i]))
      {
        if i < |buildings| - 1 {
          assert buildings[i] == prefix[i];
        }
      }
      if nearest != last {
        var i :| 0 <= i < |prefix| && NearestDistance(m, p, prefix).value == BuildingDistance(m, p, prefix[i]);
        assert prefix[i] == buildings[i];
      }
    }
  }

  /** The loop of check_collisions that scans the buildings for the
      smallest distance. */
  method NearestBuildingDistance(m: MathLib, p: Vec3, buildings: seq<Building>) returns (nearest: Extended)
    requires m.Valid()
    ensures nearest == NearestDistance(m, p, buildings)
  {
    nearest := PosInf;
    var i := 0;
    while i < |buildings|
      invariant 0 <= i <= |buildings|
      invariant nearest == NearestDistance(m, p, buildings[..i])
    {
      var distance := BuildingDistance(m, p, buildings[i]);
      nearest := MinExtended(nearest, Finite(distance));
      assert buildings[..i + 1][..i] == buildings[..i];
      i := i + 1;
    }
    assert buildings[..|buildings|] == buildings;
  }

  // ---------------------------------------------------------------------
  // Camera modes
  // ---------------------------------------------------------------------

  datatype CameraMode = ThirdPerson | Chase | Orbit | Free
  {
    /** The next mode in the cycle third person, chase, orbit, free. */
    function Next(): (next: CameraMode)
      ensures next != this
    {
      match this
      case ThirdPerson => Chase
      case Chase => Orbit
      case Orbit => Free
      case Free => ThirdPerson
    }

    /** The camera offset a mode switch installs. */
    function Offset(): Vec3 {
      match this
      case ThirdPerson => Vec3(0.0, 20.0, -60.0)
      case Chase => Vec3(0.0, 10.0, -40.0)
      case Orbit => Vec3(30.0, 15.0, -30.0)
      case Free => Vec3(0.0, 50.0, -100.0)
    }
  }

  /** The offset the simulator starts with, which no mode switch
      installs. */
  const INITIAL_CAMERA_OFFSET: Vec3 := Vec3(0.0, 15.0, -50.0)

  /** Four switches return to the starting mode, and no fewer do. */
  lemma FourSwitchesCycle(mode: CameraMode)
    ensures mode.Next().Next().Next().Next() == mode
    ensures mode.Next().Next() != mode && mode.Next().Next().Next() != mode
  {
  }

  /** The starting offset is not any mode's offset: after four switches
      the mode is third person again but the offset is that mode's
      (0, 20, -60), not the starting (0, 15, -50). */
  lemma InitialOffsetNotRestored(mode: CameraMode)
    ensures mode.Offset() != INITIAL_CAMERA_OFFSET
  {
  }

  // ---------------------------------------------------------------------
  // Events
  // ---------------------------------------------------------------------

  datatype Key = Escape | KeyP | KeyR | KeyM | KeyD | KeyC | Tab | OtherKey
  datatype Event = Quit | KeyDown(key: Key) | OtherEvent

  // ---------------------------------------------------------------------
  // The simulator
  // ---------------------------------------------------------------------

  class FlightSimulator {
    const aircraft: Aircraft
    const world: World
    const mission: MissionProfile

    var cameraMode: CameraMode
    var cameraOffset: Vec3
    var running: bool
    var paused: bool
    var crashed: bool
    var warningTimer: real
    var collisionWarning: bool
    var debugMode: bool

    /** The components are wired together and valid; the timer runs only
        while the warning is up; a crash has stopped the aircraft. */
    ghost predicate Valid()
      reads this, aircraft, world, mission
    {
      && aircraft.Valid() && world.Valid() && mission.Valid()
      && mission.aircraft == aircraft
      && world.math == aircraft.math
      && 0.0 <= warningTimer
      && (!collisionWarning ==> warningTimer == 0.0)
      && (crashed ==> aircraft.velocity == ZERO)
    }

    constructor (aircraft: Aircraft, world: World, mission: MissionProfile)
      requires aircraft.Valid() && world.Valid() && mission.Valid()
      requires mission.aircraft == aircraft && world.math == aircraft.math
      ensures this.aircraft == aircraft && this.world == world && this.mission == mission
      ensures Valid()
      ensures cameraMode == ThirdPerson && cameraOffset == INITIAL_CAMERA_OFFSET
      ensures running && !paused && !crashed && !collisionWarning && warningTimer == 0.0 && debugMode
    {
      this.aircraft := aircraft;
      this.world := world;
      this.mission := mission;
      cameraMode := ThirdPerson;
      cameraOffset := INITIAL_CAMERA_OFFSET;
      running := true;
      paused := false;
      crashed := false;
      warningTimer := 0.0;
      collisionWarning := false;
      debugMode := true;
    }

    /** The aircraft's height above the terrain under it. */
    function AltitudeAboveGround(): real
      reads this, aircraft, world
      requires world.Valid()
    {
      aircraft.position.y
        - TerrainFold(world.math, BaseHeight(world.heightMap, aircraft.position.x, aircraft.position.z),
                      world.mountains, aircraft.position.x, aircraft.position.z)
    }

    /** The distance to the nearest building. */
    function Nearest(): Extended
      reads this, aircraft, world
      requires world.Valid()
    {
      NearestDistance(world.math, aircraft.position, world.buildings)
    }

    /** One simulation tick; nothing happens while paused or after a
        crash, so a crash lasts until the simulation is reset. */
    method Update(dt: real, keys: Keys)
      requires Valid() && 0.0 <= dt
      modifies this`collisionWarning, this`warningTimer, this`crashed
      modifies aircraft`rotation, aircraft`throttle, aircraft`position, aircraft`velocity
      modifies aircraft`fuelMass, aircraft`missionTime, aircraft`totalRange, aircraft`missionData
      modifies mission, world`clouds
      ensures Valid()
      ensures old(paused) || old(crashed) ==>
        unchanged(this) && unchanged(aircraft) && unchanged(mission) && unchanged(world)
      ensures !old(paused) && !old(crashed) ==>
        |world.clouds| == |old(world.clouds)|
        && (forall i :: 0 <= i < |world.clouds| ==> world.clouds[i] == DriftCloud(old(world.clouds[i]), dt))
        && mission.totalTime == (if old(mission.missionComplete) then old(mission.totalTime) else old(mission.totalTime) + dt)
        && aircraft.missionTime == old(aircraft.missionTime) + dt
      ensures old(crashed) ==> crashed
    {
      if paused || crashed {
        return;
      }
      aircraft.Update(dt, keys);
      mission.Update(dt);
      world.Update(dt, aircraft.position);
      CheckCollisions(dt);
    }

    /** check_collisions: band the height above ground and the nearest
        building distance; raise the warning and run the timer in the
        critical and caution bands, crash and stop the aircraft on impact,
        and clear the warning and the timer otherwise. */
    method CheckCollisions(dt: real)
      requires Valid() && 0.0 <= dt
      modifies this`collisionWarning, this`warningTimer, this`crashed, aircraft`velocity
      ensures Valid()
      ensures var level := Alert(AltitudeAboveGround(), Nearest());
        && (collisionWarning <==> level != Clear)
        && warningTimer == (if level == Clear then 0.0 else old(warningTimer) + dt)
        && (crashed <==> old(crashed) || Impact(AltitudeAboveGround(), Nearest()))
        && aircraft.velocity == (if Impact(AltitudeAboveGround(), Nearest()) then ZERO else old(aircraft.velocity))
    {
      var terrainHeight := world.TerrainHeight(aircraft.position.x, aircraft.position.z);
      var altitudeAgl := aircraft.position.y - terrainHeight;
      var minBuildingDistance := NearestBuildingDistance(world.math, aircraft.position, world.buildings);
      ApplyAlert(dt, altitudeAgl, minBuildingDistance);
    }

    /** The banding of check_collisions, given the height above ground and
        the nearest building distance. */
    method ApplyAlert(dt: real, altitudeAgl: real, minBuildingDistance: Extended)
      requires Valid() && 0.0 <= dt
      modifies this`collisionWarning, this`warningTimer, this`crashed, aircraft`velocity
      ensures Valid()
      ensures var level := Alert(altitudeAgl, minBuildingDistance);
        && (collisionWarning <==> level != Clear)
        && warningTimer == (if level == Clear then 0.0 else old(warningTimer) + dt)
        && (crashed <==> old(crashed) || Impact(altitudeAgl, minBuildingDistance))
        && aircraft.velocity == (if Impact(altitudeAgl, minBuildingDistance) then ZERO else old(aircraft.velocity))
      ensures crashed && !old(crashed) ==> collisionWarning
    {
      if altitudeAgl < CRITICAL_THRESHOLD || minBuildingDistance.Below(CRITICAL_THRESHOLD) {
        collisionWarning := true;
        warningTimer := warningTimer + dt;
        if altitudeAgl <= TERRAIN_IMPACT || minBuildingDistance.AtMost(BUILDING_IMPACT) {
          crashed := true;
          aircraft.velocity := ZERO;
        }
      } else if altitudeAgl < WARNING_THRESHOLD || minBuildingDistance.Below(WARNING_THRESHOLD) {
        collisionWarning := true;
        warningTimer := warningTimer + dt;
      } else {
        collisionWarning := false;
        warningTimer := 0.0;
      }
    }

    /** What a reset leaves: the aircraft at its initial state; the mission
        cursor, completion flag, clock, distance and fuel total at zero,
        every segment cleared with its configuration kept, and an empty
        profile; no crash and no warning. */
    twostate predicate WasReset()
      reads this, aircraft, mission
    {
        && aircraft.AtInitialState()
        && mission.currentSegmentIndex == 0 && !mission.missionComplete && mission.totalTime == 0.0
        && mission.totalDistance == 0.0 && mission.totalFuelConsumed == 0.0
        && mission.profileData == EMPTY_PROFILE
        && |mission.segments| == |old(mission.segments)|
        && (forall i :: 0 <= i < |mission.segments| ==> mission.segments[i] == old(mission.segments[i]).Cleared())
        && !crashed && warningTimer == 0.0 && !collisionWarning
    }

    /** Nothing of the flight changed: the crash and warning state, the
        aircraft and the mission's run state are as before. */
    twostate predicate FlightStateUnchanged()
      reads this, aircraft, mission
    {
      && crashed == old(crashed) && warningTimer == old(warningTimer) && collisionWarning == old(collisionWarning)
      && unchanged(aircraft)
      && mission.RunState() == old(mission.RunState())
    }

    /** Resets the aircraft and the mission together and clears the crash,
        the warning and its timer. */
    method ResetSimulation()
      requires Valid()
      modifies this`crashed, this`warningTimer, this`collisionWarning
      modifies aircraft`position, aircraft`velocity, aircraft`rotation, aircraft`throttle
      modifies aircraft`fuelMass, aircraft`totalRange, aircraft`missionTime, aircraft`missionData
      modifies mission`currentSegmentIndex, mission`missionComplete, mission`totalFuelConsumed
      modifies mission`totalDistance, mission`totalTime, mission`segments, mission`profileData
      ensures Valid() && WasReset()
    {
      aircraft.Reset();
      mission.Reset();
      crashed := false;
      warningTimer := 0.0;
      collisionWarning := false;
    }

    /** Switches to the next camera mode and installs its offset. */
    method CycleCameraMode()
      modifies this`cameraMode, this`cameraOffset
      ensures cameraMode == old(cameraMode).Next()
      ensures cameraOffset == cameraMode.Offset()
    {
      cameraMode := cameraMode.Next();
      cameraOffset := cameraMode.Offset();
    }

    /** The R key: a full reset, but only after a crash. */
    method ResetAfterCrash()
      requires Valid()
      modifies this`crashed, this`warningTimer, this`collisionWarning
      modifies aircraft`position, aircraft`velocity, aircraft`rotation, aircraft`throttle
      modifies aircraft`fuelMass, aircraft`totalRange, aircraft`missionTime, aircraft`missionData
      modifies mission`currentSegmentIndex, mission`missionComplete, mission`totalFuelConsumed
      modifies mission`totalDistance, mission`totalTime, mission`segments, mission`profileData
      ensures Valid()
      ensures old(crashed) ==> WasReset()
      ensures !old(crashed) ==> unchanged(this) && unchanged(aircraft) && unchanged(mission)
    {
      if crashed {
        ResetSimulation();
      }
    }

    /** The keyboard commands: quit and Escape stop the loop, P toggles
        the pause, R resets only after a crash, M toggles the mission
        display, D the debug mode, C cycles the camera. */
    method HandleEvent(event: Event)
      requires Valid()
      modifies this`running, this`paused, this`debugMode, this`cameraMode, this`cameraOffset
      modifies mission`displayEnabled
      modifies this`crashed, this`warningTimer, this`collisionWarning
      modifies aircraft`position, aircraft`velocity, aircraft`rotation, aircraft`throttle
      modifies aircraft`fuelMass, aircraft`totalRange, aircraft`missionTime, aircraft`missionData
      modifies mission`currentSegmentIndex, mission`missionComplete, mission`totalFuelConsumed
      modifies mission`totalDistance, mission`totalTime, mission`segments, mission`profileData
      ensures Valid()
      ensures running == (old(running) && event != Quit && event != KeyDown(Escape))
      ensures paused == (if event == KeyDown(KeyP) then !old(paused) else old(paused))
      ensures debugMode == (if event == KeyDown(KeyD) then !old(debugMode) else old(debugMode))
      ensures mission.displayEnabled == (if event == KeyDown(KeyM) then !old(mission.displayEnabled) else old(mission.displayEnabled))
      ensures cameraMode == (if event == KeyDown(KeyC) then old(cameraMode).Next() else old(cameraMode))
      ensures cameraOffset == (if event == KeyDown(KeyC) then cameraMode.Offset() else old(cameraOffset))
      ensures event == KeyDown(KeyR) && old(crashed) ==> WasReset()
      ensures !(event == KeyDown(KeyR) && old(crashed)) ==> FlightStateUnchanged()
    {
      match event
      case Quit =>
        running := false;
      case KeyDown(key) =>
        match key {
          case Escape => running := false;
          case KeyP => paused := !paused;
          case KeyR => ResetAfterCrash();
          case KeyM => mission.ToggleDisplay();
          case KeyD => debugMode := !debugMode;
          case KeyC => CycleCameraMode();
          case Tab =>
          case OtherKey =>
        }
      case OtherEvent =>
    }
  }
}
