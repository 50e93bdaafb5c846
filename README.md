# Flight simulator with mission profile: a verified Dafny model

This project models the simulation core of a small pygame flight simulator
and proves properties of that model. The core consists of:

- the aircraft state update: the pilot's clamped control inputs, the fuel
  floor, the speed limit, the altitude clamps and the once-per-second
  mission log;
- the six-segment mission autopilot (warm-up and take-off, climb, cruise,
  turn, descent, landing). It walks the segments with a forward-only cursor
  and overwrites the aircraft's throttle and attitude;
- the collision evaluator of the main loop: a warning band and a critical
  band, a sticky crash flag and a joint reset. The tick is gated on pause
  and crash, and the keyboard commands and camera cycle are included;
- the world queries: the distance to a building's bounding box, the terrain
  height (a height-map lookup raised by mountain cones) and the cloud drift;
- the physics helpers: the ISA temperature, the performance calculator with
  its guard branches, the flight-envelope classifiers and the fuel
  calculator.

Files and modules, one per source file:

| file | module | models |
|---|---|---|
| `numerics.dfy` | `Numerics` | shared values: reals for Python floats, `Extended` for `float('inf')`, `Trunc` for Python's `int()`, `Vec3` for `pygame.math.Vector3`, and the `MathLib` record of the math functions the source calls |
| `physics.dfy` | `Physics` | `physics.py`, written as pure functions |
| `aircraft.dfy` | `AircraftDynamics` | `aircraft.py`: the pure force formulas as functions, and class `Aircraft`, updated in place |
| `mission.dfy` | `MissionProfiles` | `mission.py`: class `MissionProfile`. Segments are value records in a sequence field that the methods reassign. Each segment controller is also stated as a function on values (`WutoStep` … `LandingStep`, dispatched by `SegmentStep`); each `Execute*` method is proved to produce exactly that function's result, and the lemmas about these functions state what the controllers achieve |
| `world.dfy` | `WorldModel` | `world.py`: pure distance and terrain functions, and class `World` with its cloud-drift loop |
| `simulator.dfy` | `Simulator` | `main.py`: class `FlightSimulator` |

Python floats are modelled as unbounded reals.

`math.sqrt`, `math.exp`, `math.sin`, `math.cos` and `math.tan` become the
fields of a `MathLib` value, and every formula that calls them takes this
value as a parameter. `MathLib.Valid()` lists the only facts the proofs use:

- the square root is the non-negative root of a non-negative argument;
- `exp` is positive;
- on floats `tan` is zero only at zero;
- on floats `cos` is never zero;
- `tan(pi/6)` is positive;
- `sin(x)^2 + cos(x)^2 = 1`, which floats meet only up to rounding.

Where the source raises a Python exception, the model returns it as a
value. `physics.py` can raise a math domain error or divide by zero. It can
also raise a negative float to the power 0.25: Python 3 then returns a
complex number and raises nothing. The `Physics.Outcome` datatype returns
all three cases as values (the complex number as `ComplexResult`) rather
than excluding them by a precondition.

Three behaviours of the code are worth stating outright:

- The performance formulas do not always return a real number:
  - the stall speed with a negative weight raises a math domain error
    (`physics.py:118`);
  - the best-climb speed with a negative weight raises a math domain error
    (`physics.py:127`);
  - the best-climb speed with a non-negative weight and a negative K
    returns a complex number (`physics.py:128-129`), reported as
    `ComplexResult`;
  - the best-range and best-endurance speeds raise a math domain error with
    K < 0, divide by zero with K = 0, and with K > 0 raise a math domain
    error for a negative weight (`physics.py:138`, `physics.py:147`).

  The model returns each of these outcomes.
- A crash zeroes only the velocity (`main.py:110-111`); the throttle is
  left alone, and the update gated on the crash flag (`main.py:195`) then
  stops every change.
- The doc-comment of `calculate_best_range_speed` (`physics.py:134-136`)
  gives a different formula from the one its code computes
  (`physics.py:138`). The model uses the code's formula.

## Model

| member | source | states |
|---|---|---|
| Physics.Temperature | physics.py:20-25 | linear lapse 288.15 - 0.0065 h below 11000 m, 216.65 K from there up, never below 216.65 K |
| Physics.TemperatureNonIncreasing | physics.py:20-25 | temperature never rises with altitude; two altitudes have equal temperature iff they are equal or both at or above the tropopause |
| Physics.SpeedOfSound | physics.py:50-54 | positive, and its square is gamma R T(h) |
| Physics.SpecificRange | physics.py:61-67 | 0 without positive fuel flow, otherwise range times fuel flow is the velocity |
| Physics.SpecificEndurance | physics.py:70-76 | 0 without positive fuel flow, otherwise positive with SE times fuel flow equal to 1 |
| Physics.SpecificExcessPower | physics.py:79-85 | 0 for weight <= 0, otherwise Ps W = (T - D) V |
| Physics.ExcessPowerSign | physics.py:79-85 | in forward flight Ps > 0 iff thrust exceeds drag and Ps < 0 iff drag exceeds thrust |
| Physics.TurnRadius | physics.py:88-94 | +infinity exactly when the bank angle is 0; otherwise r g tan(bank) = V^2 |
| Physics.TurnRate | physics.py:97-103 | 0 when velocity <= 0, otherwise omega V = g tan(bank) |
| Physics.TurnRateTimesRadius | physics.py:88-103 | in a banked turn rate times radius equals the airspeed |
| Physics.LoadFactor | physics.py:106-110 | n cos(bank) = 1 |
| Physics.CheckedSqrt | physics.py:118 | a math domain error exactly for a negative argument, otherwise the non-negative root |
| Physics.CheckedDiv | physics.py:138 | ZeroDivisionError exactly for a zero divisor, otherwise the quotient |
| Physics.StallSpeed | physics.py:113-119 | 0 unless density, wing area and CLmax are all positive; under the guard it fails iff the weight is negative, and otherwise Vs >= 0 with Vs^2 rho S CLmax = 2W |
| Physics.FourthRoot | physics.py:128 | a complex result exactly for a negative base, otherwise a non-negative fourth root |
| Physics.BestClimbSpeed | physics.py:122-130 | 0 outside the density/area/CD0 guard; under it a domain error iff W < 0, a complex result iff W >= 0 and K < 0, a non-negative speed otherwise |
| Physics.OptimalSpeed | physics.py:133-148 | the best-range and best-endurance formula: 0 outside the guard; a domain error for K < 0, division by zero for K = 0, a domain error for K > 0 iff W < 0; otherwise V >= 0 with V^2 rho S sqrt(f CD0 K) = 2W |
| Physics.BestRangeSpeed | physics.py:133-139 | 0 outside the guard; under it a speed exactly when K > 0 and W >= 0, with V >= 0 and V^2 rho S sqrt(CD0 K) = 2W |
| Physics.BestEnduranceSpeed | physics.py:142-148 | 0 outside the guard; under it a speed exactly when K > 0 and W >= 0, with V >= 0 and V^2 rho S sqrt(3 CD0 K) = 2W |
| Physics.EnduranceSpeedBelowRangeSpeed | physics.py:133-148 | with a positive K and a non-negative weight, the best-endurance speed never exceeds the best-range speed |
| Physics.CheckSpeedLimits | physics.py:155-161 | exactly one of three results: stall iff v < min, overspeed iff min <= v and v > max, normal iff min <= v <= max |
| Physics.CheckGLimits | physics.py:164-170 | over-g iff n > max positive; negative-g iff n <= max positive and n < max negative; normal iff n lies within the limits |
| Physics.CheckAltitudeLimits | physics.py:173-179 | ceiling iff h > ceiling; terrain iff h <= ceiling and h < 0; normal iff 0 <= h <= ceiling |
| Physics.LabelsDistinct | physics.py:155-179 | two statuses have the same string label iff they are the same status |
| Physics.Endurance | physics.py:201-207 | 0 without positive fuel flow, and non-negative for non-negative fuel |
| Physics.ReserveOfEndurance | physics.py:201-214 | the reserve fuel for the endurance of some fuel is that fuel, and the endurance of a reserve is its time |
| Physics.RangeIsSpeedTimesEndurance | physics.py:194-207 | the range from the specific range equals velocity times endurance |
| Physics.EnduranceMatchesSpecificEndurance | physics.py:70-76 | the endurance equals the fuel times the specific endurance |
| AircraftDynamics.AltitudeThrustFactor | aircraft.py:77 | positive; at most 1 on [0, 20000); 0.5 from 20000 m on |
| AircraftDynamics.SpeedThrustFactor | aircraft.py:81 | in [0, 1] for a non-negative speed, and 0 iff the speed is at least 1000 m/s |
| AircraftDynamics.ThrustBounds | aircraft.py:74-83 | with the throttle in [0,1], 0 <= y < 20000 and a non-negative speed, thrust lies in [0, max thrust], and is positive for an open throttle below 1000 m/s |
| AircraftDynamics.AirDensity | aircraft.py:88 | positive |
| AircraftDynamics.LiftCoefficient | aircraft.py:96-99 | the coefficient CL0 + CLalpha alpha clamped to [-1.5, 1.5]: unchanged inside the clamp and at the nearer bound outside it |
| AircraftDynamics.LiftCoefficientMonotone | aircraft.py:96-99 | the clamped coefficient is monotone in the angle of attack |
| AircraftDynamics.DynamicForcePositive | aircraft.py:102 | the dynamic-pressure force 0.5 rho V^2 S is positive for positive density and speed |
| AircraftDynamics.LiftForce | aircraft.py:85-102 | 0 below 0.1 m/s; otherwise positive iff the clamped CL is positive and negative iff it is negative |
| AircraftDynamics.DragForce | aircraft.py:104-121 | 0 below 0.1 m/s; otherwise at least the positive parasite drag q S CD0 |
| AircraftDynamics.AltitudeEfficiency | aircraft.py:129 | in (0.5, 1] for 0 <= y < 15000 and 0.5 from 15000 m on |
| AircraftDynamics.AltitudeEfficiencyNonIncreasing | aircraft.py:129 | the efficiency factor never rises with altitude |
| AircraftDynamics.FuelConsumptionBounds | aircraft.py:123-132 | with throttle in [0,1] and non-negative y and dt, one tick burns between 0 and flow rate times dt |
| AircraftDynamics.PitchCommand | aircraft.py:143-151 | keeps pitch within +-30 degrees; no key leaves it unchanged; W alone never lowers it; S alone never raises it |
| AircraftDynamics.RollCommand | aircraft.py:154-157 | keeps roll within +-60 degrees; no key leaves it unchanged; D alone never lowers it; A alone never raises it |
| AircraftDynamics.YawCommand | aircraft.py:160-163 | E alone adds dt, Q alone subtracts dt, both or neither leave the yaw |
| AircraftDynamics.ThrottleCommand | aircraft.py:138-140 | keeps the throttle in [0,1]; with no fuel it is 0 unless LShift is held and never above dt; with fuel and no throttle key it is unchanged |
| AircraftDynamics.AutoLevelShrinks | aircraft.py:172-174 | auto-level alone never increases the magnitude of pitch or roll, and strictly shrinks a non-zero pitch |
| AircraftDynamics.ThrustDirectionIsUnit | aircraft.py:200-214 | the thrust direction built from pitch and yaw is a unit vector |
| AircraftDynamics.DragOpposesMotion | aircraft.py:222-226 | above 0.1 m/s the drag acceleration along the velocity is minus drag over mass times the speed (it opposes the motion); below it there is none |
| AircraftDynamics.Acceleration | aircraft.py:187-235 | below 0.1 m/s only thrust along the thrust direction and gravity act: no lift and no drag |
| AircraftDynamics.LimitSpeed | aircraft.py:241-243 | the result is never faster than the limit; a slower velocity is kept; a faster one is rescaled to exactly the limit |
| AircraftDynamics.ClampAltitude | aircraft.py:249-255 | y ends in [10, ceiling]; x and z are untouched; at the floor the vertical speed is not negative; within the band nothing changes |
| AircraftDynamics.ClampAltitudeKeepsSpeedBound | aircraft.py:249-252 | the altitude clamp never speeds the aircraft up |
| AircraftDynamics.HorizontalSpeed | aircraft.py:262 | the ground speed: non-negative, its square is vx² + vz², and it is at most the full speed |
| AircraftDynamics.Aircraft.constructor | aircraft.py:11-55 | the default aircraft at its initial state, satisfying the invariant |
| AircraftDynamics.Aircraft.TotalMass | aircraft.py:70-72 | empty mass plus fuel, within [empty mass, empty mass + capacity] |
| AircraftDynamics.Aircraft.Speed | aircraft.py:188 | the speed is non-negative and its square is the squared length of the velocity |
| AircraftDynamics.Aircraft.Thrust | aircraft.py:74-83 | within [0, max thrust] |
| AircraftDynamics.Aircraft.UpdateFuel | aircraft.py:123-134 | returns the tick's consumption, within [0, flow rate dt]; new fuel is max(0, fuel - consumption), never negative and never more than before |
| AircraftDynamics.Aircraft.ApplyControls | aircraft.py:138-174 | rotation and throttle become the pitch, yaw, roll and throttle commands of the held keys |
| AircraftDynamics.Aircraft.ApplyThrottleKeys | aircraft.py:138-140 | the throttle becomes the throttle command, keeping the invariant |
| AircraftDynamics.Aircraft.ApplyAttitudeKeys | aircraft.py:143-174 | the rotation becomes the pitch, yaw and roll commands |
| AircraftDynamics.Aircraft.UpdatePhysics | aircraft.py:185-255 | velocity and position become the speed-limited, altitude-clamped integration step; the speed is at most 250 m/s and the invariant (including 10 <= y <= ceiling) holds |
| AircraftDynamics.Aircraft.UpdateMissionData | aircraft.py:257-271 | the clock advances by dt and the range by ground speed times dt; all five lists get one sample iff int(time) exceeds the sample count, and are otherwise unchanged |
| AircraftDynamics.Aircraft.Update | aircraft.py:136-183 | one tick keeps the invariant, applies the key commands, limits the speed, never adds fuel, advances the clock by dt and adds at most one log sample |
| AircraftDynamics.Aircraft.Reset | aircraft.py:273-289 | restores the initial position, velocity, attitude, throttle, fuel, clocks and an empty log with phase GROUND |
| MissionProfiles.Segment.Cleared | mission.py:284-288 | run-time state cleared and configuration kept |
| MissionProfiles.DefaultSegments | mission.py:46-66 | six fresh segments with distinct names and positive target speeds |
| MissionProfiles.StepToward | mission.py:143-148 | with a non-negative rate the pitch moves toward the desired pitch, by exactly the rate and staying between the old pitch and old pitch plus or minus the rate; a step no longer than the error closes it by the step, a longer one leaves an error under the step; on target nothing moves |
| MissionProfiles.ClimbPitchTarget | mission.py:139-142 | at most 0.3, positive below the target, err/1000 for errors up to 300 m |
| MissionProfiles.ClimbThrottle | mission.py:151-155 | stays in [0,1]; never closes while under the target speed; at or above it never below 0.5 and never opens |
| MissionProfiles.AltitudeHoldPitch | mission.py:165-166 | nose up iff below the target, nose down iff above; pitch times 1000 is the altitude error |
| MissionProfiles.CruiseThrottle | mission.py:169-174 | unchanged within 5 m/s of the target; otherwise within [0.3, 1], never closing when slow and never opening when fast |
| MissionProfiles.DescentPitch | mission.py:218-220 | never raises the pitch; lowers it by the rate while above the desired pitch |
| MissionProfiles.DescentPitchTarget | mission.py:215-216 | at least -0.2 and negative while above the target |
| MissionProfiles.DescentThrottle | mission.py:223 | never below 0.2, never opening, never above 1 |
| MissionProfiles.LandingThrottle | mission.py:232-235 | unchanged at or below the approach speed; above it never below 0.1 and never opening; stays in [0,1] |
| MissionProfiles.TurnYawRate | mission.py:197-200 | the yaw rate times the target speed is g tan(30 degrees) |
| MissionProfiles.TurnYawRatePositive | mission.py:199-201 | at a positive target speed the yaw rate is positive |
| MissionProfiles.TurnYawRateIsTurnRate | mission.py:200 | the autopilot's yaw rate equals the performance calculator's turn rate at the same speed and bank |
| MissionProfiles.SegmentStepCompletesIffReached | mission.py:92-244 | every controller keeps its segment's configuration, and the segment is complete after the tick iff it was already or its own condition holds: warm-up over and target altitude reached (WUTO), target altitude reached (CLIMB), a non-zero distance flown (CRUISE), the turn timer at the duration (TURN), at or below the target (DESCENT), at or below 10 m (LANDING) |
| MissionProfiles.SegmentStepThrottleInRange | mission.py:119-244 | every controller keeps the throttle in [0, 1] |
| MissionProfiles.TurnStepYawsRight | mission.py:182-206 | with a positive speed and dt the yaw grows on every tick; the bank is 30 degrees while the timer is below the duration and 0 once it reaches it |
| MissionProfiles.LandingStepStops | mission.py:229-244 | the tick that completes the landing leaves throttle 0 and velocity zero; until then the velocity is untouched and the nose is 0.1 rad down |
| MissionProfiles.PitchStepsTowardTarget | mission.py:138-148 | below its target the climb closes the pitch error by exactly 0.5 dt when the error is at least that; above its target the descent never raises the nose |
| MissionProfiles.MissionProfile.constructor | mission.py:23-66 | the default mission with the cursor at 0, clock 0, display on, empty profile, invariant established |
| MissionProfiles.MissionProfile.Update | mission.py:68-90 | nothing changes once complete; otherwise the segment at the old cursor and the aircraft's throttle, attitude and velocity become that segment's controller step (SegmentStep) and no other segment changes; the cursor advances by exactly 1 iff that segment completed; the clock advances by dt; the distance copies the range; one profile sample (altitude, range, fuel, the segment's name) is appended iff int(time) exceeds the sample count; the phase becomes the segment's name, or COMPLETE when the last segment has just completed; display flag and fuel total unchanged; invariants kept |
| MissionProfiles.MissionProfile.ExecuteSegment | mission.py:92-117 | the current segment and the aircraft's throttle, attitude and velocity become the step of the controller the segment's name selects (SegmentStep); the phase becomes the segment's name and nothing else in the log changes; no other segment changes |
| MissionProfiles.MissionProfile.ExecuteWuto | mission.py:119-130 | segment and controls become WutoStep of the old ones: during the 30 s warm-up throttle 0.3 and progress + dt; afterwards throttle 1.0 and completion once the target altitude is reached |
| MissionProfiles.MissionProfile.ExecuteClimb | mission.py:132-160 | segment and controls become ClimbStep: below the target a pitch step toward the climb target and the climb throttle; at or above it completion and pitch 0 |
| MissionProfiles.MissionProfile.ExecuteCruise | mission.py:162-180 | segment and controls become CruiseStep: altitude-hold pitch, cruise throttle; with a non-zero distance, progress = range and completion once range >= distance |
| MissionProfiles.MissionProfile.ExecuteTurn | mission.py:182-206 | segment and controls become TurnStep: the turn timer grows by dt; altitude-hold pitch, yaw + rate dt, 30 degree bank; completion and wings level once the timer reaches the duration |
| MissionProfiles.MissionProfile.ExecuteDescent | mission.py:208-227 | segment and controls become DescentStep: above the target the descent pitch step and throttle; at or below it completion and pitch 0 |
| MissionProfiles.MissionProfile.ExecuteLanding | mission.py:229-244 | segment and controls become LandingStep: above 10 m nose 0.1 down and the landing throttle; at 10 m completion, throttle 0 and velocity zero |
| MissionProfiles.MissionProfile.RecordProfileData | mission.py:246-257 | appends one sample of altitude, range, fuel and the segment name iff int(time) exceeds the sample count |
| MissionProfiles.MissionProfile.CurrentSegmentName | mission.py:259-263 | the current segment's name, or COMPLETE past the last segment |
| MissionProfiles.MissionProfile.Progress | mission.py:265-269 | 0 for no segments; otherwise percent times count = 100 times the cursor, within [0, 100] |
| MissionProfiles.MissionProfile.ToggleDisplay | mission.py:271-273 | flips the display flag |
| MissionProfiles.MissionProfile.Reset | mission.py:275-296 | cursor, completion flag and totals back to 0; every segment cleared with its configuration kept; empty profile lists |
| MissionProfiles.CompleteNameIffComplete | mission.py:259-263 | the reported name is COMPLETE iff the mission is complete |
| MissionProfiles.FullProgressIffComplete | mission.py:265-269 | progress is 100 percent iff the mission is complete |
| WorldModel.AxisGap | world.py:193-195 | the per-axis gap is non-negative, 0 iff the point is within the interval, and the one-sided difference outside it |
| WorldModel.AtMostOneSideOutside | world.py:185-195 | on a non-empty interval at most one one-sided difference is positive |
| WorldModel.BuildingDistance | world.py:182-197 | non-negative, and its square is the sum of the squared axis gaps |
| WorldModel.GapSqPositiveIffOutside | world.py:185-197 | the squared distance is positive iff the point is outside the closed box |
| WorldModel.DistanceZeroIffInBox | world.py:182-197 | the distance is 0 iff the point lies in the closed box |
| WorldModel.GridIndex | world.py:163-164 | int() of x/50 + 50: the floor for non-negative arguments, 0 on (-1, 1) |
| WorldModel.GridIndexTruncatesTowardZero | world.py:163-164 | just below the grid's lower edge the index is 0 where a floor would give -1 |
| WorldModel.BaseHeight | world.py:166-170 | the height-map value when both indices are in range, otherwise 0 |
| WorldModel.ContributionBounds | world.py:173-177 | a mountain contributes only strictly inside its radius, and a positive-height cone contributes a height in (0, h] |
| WorldModel.FoldAtLeastStart | world.py:173-180 | the mountain fold never falls below its starting height |
| WorldModel.FoldAtLeastEachCone | world.py:173-180 | the fold is at least every contributing cone |
| WorldModel.FoldAttained | world.py:173-180 | the fold is the start height or one contributing cone |
| WorldModel.World.TerrainHeight | world.py:160-180 | the loop computes the mountain fold from the grid-or-zero base |
| WorldModel.World.RaiseByMountain | world.py:173-178 | one pass of the mountain loop raises the height by that mountain's cone and never lowers it |
| WorldModel.TerrainHeightIsMaximum | world.py:160-180 | the terrain height is at least the base and every contributing cone, and equals one of them |
| WorldModel.DriftCloud | world.py:241-244 | x at most 3500 after the drift, wrapped to -3500 past 3500; y, z, size and speed unchanged |
| WorldModel.DriftKeepsCloudInBand | world.py:241-244 | a cloud drifting forward from x >= -3500 stays within [-3500, 3500] |
| WorldModel.World.constructor | world.py:42-58 | the given height map, buildings, mountains and clouds |
| WorldModel.World.Update | world.py:238-244 | every cloud is replaced by its drift, so every x is at most 3500 |
| Simulator.Alert | main.py:100-118 | critical iff AGL < 30 or a building closer than 30; caution iff not critical and AGL < 100 or a building closer than 100; clear otherwise |
| Simulator.ImpactIsCritical | main.py:104-110 | every impact (AGL <= 5 or a building within 10) lies in the critical band |
| Simulator.AlertMonotone | main.py:104-118 | flying lower or closer never lowers the alert |
| Simulator.NearestDistanceIsMinimum | main.py:92-98 | +infinity iff there are no buildings; otherwise at most every building's distance and equal to one of them |
| Simulator.NearestBuildingDistance | main.py:92-98 | the loop computes the running minimum over the buildings from +infinity |
| Simulator.CameraMode.Next | main.py:122-124 | a switch always changes the mode |
| Simulator.FourSwitchesCycle | main.py:122-124 | four switches return to the starting mode and two or three do not |
| Simulator.InitialOffsetNotRestored | main.py:35 | the starting camera offset is no mode's offset |
| Simulator.FlightSimulator.constructor | main.py:16-47 | third-person camera with the starting offset, running, not paused, not crashed, no warning, debug on |
| Simulator.FlightSimulator.Update | main.py:193-210 | nothing changes while paused or crashed; otherwise clouds drift and the mission and aircraft clocks advance; a crash is never undone by a tick |
| Simulator.FlightSimulator.CheckCollisions | main.py:81-118 | warning iff not clear; the timer grows by dt while warned and is 0 when clear; crashed iff it was or an impact occurs, which stops the aircraft |
| Simulator.FlightSimulator.ApplyAlert | main.py:100-118 | the banding for given AGL and nearest distance, keeping timer == 0 whenever there is no warning; a new crash always raises the warning |
| Simulator.FlightSimulator.ResetSimulation | main.py:73-79 | aircraft at its initial state; mission cursor, completion flag, clock, distance and fuel total at 0, every segment cleared with its configuration kept, empty profile; crash, warning and timer cleared |
| Simulator.FlightSimulator.CycleCameraMode | main.py:120-134 | the next mode, with that mode's offset |
| Simulator.FlightSimulator.HandleEvent | main.py:52-71 | quit and Escape stop the loop; P, D and M toggle pause, debug and display; C cycles the camera mode and sets the offset to the new mode's; R after a crash leaves exactly what a reset leaves (`WasReset`); every other event leaves the crash flag, warning, aircraft and the mission's segments, cursor, clocks, totals and profile unchanged (`FlightStateUnchanged`) |

## Left out

- Air pressure and density by the ISA (`get_pressure`, `get_density`): they need `**` with a real exponent and `exp`, whose values are not modelled.
- The numeric values of `sqrt`, `exp`, `sin`, `cos` and `tan`: they are parameters with the listed facts only.
- Floating-point rounding, NaN and overflow: floats are reals.
- `FuelFlow`, `Range` and `ReserveFuel` are single products and carry no contract of their own; `ReserveOfEndurance` and `RangeIsSpeedTimesEndurance` state their meaning.
- Loading the aircraft data from a JSON file: the model uses the built-in defaults.
- The random generation of terrain, buildings, trees, mountains and clouds: the generated world is given to the `World` constructor. Trees are not used by any core operation.
- Rendering, `project_3d_to_2d`, `rotate_vector`, `update_camera`, the HUD and its Tab toggle (the Tab key is accepted and does nothing in the model).
- Event polling, the pygame clock and the run loop: `HandleEvent` takes one event, and `Update` takes dt and the key state as parameters.
- A negative dt: every tick requires dt >= 0, as the clock-driven source always supplies.
- The unused `weight` local in `update_physics` and the parameters of the performance functions that the formulas never read.
- `totalFuelConsumed` is carried and reset, but the source never updates it during a mission, so no property is stated about it.
- `AircraftDynamics.Aircraft.Update` states the key commands, the speed limit, the fuel, the clock and the log length; the exact new position and velocity are stated only by `UpdatePhysics`.
- `MissionProfiles.TurnYawRate` requires a non-zero target speed: the source divides by it, and the configured turn speed is 180 m/s.
- `MissionProfiles.SegmentStep` and `MissionProfiles.TurnStep` require a turn segment to have a duration and a non-zero target speed: without them the source would raise a TypeError or a ZeroDivisionError, and the default turn segment has 120 s and 180 m/s.
- `MissionProfiles.MissionProfile.ExecuteTurn` requires that the current segment is the turn segment, whose duration is set; the dispatch in `ExecuteSegment` guarantees this.
- `MissionProfiles.MissionProfile.Valid` is the profile's own invariant; the aircraft's invariant is required and ensured alongside it.
- `Simulator.FlightSimulator.Valid` does not include "crashed implies warning": after a reset by R the two are cleared together. `ApplyAlert` instead ensures that a new crash raises the warning.
- `Simulator.FlightSimulator.Update` states the cloud drift, the clocks and crash stickiness; the new aircraft and mission state are stated by `Aircraft.Update`, `MissionProfile.Update` and `CheckCollisions`.
