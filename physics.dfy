/** The physics helpers of the simulator: the International Standard
    Atmosphere temperature profile, the performance calculator with its
    guard branches, the flight-envelope classifiers and the fuel
    calculator. Every helper is a pure static method in the source, so every
    one is a function here. */
module Physics {
  import opened Numerics

  // ---------------------------------------------------------------------
  // AtmosphereISA
  // ---------------------------------------------------------------------

  const SEA_LEVEL_TEMP: real := 288.15
  const TEMP_LAPSE_RATE: real := -0.0065
  const GAS_CONSTANT: real := 287.05
  const TROPOPAUSE: real := 11000.0
  const STRATOSPHERE_TEMP: real := 216.65
  const HEAT_CAPACITY_RATIO: real := 1.4

  /** Temperature in kelvin at an altitude in metres: a linear lapse in the
      troposphere and a constant temperature from the tropopause up. */
  function Temperature(altitude: real): (t: real)
    ensures altitude < TROPOPAUSE ==> t == SEA_LEVEL_TEMP - 0.0065 * altitude
    ensures TROPOPAUSE <= altitude ==> t == STRATOSPHERE_TEMP
    ensures STRATOSPHERE_TEMP <= t
    ensures altitude < TROPOPAUSE ==> STRATOSPHERE_TEMP < t
  {
    if altitude < TROPOPAUSE then SEA_LEVEL_TEMP + TEMP_LAPSE_RATE * altitude
    else STRATOSPHERE_TEMP
  }

  /** Climbing never warms the air, and the two branches of the profile
      meet at the tropopause. */
  lemma TemperatureNonIncreasing(low: real, high: real)
    requires low <= high
    ensures Temperature(high) <= Temperature(low)
    ensures Temperature(low) == Temperature(high) <==> low == high || TROPOPAUSE <= low
  {
    if low < TROPOPAUSE && TROPOPAUSE <= high {
      assert STRATOSPHERE_TEMP < Temperature(low);
    }
  }

  /** Speed of sound, sqrt(gamma * R * T). */
  function SpeedOfSound(m: MathLib, altitude: real): (c: real)
    requires m.Valid()
    ensures 0.0 < c
    ensures c * c == HEAT_CAPACITY_RATIO * GAS_CONSTANT * Temperature(altitude)
  {
    var x := HEAT_CAPACITY_RATIO * GAS_CONSTANT * Temperature(altitude);
    SqrtZeroIff(m, x);
    m.sqrt(x)
  }

  // ---------------------------------------------------------------------
  // PerformanceCalculator
  // ---------------------------------------------------------------------

  /** How a result of the performance calculator can fail to be a real
      number on the inputs its guards let through: the two exceptions that
      Python's math module and float division raise, and the complex number
      that Python 3 returns, without raising, for a negative float raised
      to 0.25. */
  datatype PythonError =
    | MathDomainError      // math.sqrt of a negative number raises
    | ZeroDivisionError    // float division by 0.0 raises
    | ComplexResult        // a complex number is returned, nothing is raised

  datatype Outcome = Ok(value: real) | Fails(error: PythonError)

  /** Distance flown per unit of fuel, or 0 when there is no fuel flow. */
  function SpecificRange(velocity: real, fuelFlow: real, weight: real): (r: real)
    ensures fuelFlow <= 0.0 ==> r == 0.0
    ensures 0.0 < fuelFlow ==> r * fuelFlow == velocity
  {
    if 0.0 < fuelFlow then velocity / fuelFlow else 0.0
  }

  /** Time flown per unit of fuel, or 0 when there is no fuel flow. */
  function SpecificEndurance(fuelFlow: real, weight: real): (r: real)
    ensures fuelFlow <= 0.0 ==> r == 0.0
    ensures 0.0 < fuelFlow ==> 0.0 < r && r * fuelFlow == 1.0
  {
    if 0.0 < fuelFlow then 1.0 / fuelFlow else 0.0
  }

  /** Specific excess power (T - D) * V / W, or 0 for a weightless aircraft. */
  function SpecificExcessPower(thrust: real, drag: real, weight: real, velocity: real): (ps: real)
    ensures weight <= 0.0 ==> ps == 0.0
    ensures 0.0 < weight ==> ps * weight == (thrust - drag) * velocity
  {
    if 0.0 < weight then (thrust - drag) * velocity / weight else 0.0
  }

  /** In forward flight the aircraft can climb or accelerate exactly when
      thrust exceeds drag. */
  lemma ExcessPowerSign(thrust: real, drag: real, weight: real, velocity: real)
    requires 0.0 < weight && 0.0 < velocity
    ensures 0.0 < SpecificExcessPower(thrust, drag, weight, velocity) <==> drag < thrust
    ensures SpecificExcessPower(thrust, drag, weight, velocity) < 0.0 <==> thrust < drag
  {
    var ps := SpecificExcessPower(thrust, drag, weight, velocity);
    var surplus := thrust - drag;
    assert ps * weight == surplus * velocity;
    if 0.0 < surplus {
      ProductPositive(surplus, velocity);
      QuotientSign(ps, weight);
    } else if surplus < 0.0 {
      ProductPositive(-surplus, velocity);
      assert (-surplus) * velocity == -(surplus * velocity);
      QuotientSign(ps, weight);
    } else {
      assert ps * weight == 0.0;
      QuotientSign(ps, weight);
    }
  }

  /** Turn radius V^2 / (g tan(bank)); wings level means an infinite radius. */
  function TurnRadius(m: MathLib, velocity: real, bankAngle: real): (r: Extended)
    requires m.Valid()
    ensures r.PosInf? <==> bankAngle == 0.0
    ensures r.Finite? ==> r.value * (9.81 * m.tan(bankAngle)) == velocity * velocity
  {
    if bankAngle != 0.0 then
      var denominator := 9.81 * m.tan(bankAngle);
      assert m.tan(bankAngle) != 0.0;
      NonZeroProduct(9.81, m.tan(bankAngle));
      Finite(velocity * velocity / denominator)
    else PosInf
  }

  /** Turn rate g tan(bank) / V in radians per second; 0 when not moving
      forward. */
  function TurnRate(m: MathLib, velocity: real, bankAngle: real): (omega: real)
    ensures velocity <= 0.0 ==> omega == 0.0
    ensures 0.0 < velocity ==> omega * velocity == 9.81 * m.tan(bankAngle)
  {
    if 0.0 < velocity then 9.81 * m.tan(bankAngle) / velocity else 0.0
  }

  /** In a banked turn, rate times radius is the airspeed. */
  lemma TurnRateTimesRadius(m: MathLib, velocity: real, bankAngle: real)
    requires m.Valid() && 0.0 < velocity && bankAngle != 0.0
    ensures TurnRate(m, velocity, bankAngle) * TurnRadius(m, velocity, bankAngle).value == velocity
  {
    var omega := TurnRate(m, velocity, bankAngle);
    var radius := TurnRadius(m, velocity, bankAngle).value;
    var lift := 9.81 * m.tan(bankAngle);
    assert omega * velocity == lift;
    assert radius * lift == velocity * velocity;
    NonZeroProduct(9.81, m.tan(bankAngle));
    calc {
      (omega * radius) * lift;
      == { MulAssoc(omega, radius, lift); }
      omega * (radius * lift);
      ==
      omega * (velocity * velocity);
      == { MulAssoc(omega, velocity, velocity); }
      (omega * velocity) * velocity;
      ==
      lift * velocity;
      == { MulComm(lift, velocity); }
      velocity * lift;
    }
    CancelFactor(omega * radius, velocity, lift);
  }

  /** Load factor 1 / cos(bank). */
  function LoadFactor(m: MathLib, bankAngle: real): (n: real)
    requires m.Valid()
    ensures n * m.cos(bankAngle) == 1.0
  {
    assert m.cos(bankAngle) != 0.0;
    1.0 / m.cos(bankAngle)
  }

  /** The guard shared by the best-climb, best-range and best-endurance
      speeds. */
  predicate SpeedGuard(airDensity: real, wingArea: real, cd0: real) {
    0.0 < airDensity && 0.0 < wingArea && 0.0 < cd0
  }

  /** Python's math.sqrt: a domain error on a negative argument. */
  function CheckedSqrt(m: MathLib, x: real): (r: Outcome)
    requires m.Valid()
    ensures x < 0.0 <==> r == Fails(MathDomainError)
    ensures 0.0 <= x ==> r.Ok? && 0.0 <= r.value && r.value * r.value == x
  {
    if x < 0.0 then Fails(MathDomainError) else Ok(m.sqrt(x))
  }

  /** Python's float division: ZeroDivisionError on a zero divisor. */
  function CheckedDiv(a: real, b: real): (r: Outcome)
    ensures b == 0.0 <==> r == Fails(ZeroDivisionError)
    ensures b != 0.0 ==> r.Ok? && r.value * b == a
  {
    if b == 0.0 then Fails(ZeroDivisionError) else Ok(a / b)
  }

  /** Stall speed sqrt(2W / (rho S CLmax)), or 0 when density, wing area or
      CLmax is not positive. */
  function StallSpeed(m: MathLib, weight: real, airDensity: real, wingArea: real, clMax: real): (r: Outcome)
    requires m.Valid()
    ensures !(0.0 < airDensity && 0.0 < wingArea && 0.0 < clMax) ==> r == Ok(0.0)
    ensures 0.0 < airDensity && 0.0 < wingArea && 0.0 < clMax ==>
      (r.Fails? <==> weight < 0.0) &&
      (r.Ok? ==> 0.0 <= r.value && r.value * r.value * (airDensity * wingArea * clMax) == 2.0 * weight)
  {
    if 0.0 < airDensity && 0.0 < wingArea && 0.0 < clMax then
      var denominator := airDensity * wingArea * clMax;
      ProductPositive(airDensity, wingArea);
      ProductPositive(airDensity * wingArea, clMax);
      var q := 2.0 * weight / denominator;
      QuotientSign(q, denominator);
      CheckedSqrt(m, q)
    else Ok(0.0)
  }

  /** Python's x ** 0.25 on a float: the real fourth root of a non-negative
      number and a complex number for a negative one. */
  function FourthRoot(m: MathLib, x: real): (r: Outcome)
    requires m.Valid()
    ensures x < 0.0 <==> r == Fails(ComplexResult)
    ensures 0.0 <= x ==> r.Ok? && 0.0 <= r.value && r.value * r.value * (r.value * r.value) == x
  {
    if x < 0.0 then Fails(ComplexResult) else Ok(m.sqrt(m.sqrt(x)))
  }

  /** Best-climb speed sqrt(2W / (rho S)) * (K / CD0) ** 0.25. */
  function BestClimbSpeed(m: MathLib, weight: real, airDensity: real, wingArea: real, cd0: real, k: real): (r: Outcome)
    requires m.Valid()
    ensures !SpeedGuard(airDensity, wingArea, cd0) ==> r == Ok(0.0)
    ensures SpeedGuard(airDensity, wingArea, cd0) ==>
      (weight < 0.0 <==> r == Fails(MathDomainError)) &&
      (0.0 <= weight && k < 0.0 <==> r == Fails(ComplexResult)) &&
      (0.0 <= weight && 0.0 <= k <==> r.Ok?)
    ensures r.Ok? ==> 0.0 <= r.value
  {
    if SpeedGuard(airDensity, wingArea, cd0) then
      var denominator := airDensity * wingArea;
      ProductPositive(airDensity, wingArea);
      var q := 2.0 * weight / denominator;
      QuotientSign(q, denominator);
      QuotientSign(k / cd0, cd0);
      match CheckedSqrt(m, q)
      case Fails(e) => Fails(e)
      case Ok(vTerm) =>
        match FourthRoot(m, k / cd0)
        case Fails(e) => Fails(e)
        case Ok(efficiency) =>
          assert 0.0 <= vTerm * efficiency by { ProductNonNegative(vTerm, efficiency); }
          Ok(vTerm * efficiency)
    else Ok(0.0)
  }

  /** sqrt(2W / (rho S sqrt(factor * CD0 * K))), the shape shared by the
      best-range (factor 1) and best-endurance (factor 3) speeds. The inner
      square root fails for K < 0, the division for K == 0 and the outer
      square root for W < 0. */
  function OptimalSpeed(m: MathLib, factor: real, weight: real, airDensity: real, wingArea: real, cd0: real, k: real): (r: Outcome)
    requires m.Valid() && 0.0 < factor
    ensures !SpeedGuard(airDensity, wingArea, cd0) ==> r == Ok(0.0)
    ensures SpeedGuard(airDensity, wingArea, cd0) && k < 0.0 ==> r == Fails(MathDomainError)
    ensures SpeedGuard(airDensity, wingArea, cd0) && k == 0.0 ==> r == Fails(ZeroDivisionError)
    ensures SpeedGuard(airDensity, wingArea, cd0) && 0.0 < k ==> (r == Fails(MathDomainError) <==> weight < 0.0)
    ensures SpeedGuard(airDensity, wingArea, cd0) ==> (r.Ok? <==> 0.0 < k && 0.0 <= weight)
    ensures SpeedGuard(airDensity, wingArea, cd0) && r.Ok? ==>
      0.0 <= r.value &&
      r.value * r.value * (airDensity * wingArea * m.sqrt(factor * cd0 * k)) == 2.0 * weight
  {
    if SpeedGuard(airDensity, wingArea, cd0) then
      ProductPositive(factor, cd0);
      QuotientSign(k, factor * cd0);
      match CheckedSqrt(m, factor * cd0 * k)
      case Fails(e) => Fails(e)
      case Ok(root) =>
        var denominator := airDensity * wingArea * root;
        ProductPositive(airDensity, wingArea);
        if root == 0.0 then
          assert denominator == 0.0;
          Fails(ZeroDivisionError)
        else
          assert 0.0 < k by {
            SqrtZeroIff(m, factor * cd0 * k);
          }
          ProductPositive(factor * cd0, k);
          SqrtZeroIff(m, factor * cd0 * k);
          ProductPositive(airDensity * wingArea, root);
          var q := 2.0 * weight / denominator;
          QuotientSign(q, denominator);
          CheckedSqrt(m, q)
    else Ok(0.0)
  }

  /** Best-range speed, sqrt(2W / (rho S sqrt(CD0 K))). */
  function BestRangeSpeed(m: MathLib, weight: real, airDensity: real, wingArea: real, cd0: real, k: real): (r: Outcome)
    requires m.Valid()
    ensures !SpeedGuard(airDensity, wingArea, cd0) ==> r == Ok(0.0)
    ensures SpeedGuard(airDensity, wingArea, cd0) ==> (r.Ok? <==> 0.0 < k && 0.0 <= weight)
    ensures SpeedGuard(airDensity, wingArea, cd0) && r.Ok? ==>
      0.0 <= r.value && r.value * r.value * (airDensity * wingArea * m.sqrt(cd0 * k)) == 2.0 * weight
  {
    assert 1.0 * cd0 * k == cd0 * k;
    OptimalSpeed(m, 1.0, weight, airDensity, wingArea, cd0, k)
  }

  /** Best-endurance speed, sqrt(2W / (rho S sqrt(3 CD0 K))). */
  function BestEnduranceSpeed(m: MathLib, weight: real, airDensity: real, wingArea: real, cd0: real, k: real): (r: Outcome)
    requires m.Valid()
    ensures !SpeedGuard(airDensity, wingArea, cd0) ==> r == Ok(0.0)
    ensures SpeedGuard(airDensity, wingArea, cd0) ==> (r.Ok? <==> 0.0 < k && 0.0 <= weight)
    ensures SpeedGuard(airDensity, wingArea, cd0) && r.Ok? ==>
      0.0 <= r.value && r.value * r.value * (airDensity * wingArea * m.sqrt(3.0 * cd0 * k)) == 2.0 * weight
  {
    OptimalSpeed(m, 3.0, weight, airDensity, wingArea, cd0, k)
  }

  /** Flying for endurance is never faster than flying for range. */
  lemma EnduranceSpeedBelowRangeSpeed(m: MathLib, weight: real, airDensity: real, wingArea: real, cd0: real, k: real)
    requires m.Valid() && SpeedGuard(airDensity, wingArea, cd0) && 0.0 < k && 0.0 <= weight
    ensures BestRangeSpeed(m, weight, airDensity, wingArea, cd0, k).Ok?
    ensures BestEnduranceSpeed(m, weight, airDensity, wingArea, cd0, k).Ok?
    ensures BestEnduranceSpeed(m, weight, airDensity, wingArea, cd0, k).value
         <= BestRangeSpeed(m, weight, airDensity, wingArea, cd0, k).value
  {
    ProductPositive(cd0, k);
    ProductPositive(airDensity, wingArea);
    assert 3.0 * cd0 * k == 3.0 * (cd0 * k);
    SlowerWithLargerRoot(m, BestRangeSpeed(m, weight, airDensity, wingArea, cd0, k).value,
                         BestEnduranceSpeed(m, weight, airDensity, wingArea, cd0, k).value,
                         airDensity * wingArea, cd0 * k, 2.0 * weight);
  }

  /** Two speeds solving v^2 area sqrt(x) = w, for x = ck and x = 3 ck:
      the larger root gives the smaller speed. */
  lemma SlowerWithLargerRoot(m: MathLib, vr: real, ve: real, area: real, ck: real, w: real)
    requires m.Valid() && 0.0 < area && 0.0 < ck && 0.0 <= vr && 0.0 <= ve
    requires vr * vr * (area * m.sqrt(ck)) == w
    requires ve * ve * (area * m.sqrt(3.0 * ck)) == w
    ensures ve <= vr
  {
    SqrtMonotone(m, ck, 3.0 * ck);
    SqrtZeroIff(m, ck);
    ProductPositive(area, m.sqrt(ck));
    ScaleMonotone(m.sqrt(ck), m.sqrt(3.0 * ck), area);
    assert Square(vr) * (area * m.sqrt(ck)) == w;
    assert Square(ve) * (area * m.sqrt(3.0 * ck)) == w;
    SquareBounds(vr);
    ProductOrder(Square(vr), Square(ve), area * m.sqrt(ck), area * m.sqrt(3.0 * ck));
    if vr < ve {
      SquareStrictlyMonotone(vr, ve);
    }
  }

  // ---------------------------------------------------------------------
  // FlightEnvelope
  // ---------------------------------------------------------------------

  /** The status strings the envelope checks return. */
  datatype EnvelopeStatus =
    | Normal
    | StallWarning
    | OverspeedWarning
    | OverGWarning
    | NegativeGWarning
    | CeilingWarning
    | TerrainWarning
  {
    function Label(): string {
      match this
      case Normal => "NORMAL"
      case StallWarning => "STALL_WARNING"
      case OverspeedWarning => "OVERSPEED_WARNING"
      case OverGWarning => "OVER_G_WARNING"
      case NegativeGWarning => "NEGATIVE_G_WARNING"
      case CeilingWarning => "CEILING_WARNING"
      case TerrainWarning => "TERRAIN_WARNING"
    }
  }

  /** Below the minimum speed is a stall warning (checked first), above the
      maximum an overspeed warning. */
  function CheckSpeedLimits(velocity: real, minSpeed: real, maxSpeed: real): (s: EnvelopeStatus)
    ensures s == Normal || s == StallWarning || s == OverspeedWarning
    ensures s == StallWarning <==> velocity < minSpeed
    ensures s == OverspeedWarning <==> minSpeed <= velocity && maxSpeed < velocity
    ensures s == Normal <==> minSpeed <= velocity <= maxSpeed
  {
    if velocity < minSpeed then StallWarning
    else if velocity > maxSpeed then OverspeedWarning
    else Normal
  }

  /** Above the positive limit is an over-g warning (checked first), below
      the negative limit a negative-g warning. */
  function CheckGLimits(loadFactor: real, maxPositiveG: real, maxNegativeG: real): (s: EnvelopeStatus)
    ensures s == Normal || s == OverGWarning || s == NegativeGWarning
    ensures s == OverGWarning <==> maxPositiveG < loadFactor
    ensures s == NegativeGWarning <==> loadFactor <= maxPositiveG && loadFactor < maxNegativeG
    ensures s == Normal <==> maxNegativeG <= loadFactor <= maxPositiveG
  {
    if loadFactor > maxPositiveG then OverGWarning
    else if loadFactor < maxNegativeG then NegativeGWarning
    else Normal
  }

  /** Above the service ceiling is a ceiling warning (checked first), below
      sea level a terrain warning. */
  function CheckAltitudeLimits(altitude: real, serviceCeiling: real): (s: EnvelopeStatus)
    ensures s == Normal || s == CeilingWarning || s == TerrainWarning
    ensures s == CeilingWarning <==> serviceCeiling < altitude
    ensures s == TerrainWarning <==> altitude <= serviceCeiling && altitude < 0.0
    ensures s == Normal <==> 0.0 <= altitude <= serviceCeiling
  {
    if altitude > serviceCeiling then CeilingWarning
    else if altitude < 0.0 then TerrainWarning
    else Normal
  }

  /** The labels of distinct statuses are distinct strings, so a caller
      comparing strings sees the same classification. */
  lemma LabelsDistinct(a: EnvelopeStatus, b: EnvelopeStatus)
    ensures a.Label() == b.Label() <==> a == b
  {
  }

  // ---------------------------------------------------------------------
  // FuelCalculator
  // ---------------------------------------------------------------------

  /** Fuel flow from thrust and thrust-specific fuel consumption. */
  function FuelFlow(thrust: real, tsfc: real): real { thrust * tsfc }

  /** Range from available fuel and specific range. */
  function Range(fuelAvailable: real, specificRange: real): real { fuelAvailable * specificRange }

  /** Endurance: the time the available fuel lasts, or 0 with no fuel flow. */
  function Endurance(fuelAvailable: real, fuelFlow: real): (e: real)
    ensures fuelFlow <= 0.0 ==> e == 0.0
    ensures 0.0 < fuelFlow && 0.0 <= fuelAvailable ==> 0.0 <= e
  {
    if 0.0 < fuelFlow then
      QuotientSign(fuelAvailable / fuelFlow, fuelFlow);
      fuelAvailable / fuelFlow
    else 0.0
  }

  /** Reserve fuel needed to fly for a given time at a given fuel flow. */
  function ReserveFuel(cruiseFuelFlow: real, reserveTime: real): real { cruiseFuelFlow * reserveTime }

  /** The reserve for the endurance of some fuel is exactly that fuel:
      endurance and reserve are inverse to each other. */
  lemma ReserveOfEndurance(fuelAvailable: real, fuelFlow: real)
    requires 0.0 < fuelFlow
    ensures ReserveFuel(fuelFlow, Endurance(fuelAvailable, fuelFlow)) == fuelAvailable
    ensures Endurance(ReserveFuel(fuelFlow, fuelAvailable), fuelFlow) == fuelAvailable
  {
  }

  /** Range from the specific range equals airspeed times endurance. */
  lemma RangeIsSpeedTimesEndurance(fuelAvailable: real, velocity: real, fuelFlow: real, weight: real)
    requires 0.0 < fuelFlow
    ensures Range(fuelAvailable, SpecificRange(velocity, fuelFlow, weight))
         == velocity * Endurance(fuelAvailable, fuelFlow)
  {
    var sr := SpecificRange(velocity, fuelFlow, weight);
    var e := Endurance(fuelAvailable, fuelFlow);
    assert sr * fuelFlow == velocity;
    assert e * fuelFlow == fuelAvailable;
    calc {
      (fuelAvailable * sr) * fuelFlow;
      == { MulAssoc(fuelAvailable, sr, fuelFlow); }
      fuelAvailable * velocity;
      == { MulAssoc(e, fuelFlow, velocity); MulComm(fuelAvailable, velocity); }
      (velocity * e) * fuelFlow;
    }
    CancelFactor(fuelAvailable * sr, velocity * e, fuelFlow);
  }

  /** Endurance from the specific endurance equals fuel times specific
      endurance, so the two endurance formulas of the source agree. */
  lemma EnduranceMatchesSpecificEndurance(fuelAvailable: real, fuelFlow: real, weight: real)
    requires 0.0 < fuelFlow
    ensures Endurance(fuelAvailable, fuelFlow) == fuelAvailable * SpecificEndurance(fuelFlow, weight)
  {
  }
}
