/**
 * The ROI engine: from a validated fleet profile to a five-year projection
 * of the savings of retreaded tyres, their CO2 reduction, the return on the
 * initial investment, the cost per kilometre and the payback period.
 *
 * Every quantity is an exact real; each output field is rounded as the
 * source rounds it (`Math.round`, `Math.ceil`, `parseFloat(x.toFixed(n))`).
 */
module RoiEngine {
  import opened Wrappers
  import opened JsMath
  import opened Schema

  /** The constants of one vehicle type. */
  datatype VehicleProfile = VehicleProfile(baseCost: real, savings: real, co2Factor: real)

  /** The table of vehicle profiles. */
  function VehicleMultiplier(v: VehicleType): (p: VehicleProfile)
    ensures p.baseCost > 0.0 && 0.0 < p.savings < 1.0 && p.co2Factor > 0.0
  {
    match v
    case HeavyTruck => VehicleProfile(450.0, 0.35, 2.8)
    case MediumTruck => VehicleProfile(320.0, 0.32, 2.2)
    case LightUtility => VehicleProfile(180.0, 0.28, 1.6)
    case Bus => VehicleProfile(520.0, 0.38, 3.2)
  }

  const TiresPerVehiclePerYear := 4.0
  const InvestmentPerVehicle := 1500.0
  const TireEfficiency := 0.8
  const PaybackCapMonths := 60

  datatype SavingsBreakdown = SavingsBreakdown(year1: int, year2: int, year3: int, year4: int, year5: int)

  datatype RoiResult = RoiResult(
    annualSavings: int,
    fiveYearSavings: int,
    co2Reduction: real,
    roi: real,
    costPerKm: real,
    paybackPeriod: int,
    savingsBreakdown: SavingsBreakdown)

  // ----- The unrounded quantities, one per constant of the computation -----

  /** A new tyre costs the retreading cost divided by the savings ratio; the saving is the difference. */
  function SavingsPerTire(p: VehicleProfile): real
    requires p.savings != 0.0
  {
    var newTireCost := p.baseCost / p.savings;
    newTireCost - p.baseCost
  }

  function TotalTiresPerYear(input: RoiInput): real {
    input.fleetSize * TiresPerVehiclePerYear
  }

  function AnnualSavingsRaw(input: RoiInput): real {
    TotalTiresPerYear(input) * SavingsPerTire(VehicleMultiplier(input.vehicleType))
  }

  function FiveYearSavingsRaw(input: RoiInput): real {
    AnnualSavingsRaw(input) * 5.0
  }

  /** Tonnes of CO2 a year: kilograms per tyre times tyres, over 1000. */
  function Co2ReductionRaw(input: RoiInput): real {
    TotalTiresPerYear(input) * VehicleMultiplier(input.vehicleType).co2Factor / 1000.0
  }

  function InitialInvestment(input: RoiInput): real {
    input.fleetSize * InvestmentPerVehicle
  }

  function RoiRaw(input: RoiInput): real
    requires input.fleetSize != 0.0
  {
    ((FiveYearSavingsRaw(input) - InitialInvestment(input)) / InitialInvestment(input)) * 100.0
  }

  function CostPerKmRaw(input: RoiInput): real
    requires input.annualKilometers != 0.0
  {
    VehicleMultiplier(input.vehicleType).baseCost / (input.annualKilometers * TireEfficiency)
  }

  function PaybackRaw(input: RoiInput): real
    requires input.fleetSize != 0.0
  {
    AnnualSavingsNonZero(input);
    (InitialInvestment(input) / AnnualSavingsRaw(input)) * 12.0
  }

  lemma AnnualSavingsNonZero(input: RoiInput)
    requires input.fleetSize != 0.0
    ensures AnnualSavingsRaw(input) != 0.0
    ensures input.fleetSize > 0.0 ==> AnnualSavingsRaw(input) > 0.0
  {
    AnnualSavingsScalesWithFleet(input);
  }

  /**
   * `calculateROI`. Each output is rounded from the unrounded value, so the
   * first and fifth years of the breakdown are the annual and five-year
   * savings, and the payback period never exceeds its cap.
   */
  function CalculateRoi(input: RoiInput): (r: RoiResult)
    requires input.fleetSize != 0.0 && input.annualKilometers != 0.0
    ensures r.paybackPeriod <= PaybackCapMonths
    ensures r.savingsBreakdown.year1 == r.annualSavings
    ensures r.savingsBreakdown.year5 == r.fiveYearSavings
  {
    var annualSavings := AnnualSavingsRaw(input);
    var payback := Ceil(PaybackRaw(input));
    RoiResult(
      annualSavings := Round(annualSavings),
      fiveYearSavings := Round(FiveYearSavingsRaw(input)),
      co2Reduction := ToFixed(Co2ReductionRaw(input), 2),
      roi := ToFixed(RoiRaw(input), 2),
      costPerKm := ToFixed(CostPerKmRaw(input), 3),
      paybackPeriod := if payback < PaybackCapMonths then payback else PaybackCapMonths,
      savingsBreakdown := SavingsBreakdown(
        Round(annualSavings),
        Round(annualSavings * 2.0),
        Round(annualSavings * 3.0),
        Round(annualSavings * 4.0),
        Round(annualSavings * 5.0)))
  }

  /** The request handler's path: parse the body, then compute. */
  function ParseAndCalculate(req: RoiRequest): (r: Result<RoiResult, seq<Issue>>)
    ensures r.Success? <==> ValidRequest(req)
    ensures r.Failure? ==> r.error == Issues(req) && r.error != []
    ensures r.Success? ==> ParseVehicleType(req.vehicleType).Some? && r.value == CalculateRoi(RoiInput(
      req.fleetSize, req.annualKilometers, ParseVehicleType(req.vehicleType).value, req.fuelPrice, req.companyId))
  {
    match Parse(req)
    case Success(input) => Success(CalculateRoi(input))
    case Failure(issues) => Failure(issues)
  }

  // ----- Properties of the engine -----

  /** The annual saving of one vehicle, worked out by hand from the table: 4 * (baseCost / savings - baseCost). */
  function AnnualSavingsPerVehicle(v: VehicleType): (r: real)
    ensures r > 1851.0
  {
    match v
    case HeavyTruck => 23400.0 / 7.0
    case MediumTruck => 2720.0
    case LightUtility => 12960.0 / 7.0
    case Bus => 64480.0 / 19.0
  }

  /** Unrounded savings are the fleet size times a per-vehicle constant of the table. */
  lemma AnnualSavingsScalesWithFleet(input: RoiInput)
    ensures AnnualSavingsRaw(input) == input.fleetSize * AnnualSavingsPerVehicle(input.vehicleType)
    ensures FiveYearSavingsRaw(input) == input.fleetSize * 5.0 * AnnualSavingsPerVehicle(input.vehicleType)
  {
    var v := input.vehicleType;
    assert SavingsPerTire(VehicleMultiplier(v)) * 4.0 == AnnualSavingsPerVehicle(v);
  }

  lemma CancelFactor(f: real, x: real, y: real)
    requires f != 0.0 && y != 0.0
    ensures (f * x) / (f * y) == x / y
  {
    var q := x / y;
    assert q * y == x;
    assert (f * y) * q == f * x;
  }

  /**
   * Savings and investment both scale with the fleet size, so the unrounded
   * ROI and payback depend on the vehicle type alone.
   */
  lemma RoiAndPaybackPerVehicle(input: RoiInput)
    requires input.fleetSize != 0.0
    ensures RoiRaw(input) == ((5.0 * AnnualSavingsPerVehicle(input.vehicleType) - 1500.0) / 1500.0) * 100.0
    ensures PaybackRaw(input) == (1500.0 / AnnualSavingsPerVehicle(input.vehicleType)) * 12.0
  {
    var f := input.fleetSize;
    var a := AnnualSavingsPerVehicle(input.vehicleType);
    AnnualSavingsScalesWithFleet(input);
    assert FiveYearSavingsRaw(input) - InitialInvestment(input) == f * (5.0 * a - 1500.0);
    CancelFactor(f, 5.0 * a - 1500.0, 1500.0);
    CancelFactor(f, 1500.0, a);
  }

  /** `roi` and `paybackPeriod` are the same for every fleet of one vehicle type. */
  lemma RoiAndPaybackIndependentOfFleet(a: RoiInput, b: RoiInput)
    requires a.fleetSize != 0.0 && a.annualKilometers != 0.0
    requires b.fleetSize != 0.0 && b.annualKilometers != 0.0
    requires a.vehicleType == b.vehicleType
    ensures CalculateRoi(a).roi == CalculateRoi(b).roi
    ensures CalculateRoi(a).paybackPeriod == CalculateRoi(b).paybackPeriod
  {
    RoiAndPaybackPerVehicle(a);
    RoiAndPaybackPerVehicle(b);
  }

  /** The ROI and the payback of each vehicle type: always a positive return, paid back in 6 to 10 months. */
  lemma RoiAndPaybackByVehicleType(input: RoiInput)
    requires input.fleetSize != 0.0 && input.annualKilometers != 0.0
    ensures CalculateRoi(input).roi > 0.0
    ensures CalculateRoi(input).roi == match input.vehicleType
      case HeavyTruck => 1014.29
      case MediumTruck => 806.67
      case LightUtility => 517.14
      case Bus => 1031.23
    ensures CalculateRoi(input).paybackPeriod == match input.vehicleType
      case HeavyTruck => 6
      case MediumTruck => 7
      case LightUtility => 10
      case Bus => 6
  {
    RoiAndPaybackPerVehicle(input);
    assert Pow10(2) == 100;
  }

  /** The breakdown is positive and never decreases from one year to the next. */
  lemma BreakdownPositiveAndNondecreasing(input: RoiInput)
    requires InRange(input)
    ensures var b := CalculateRoi(input).savingsBreakdown;
      0 < b.year1 <= b.year2 <= b.year3 <= b.year4 <= b.year5
  {
    var a := AnnualSavingsRaw(input);
    AnnualSavingsScalesWithFleet(input);
    assert a >= AnnualSavingsPerVehicle(input.vehicleType) > 1851.0;
    RoundMonotone(a, a * 2.0);
    RoundMonotone(a * 2.0, a * 3.0);
    RoundMonotone(a * 3.0, a * 4.0);
    RoundMonotone(a * 4.0, a * 5.0);
  }

  /** One more vehicle of the same type always adds to the rounded annual and five-year savings. */
  lemma SavingsGrowWithFleet(a: RoiInput, b: RoiInput)
    requires a.fleetSize != 0.0 && a.annualKilometers != 0.0
    requires b.fleetSize != 0.0 && b.annualKilometers != 0.0
    requires a.vehicleType == b.vehicleType && b.fleetSize >= a.fleetSize + 1.0
    ensures CalculateRoi(a).annualSavings < CalculateRoi(b).annualSavings
    ensures CalculateRoi(a).fiveYearSavings < CalculateRoi(b).fiveYearSavings
  {
    var p := AnnualSavingsPerVehicle(a.vehicleType);
    AnnualSavingsScalesWithFleet(a);
    AnnualSavingsScalesWithFleet(b);
    ScaleMonotone(a.fleetSize + 1.0, b.fleetSize, p);
    var x := AnnualSavingsRaw(a);
    var y := AnnualSavingsRaw(b);
    assert x + p <= y;
    RoundStrictlyMonotone(x, y);
    RoundStrictlyMonotone(x * 5.0, y * 5.0);
  }

  lemma ScaleMonotone(x: real, y: real, k: real)
    requires x <= y && 0.0 <= k
    ensures x * k <= y * k
  {
  }

  /** A larger fleet never lowers the rounded CO2 reduction. */
  lemma Co2NondecreasingWithFleet(a: RoiInput, b: RoiInput)
    requires a.fleetSize != 0.0 && a.annualKilometers != 0.0
    requires b.fleetSize != 0.0 && b.annualKilometers != 0.0
    requires a.vehicleType == b.vehicleType && a.fleetSize <= b.fleetSize
    ensures CalculateRoi(a).co2Reduction <= CalculateRoi(b).co2Reduction
  {
    var c := VehicleMultiplier(a.vehicleType).co2Factor;
    assert Co2ReductionRaw(a) == a.fleetSize * (4.0 * c / 1000.0);
    assert Co2ReductionRaw(b) == b.fleetSize * (4.0 * c / 1000.0);
    ToFixedTwoDecimalsMonotone(Co2ReductionRaw(a), Co2ReductionRaw(b));
  }

  /**
   * Rounding to hundredths of a tonne can hide a vehicle: one and two light
   * utility vehicles both reduce CO2 by 0.01 t a year.
   */
  lemma Co2RoundingHidesOneVehicle()
    ensures CalculateRoi(RoiInput(1.0, 10000.0, LightUtility, 1.0, None)).co2Reduction == 0.01
    ensures CalculateRoi(RoiInput(2.0, 10000.0, LightUtility, 1.0, None)).co2Reduction == 0.01
  {
    var one := RoiInput(1.0, 10000.0, LightUtility, 1.0, None);
    var two := RoiInput(2.0, 10000.0, LightUtility, 1.0, None);
    assert Co2ReductionRaw(one) == 0.0064;
    assert Co2ReductionRaw(two) == 0.0128;
    assert Pow10(2) == 100;
    assert RoundHalfAway(0.64) == 1;
    assert RoundHalfAway(1.28) == 1;
  }

  /** `co2Reduction` depends on the fleet size and the vehicle type only. */
  lemma Co2IgnoresDistanceAndFuel(a: RoiInput, b: RoiInput)
    requires a.fleetSize != 0.0 && a.annualKilometers != 0.0
    requires b.fleetSize != 0.0 && b.annualKilometers != 0.0
    requires a.fleetSize == b.fleetSize && a.vehicleType == b.vehicleType
    ensures CalculateRoi(a).co2Reduction == CalculateRoi(b).co2Reduction
  {
    assert TotalTiresPerYear(a) == TotalTiresPerYear(b);
    assert Co2ReductionRaw(a) == Co2ReductionRaw(b);
  }

  /** `costPerKm` is the retreading cost over 80% of the distance, whatever the fleet size and fuel price. */
  lemma CostPerKmIgnoresFleetAndFuel(a: RoiInput, b: RoiInput)
    requires a.fleetSize != 0.0 && a.annualKilometers != 0.0
    requires b.fleetSize != 0.0 && b.annualKilometers != 0.0
    requires a.annualKilometers == b.annualKilometers && a.vehicleType == b.vehicleType
    ensures CalculateRoi(a).costPerKm == CalculateRoi(b).costPerKm
    ensures -0.0005 <= CalculateRoi(a).costPerKm
                       - VehicleMultiplier(a.vehicleType).baseCost / (a.annualKilometers * 0.8) <= 0.0005
  {
    ToFixedThreeDecimals(CostPerKmRaw(a));
  }

  /** The fuel price is validated but never read: the projection does not depend on it. */
  lemma FuelPriceNeverRead(input: RoiInput, fuelPrice: real, companyId: Option<string>)
    requires input.fleetSize != 0.0 && input.annualKilometers != 0.0
    ensures CalculateRoi(input.(fuelPrice := fuelPrice, companyId := companyId)) == CalculateRoi(input)
  {
    var other := input.(fuelPrice := fuelPrice, companyId := companyId);
    assert AnnualSavingsRaw(other) == AnnualSavingsRaw(input);
    assert FiveYearSavingsRaw(other) == FiveYearSavingsRaw(input);
    assert Co2ReductionRaw(other) == Co2ReductionRaw(input);
    assert RoiRaw(other) == RoiRaw(input);
    assert CostPerKmRaw(other) == CostPerKmRaw(input);
    assert PaybackRaw(other) == PaybackRaw(input);
  }

  /** The sample fleet: 87 heavy trucks driving 120000 km a year. */
  lemma SampleFleet()
    ensures CalculateRoi(RoiInput(87.0, 120000.0, HeavyTruck, 1.55, None))
      == RoiResult(290829, 1454143, 0.97, 1014.29, 0.005, 6,
                   SavingsBreakdown(290829, 581657, 872486, 1163314, 1454143))
  {
    var input := RoiInput(87.0, 120000.0, HeavyTruck, 1.55, None);
    AnnualSavingsScalesWithFleet(input);
    RoiAndPaybackByVehicleType(input);
    var annual := AnnualSavingsRaw(input);
    assert annual == 2035800.0 / 7.0;
    assert Round(annual) == 290829;
    assert Round(annual * 2.0) == 581657;
    assert Round(annual * 3.0) == 872486;
    assert Round(annual * 4.0) == 1163314;
    assert Round(annual * 5.0) == 1454143;
    assert Pow10(2) == 100;
    assert Pow10(3) == 1000;
    assert Co2ReductionRaw(input) == 0.9744;
    assert RoundHalfAway(97.44) == 97;
    assert CostPerKmRaw(input) == 0.0046875;
    assert RoundHalfAway(4.6875) == 5;
  }
}
