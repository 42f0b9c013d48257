/**
 * The shared data model: the three stored entities, the records their insert
 * schemas accept, and the validation schema of an ROI request.
 */
module Schema {
  import opened Wrappers

  /** A `Date`, as the milliseconds `getTime()` returns. */
  type Timestamp = int

  datatype Company = Company(
    id: string,
    name: string,
    email: Option<string>,
    contactPerson: Option<string>,
    phone: Option<string>,
    address: Option<string>,
    createdAt: Timestamp,
    updatedAt: Timestamp)

  /**
   * A stored proposal. Decimal columns, which the store keeps as decimal
   * strings, are modelled by their numeric value; nullable columns are options.
   * `status` is an option because a proposal created without one keeps it absent.
   */
  datatype Proposal = Proposal(
    id: string,
    companyId: string,
    fleetSize: int,
    annualKilometers: int,
    vehicleType: string,
    fuelPrice: real,
    calculatedROI: Option<real>,
    annualSavings: Option<real>,
    fiveYearSavings: Option<real>,
    co2Reduction: Option<real>,
    costPerKm: Option<real>,
    paybackPeriod: Option<int>,
    status: Option<string>,
    pdfGenerated: Option<bool>,
    createdAt: Timestamp,
    updatedAt: Timestamp)

  /** A stored calculation; its JSON columns are kept as their text. */
  datatype Calculation = Calculation(
    id: string,
    proposalId: string,
    calculationData: string,
    environmentalImpact: Option<string>,
    createdAt: Timestamp)

  // The insert schemas: each entity without `id` and its timestamps.

  datatype InsertCompany = InsertCompany(
    name: string,
    email: Option<string>,
    contactPerson: Option<string>,
    phone: Option<string>,
    address: Option<string>)

  datatype InsertProposal = InsertProposal(
    companyId: string,
    fleetSize: int,
    annualKilometers: int,
    vehicleType: string,
    fuelPrice: real,
    calculatedROI: Option<real>,
    annualSavings: Option<real>,
    fiveYearSavings: Option<real>,
    co2Reduction: Option<real>,
    costPerKm: Option<real>,
    paybackPeriod: Option<int>,
    status: Option<string>,
    pdfGenerated: Option<bool>)

  datatype InsertCalculation = InsertCalculation(
    proposalId: string,
    calculationData: string,
    environmentalImpact: Option<string>)

  /** The fields of a company that its insert schema accepts. */
  function CompanyInsertPart(c: Company): InsertCompany {
    InsertCompany(c.name, c.email, c.contactPerson, c.phone, c.address)
  }

  /** `{ ...insert, id, createdAt: now, updatedAt: now }` for a company. */
  function NewCompany(ins: InsertCompany, id: string, now: Timestamp): (c: Company)
    ensures CompanyInsertPart(c) == ins
    ensures c.id == id && c.createdAt == now && c.updatedAt == now
  {
    Company(id, ins.name, ins.email, ins.contactPerson, ins.phone, ins.address, now, now)
  }

  /** A company is its insert part plus an id and timestamps, and nothing else. */
  lemma CompanyIsInsertPartWithIdentity(c: Company)
    requires c.createdAt == c.updatedAt
    ensures NewCompany(CompanyInsertPart(c), c.id, c.createdAt) == c
  {
  }

  function ProposalInsertPart(p: Proposal): InsertProposal {
    InsertProposal(p.companyId, p.fleetSize, p.annualKilometers, p.vehicleType, p.fuelPrice,
      p.calculatedROI, p.annualSavings, p.fiveYearSavings, p.co2Reduction, p.costPerKm,
      p.paybackPeriod, p.status, p.pdfGenerated)
  }

  /** `{ ...insert, id, createdAt: now, updatedAt: now }` for a proposal. */
  function NewProposal(ins: InsertProposal, id: string, now: Timestamp): (p: Proposal)
    ensures ProposalInsertPart(p) == ins
    ensures p.id == id && p.createdAt == now && p.updatedAt == now
  {
    Proposal(id, ins.companyId, ins.fleetSize, ins.annualKilometers, ins.vehicleType, ins.fuelPrice,
      ins.calculatedROI, ins.annualSavings, ins.fiveYearSavings, ins.co2Reduction, ins.costPerKm,
      ins.paybackPeriod, ins.status, ins.pdfGenerated, now, now)
  }

  lemma ProposalIsInsertPartWithIdentity(p: Proposal)
    requires p.createdAt == p.updatedAt
    ensures NewProposal(ProposalInsertPart(p), p.id, p.createdAt) == p
  {
  }

  function CalculationInsertPart(c: Calculation): InsertCalculation {
    InsertCalculation(c.proposalId, c.calculationData, c.environmentalImpact)
  }

  /** `{ ...insert, id, createdAt: now }` for a calculation (it has no `updatedAt`). */
  function NewCalculation(ins: InsertCalculation, id: string, now: Timestamp): (c: Calculation)
    ensures CalculationInsertPart(c) == ins
    ensures c.id == id && c.createdAt == now
  {
    Calculation(id, ins.proposalId, ins.calculationData, ins.environmentalImpact, now)
  }

  lemma CalculationIsInsertPartWithIdentity(c: Calculation)
    ensures NewCalculation(CalculationInsertPart(c), c.id, c.createdAt) == c
  {
  }

  const DefaultProposalStatus := "draft"

  /** The status the `status` column stores: the given one, or its default "draft". */
  function ColumnStatus(status: Option<string>): (r: string)
    ensures status.Some? ==> r == status.value
    ensures status.None? ==> r == DefaultProposalStatus
  {
    status.GetOr(DefaultProposalStatus)
  }

  // ----- The ROI request schema -----

  datatype VehicleType = HeavyTruck | MediumTruck | LightUtility | Bus

  /** The enum's values, in the order the schema lists them. */
  const VehicleTypeNames: seq<string> := ["heavy_truck", "medium_truck", "light_utility", "bus"]

  function VehicleTypeName(v: VehicleType): (s: string)
    ensures s in VehicleTypeNames
  {
    match v
    case HeavyTruck => "heavy_truck"
    case MediumTruck => "medium_truck"
    case LightUtility => "light_utility"
    case Bus => "bus"
  }

  /** The enum check: exactly the four names are accepted, each as its own variant. */
  function ParseVehicleType(s: string): (r: Option<VehicleType>)
    ensures r.Some? <==> s in VehicleTypeNames
    ensures r.Some? ==> VehicleTypeName(r.value) == s
  {
    if s == "heavy_truck" then Some(HeavyTruck)
    else if s == "medium_truck" then Some(MediumTruck)
    else if s == "light_utility" then Some(LightUtility)
    else if s == "bus" then Some(Bus)
    else None
  }

  /** Printing a variant and parsing the name gives the variant back. */
  lemma ParseVehicleTypeName(v: VehicleType)
    ensures ParseVehicleType(VehicleTypeName(v)) == Some(v)
  {
  }

  /** The request body, with its numeric fields already numbers. */
  datatype RoiRequest = RoiRequest(
    fleetSize: real,
    annualKilometers: real,
    vehicleType: string,
    fuelPrice: real,
    companyId: Option<string>)

  /** What the schema's parse returns on success. */
  datatype RoiInput = RoiInput(
    fleetSize: real,
    annualKilometers: real,
    vehicleType: VehicleType,
    fuelPrice: real,
    companyId: Option<string>)

  datatype IssueCode = TooSmall | TooBig | InvalidEnumValue
  datatype Issue = Issue(path: string, code: IssueCode)

  const FleetSizeMin := 1.0
  const FleetSizeMax := 10000.0
  const AnnualKilometersMin := 1000.0
  const AnnualKilometersMax := 1000000.0
  const FuelPriceMin := 0.5
  const FuelPriceMax := 5.0

  /** The inclusive ranges, stated on their own. */
  predicate ValidRequest(req: RoiRequest)
  {
    && FleetSizeMin <= req.fleetSize <= FleetSizeMax
    && AnnualKilometersMin <= req.annualKilometers <= AnnualKilometersMax
    && req.vehicleType in VehicleTypeNames
    && FuelPriceMin <= req.fuelPrice <= FuelPriceMax
  }

  /** The ranges on a parsed input. */
  predicate InRange(input: RoiInput)
  {
    && FleetSizeMin <= input.fleetSize <= FleetSizeMax
    && AnnualKilometersMin <= input.annualKilometers <= AnnualKilometersMax
    && FuelPriceMin <= input.fuelPrice <= FuelPriceMax
  }

  /** `z.number().min(lo).max(hi)` on one field: at most one issue. */
  function RangeIssues(path: string, x: real, lo: real, hi: real): (r: seq<Issue>)
    requires lo <= hi
    ensures r == [] <==> lo <= x <= hi
    ensures forall k :: 0 <= k < |r| ==> r[k].path == path
    ensures |r| <= 1
  {
    if x < lo then [Issue(path, TooSmall)]
    else if x > hi then [Issue(path, TooBig)]
    else []
  }

  /** The issues of every field, in the order of the schema's fields. */
  function Issues(req: RoiRequest): (r: seq<Issue>)
    ensures r == [] <==> ValidRequest(req)
  {
    RangeIssues("fleetSize", req.fleetSize, FleetSizeMin, FleetSizeMax)
    + RangeIssues("annualKilometers", req.annualKilometers, AnnualKilometersMin, AnnualKilometersMax)
    + (if req.vehicleType in VehicleTypeNames then [] else [Issue("vehicleType", InvalidEnumValue)])
    + RangeIssues("fuelPrice", req.fuelPrice, FuelPriceMin, FuelPriceMax)
  }

  predicate HasIssueAt(issues: seq<Issue>, path: string)
  {
    exists k :: 0 <= k < |issues| && issues[k].path == path
  }

  lemma HasIssueAtConcat(a: seq<Issue>, b: seq<Issue>, path: string)
    ensures HasIssueAt(a + b, path) <==> HasIssueAt(a, path) || HasIssueAt(b, path)
  {
    if HasIssueAt(a + b, path) {
      var k :| 0 <= k < |a + b| && (a + b)[k].path == path;
      if k >= |a| { assert b[k - |a|] == (a + b)[k]; }
    }
    if HasIssueAt(a, path) {
      var k :| 0 <= k < |a| && a[k].path == path;
      assert (a + b)[k] == a[k];
    }
    if HasIssueAt(b, path) {
      var k :| 0 <= k < |b| && b[k].path == path;
      assert (a + b)[|a| + k] == b[k];
    }
  }

  lemma HasIssueAtSingle(path: string, x: real, lo: real, hi: real, field: string)
    requires lo <= hi
    ensures HasIssueAt(RangeIssues(path, x, lo, hi), field) <==> field == path && !(lo <= x <= hi)
  {
    var r := RangeIssues(path, x, lo, hi);
    if r != [] { assert r[0].path == path; }
  }

  /** Each field is reported exactly when it is outside its range. */
  lemma IssuesPerField(req: RoiRequest, field: string)
    ensures HasIssueAt(Issues(req), field) <==>
      || (field == "fleetSize" && !(FleetSizeMin <= req.fleetSize <= FleetSizeMax))
      || (field == "annualKilometers" && !(AnnualKilometersMin <= req.annualKilometers <= AnnualKilometersMax))
      || (field == "vehicleType" && req.vehicleType !in VehicleTypeNames)
      || (field == "fuelPrice" && !(FuelPriceMin <= req.fuelPrice <= FuelPriceMax))
  {
    var a := RangeIssues("fleetSize", req.fleetSize, FleetSizeMin, FleetSizeMax);
    var b := RangeIssues("annualKilometers", req.annualKilometers, AnnualKilometersMin, AnnualKilometersMax);
    var c: seq<Issue> := if req.vehicleType in VehicleTypeNames then [] else [Issue("vehicleType", InvalidEnumValue)];
    var d := RangeIssues("fuelPrice", req.fuelPrice, FuelPriceMin, FuelPriceMax);
    assert Issues(req) == a + b + c + d;
    HasIssueAtConcat(a + b + c, d, field);
    HasIssueAtConcat(a + b, c, field);
    HasIssueAtConcat(a, b, field);
    HasIssueAtSingle("fleetSize", req.fleetSize, FleetSizeMin, FleetSizeMax, field);
    HasIssueAtSingle("annualKilometers", req.annualKilometers, AnnualKilometersMin, AnnualKilometersMax, field);
    HasIssueAtSingle("fuelPrice", req.fuelPrice, FuelPriceMin, FuelPriceMax, field);
    if c != [] { assert c[0].path == "vehicleType"; }
  }

  /** `roiCalculationSchema.parse(body)`: the typed input, or every issue found. */
  function Parse(req: RoiRequest): (r: Result<RoiInput, seq<Issue>>)
    ensures r.Success? <==> ValidRequest(req)
    ensures r.Success? ==> InRange(r.value)
    ensures r.Success? ==> VehicleTypeName(r.value.vehicleType) == req.vehicleType
    ensures r.Success? ==> r.value.fleetSize == req.fleetSize && r.value.annualKilometers == req.annualKilometers
                           && r.value.fuelPrice == req.fuelPrice && r.value.companyId == req.companyId
    ensures r.Failure? ==> r.error != []
  {
    var issues := Issues(req);
    if issues == [] then
      var vt := ParseVehicleType(req.vehicleType);
      Success(RoiInput(req.fleetSize, req.annualKilometers, vt.value, req.fuelPrice, req.companyId))
    else Failure(issues)
  }

  /** `companyId` is optional: it never decides acceptance. */
  lemma CompanyIdNeverRejects(req: RoiRequest, companyId: Option<string>)
    ensures Parse(req.(companyId := companyId)).Success? == Parse(req).Success?
  {
  }

  /** No integrality is demanded: fractional fleet sizes and distances pass. */
  lemma FractionalValuesAccepted()
    ensures Parse(RoiRequest(1.5, 1000.5, "bus", 0.5, None)).Success?
  {
  }

  /** The boundaries are inclusive, and one step outside is rejected. */
  lemma BoundariesInclusive(req: RoiRequest)
    requires req.vehicleType == "heavy_truck" && req.annualKilometers == 120000.0 && req.fuelPrice == 1.55
    ensures req.fleetSize == 1.0 || req.fleetSize == 10000.0 ==> Parse(req).Success?
    ensures req.fleetSize == 0.0 || req.fleetSize == 10001.0 ==> Parse(req).Failure?
    ensures Parse(req.(fleetSize := 87.0, annualKilometers := 1000.0)).Success?
    ensures Parse(req.(fleetSize := 87.0, annualKilometers := 999.0)).Failure?
    ensures Parse(req.(fleetSize := 87.0, fuelPrice := 5.0)).Success?
    ensures Parse(req.(fleetSize := 87.0, fuelPrice := 5.1)).Failure?
    ensures Parse(req.(fleetSize := 87.0, vehicleType := "unknown")).Failure?
  {
  }
}
