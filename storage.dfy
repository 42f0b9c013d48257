/**
 * The in-memory store: three tables keyed by id, each a `Map` whose values
 * come back in insertion order. Identifiers (`randomUUID()`) and the clock
 * (`new Date()`) are parameters of the operations that use them.
 */
module Storage {
  import opened Wrappers
  import opened JsMath
  import opened Seqs
  import opened Schema

  // ----- A JavaScript `Map`: a map plus the order in which its keys were first set -----

  predicate Distinct(order: seq<string>)
  {
    forall i, j :: 0 <= i < j < |order| ==> order[i] != order[j]
  }

  /** `order` lists every key of `m` once, in insertion order. */
  ghost predicate KeyOrder<V>(m: map<string, V>, order: seq<string>)
  {
    Distinct(order) && (forall k :: k in m <==> k in order)
  }

  /** The key order after `m.set(k, v)`: a new key goes last, an existing key keeps its place. */
  function SetKey<K(==)>(order: seq<K>, k: K): (r: seq<K>)
    ensures k in r
    ensures order <= r
    ensures |r| == if k in order then |order| else |order| + 1
    ensures forall j :: j in r ==> j in order || j == k
  {
    if k in order then order else order + [k]
  }

  lemma KeyOrderAfterSet<V>(m: map<string, V>, order: seq<string>, k: string, v: V)
    requires KeyOrder(m, order)
    ensures KeyOrder(m[k := v], SetKey(order, k))
  {
  }

  lemma {:induction false} DistinctCardinality(order: seq<string>)
    requires Distinct(order)
    ensures |set k | k in order| == |order|
  {
    if order != [] {
      DistinctCardinality(order[1..]);
      assert (set k | k in order) == {order[0]} + (set k | k in order[1..]);
    }
  }

  /** A key order is as long as its map is large. */
  lemma KeyOrderSize<V>(m: map<string, V>, order: seq<string>)
    requires KeyOrder(m, order)
    ensures |order| == |m|
  {
    DistinctCardinality(order);
    assert m.Keys == set k | k in order;
  }

  /** `Array.from(m.values())`. */
  function ValuesInOrder<K, V>(m: map<K, V>, order: seq<K>): (r: seq<V>)
    requires forall k :: k in order ==> k in m
    ensures |r| == |order|
    ensures forall i :: 0 <= i < |order| ==> r[i] == m[order[i]]
  {
    seq(|order|, i requires 0 <= i < |order| => m[order[i]])
  }

  /** Every stored value is listed, and nothing else is. */
  lemma ValuesInOrderComplete<V>(m: map<string, V>, order: seq<string>)
    requires KeyOrder(m, order)
    ensures forall k :: k in m ==> m[k] in ValuesInOrder(m, order)
    ensures forall v :: v in ValuesInOrder(m, order) ==> v in m.Values
  {
    var r := ValuesInOrder(m, order);
    forall k | k in m
      ensures m[k] in r
    {
      var i :| 0 <= i < |order| && order[i] == k;
      assert r[i] == m[k];
    }
  }

  // ----- Partial updates of a proposal -----

  /**
   * `Partial<Proposal>`: a field is either given (`Some`) or absent. For a
   * nullable column a given value is itself an option, null being `None`.
   */
  datatype ProposalUpdate = ProposalUpdate(
    id: Option<string>,
    companyId: Option<string>,
    fleetSize: Option<int>,
    annualKilometers: Option<int>,
    vehicleType: Option<string>,
    fuelPrice: Option<real>,
    calculatedROI: Option<Option<real>>,
    annualSavings: Option<Option<real>>,
    fiveYearSavings: Option<Option<real>>,
    co2Reduction: Option<Option<real>>,
    costPerKm: Option<Option<real>>,
    paybackPeriod: Option<Option<int>>,
    status: Option<Option<string>>,
    pdfGenerated: Option<Option<bool>>,
    createdAt: Option<Timestamp>,
    updatedAt: Option<Timestamp>)

  const NoUpdate := ProposalUpdate(None, None, None, None, None, None, None, None, None, None,
                                   None, None, None, None, None, None)

  /** The body `{ status }` the proposals page sends. */
  function StatusUpdate(status: string): ProposalUpdate {
    NoUpdate.(status := Some(Some(status)))
  }

  /** `{ ...existing, ...updates, updatedAt: now }`: given fields win, `updatedAt` is always the clock's. */
  function ApplyUpdate(existing: Proposal, u: ProposalUpdate, now: Timestamp): (p: Proposal)
    ensures p.updatedAt == now
  {
    Proposal(
      u.id.GetOr(existing.id),
      u.companyId.GetOr(existing.companyId),
      u.fleetSize.GetOr(existing.fleetSize),
      u.annualKilometers.GetOr(existing.annualKilometers),
      u.vehicleType.GetOr(existing.vehicleType),
      u.fuelPrice.GetOr(existing.fuelPrice),
      u.calculatedROI.GetOr(existing.calculatedROI),
      u.annualSavings.GetOr(existing.annualSavings),
      u.fiveYearSavings.GetOr(existing.fiveYearSavings),
      u.co2Reduction.GetOr(existing.co2Reduction),
      u.costPerKm.GetOr(existing.costPerKm),
      u.paybackPeriod.GetOr(existing.paybackPeriod),
      u.status.GetOr(existing.status),
      u.pdfGenerated.GetOr(existing.pdfGenerated),
      u.createdAt.GetOr(existing.createdAt),
      now)
  }

  /** An empty update only refreshes `updatedAt`. */
  lemma ApplyNoUpdate(existing: Proposal, now: Timestamp)
    ensures ApplyUpdate(existing, NoUpdate, now) == existing.(updatedAt := now)
  {
  }

  /** A status update changes the status and `updatedAt`, nothing else. */
  lemma ApplyStatusUpdate(existing: Proposal, status: string, now: Timestamp)
    ensures ApplyUpdate(existing, StatusUpdate(status), now) == existing.(status := Some(status), updatedAt := now)
  {
  }

  /** Applying the same update twice is applying it once. */
  lemma ApplyUpdateIdempotent(existing: Proposal, u: ProposalUpdate, now: Timestamp)
    ensures ApplyUpdate(ApplyUpdate(existing, u, now), u, now) == ApplyUpdate(existing, u, now)
  {
  }

  // ----- Statistics -----

  datatype Stats = Stats(conversionRate: int, averageROI: int, co2Saved: int)

  predicate IsAccepted(p: Proposal) {
    p.status == Some("accepted")
  }

  /** `parseFloat(p.calculatedROI || "0")`. */
  function RoiOf(p: Proposal): real {
    p.calculatedROI.GetOr(0.0)
  }

  function Co2Of(p: Proposal): real {
    p.co2Reduction.GetOr(0.0)
  }

  /** `reduce((sum, p) => sum + value(p), 0)`. */
  function Sum(ps: seq<Proposal>, value: Proposal -> real): real
  {
    if ps == [] then 0.0 else value(ps[0]) + Sum(ps[1..], value)
  }

  /** A sum of values that are all at least lo is at least n * lo. */
  lemma {:induction false} SumAtLeast(ps: seq<Proposal>, value: Proposal -> real, lo: real)
    requires forall p :: p in ps ==> lo <= value(p)
    ensures |ps| as real * lo <= Sum(ps, value)
  {
    if ps != [] {
      SumAtLeast(ps[1..], value, lo);
    }
  }

  /** A sum of values that are all at most hi is at most n * hi. */
  lemma {:induction false} SumAtMost(ps: seq<Proposal>, value: Proposal -> real, hi: real)
    requires forall p :: p in ps ==> value(p) <= hi
    ensures Sum(ps, value) <= |ps| as real * hi
  {
    if ps != [] {
      SumAtMost(ps[1..], value, hi);
    }
  }

  lemma SumBounds(ps: seq<Proposal>, value: Proposal -> real, lo: real, hi: real)
    requires forall p :: p in ps ==> lo <= value(p) <= hi
    ensures |ps| as real * lo <= Sum(ps, value) <= |ps| as real * hi
  {
    SumAtLeast(ps, value, lo);
    SumAtMost(ps, value, hi);
  }

  /** The number of accepted proposals, counted one by one. */
  function AcceptedCount(ps: seq<Proposal>): nat
  {
    if ps == [] then 0 else (if IsAccepted(ps[0]) then 1 else 0) + AcceptedCount(ps[1..])
  }

  /** Filtering on the accepted status keeps as many proposals as are counted accepted. */
  lemma {:induction false} FilterAcceptedCounts(ps: seq<Proposal>)
    ensures |Filter(ps, IsAccepted)| == AcceptedCount(ps) <= |ps|
  {
    if ps != [] {
      FilterAcceptedCounts(ps[1..]);
    }
  }

  /** Percentage of accepted proposals, rounded; 0 for an empty store. */
  function ConversionRate(ps: seq<Proposal>): (r: int)
    ensures 0 <= r <= 100
    ensures ps == [] ==> r == 0
    ensures ps != [] ==> var q := (AcceptedCount(ps) as real / |ps| as real) * 100.0;
                         q - 0.5 < r as real <= q + 0.5
  {
    if |ps| > 0 then
      var accepted := |Filter(ps, IsAccepted)|;
      FilterAcceptedCounts(ps);
      RatioBounds(accepted, |ps|);
      Round((accepted as real / |ps| as real) * 100.0)
    else 0
  }

  /** No accepted proposal: a rate of 0. */
  lemma ConversionRateNoneAccepted(ps: seq<Proposal>)
    requires forall p :: p in ps ==> !IsAccepted(p)
    ensures ConversionRate(ps) == 0
  {
    FilterKeepsNone(ps, IsAccepted);
    if ps != [] {
      RatioBounds(0, |ps|);
    }
  }

  /** Every proposal accepted: a rate of 100. */
  lemma ConversionRateAllAccepted(ps: seq<Proposal>)
    requires ps != []
    requires forall p :: p in ps ==> IsAccepted(p)
    ensures ConversionRate(ps) == 100
  {
    FilterKeepsAll(ps, IsAccepted);
    RatioBounds(|ps|, |ps|);
  }

  lemma RatioBounds(a: nat, n: nat)
    requires 0 < n && a <= n
    ensures 0.0 <= (a as real / n as real) * 100.0 <= 100.0
    ensures a == 0 ==> (a as real / n as real) * 100.0 == 0.0
    ensures a == n ==> (a as real / n as real) * 100.0 == 100.0
  {
    MeanBetween(a as real, n as real, 0.0, 1.0);
    if a == 0 {
      MeanBetween(a as real, n as real, 0.0, 0.0);
    }
    if a == n {
      MeanBetween(a as real, n as real, 1.0, 1.0);
    }
  }

  /** A total between n * lo and n * hi has its mean between lo and hi. */
  lemma MeanBetween(total: real, n: real, lo: real, hi: real)
    requires n > 0.0 && n * lo <= total <= n * hi
    ensures lo <= total / n <= hi
  {
    var q := total / n;
    assert q * n == total;
  }

  /** Mean `calculatedROI`, rounded; 0 for an empty store. */
  function AverageRoi(ps: seq<Proposal>): (r: int)
    ensures ps == [] ==> r == 0
    ensures ps != [] ==> Sum(ps, RoiOf) / |ps| as real - 0.5 < r as real <= Sum(ps, RoiOf) / |ps| as real + 0.5
  {
    if |ps| > 0 then Round(Sum(ps, RoiOf) / |ps| as real) else 0
  }

  /** The average lies between the rounded smallest and largest ROI. */
  lemma AverageRoiBetweenExtremes(ps: seq<Proposal>, lo: real, hi: real)
    requires ps != []
    requires forall p :: p in ps ==> lo <= RoiOf(p) <= hi
    ensures Round(lo) <= AverageRoi(ps) <= Round(hi)
  {
    SumBounds(ps, RoiOf, lo, hi);
    var mean := Sum(ps, RoiOf) / |ps| as real;
    MeanBetween(Sum(ps, RoiOf), |ps| as real, lo, hi);
    RoundMonotone(lo, mean);
    RoundMonotone(mean, hi);
  }

  /** Ten times the total CO2 reduction, rounded. */
  function Co2Saved(ps: seq<Proposal>): (r: int)
    ensures Sum(ps, Co2Of) * 10.0 - 0.5 < r as real <= Sum(ps, Co2Of) * 10.0 + 0.5
  {
    Round(Sum(ps, Co2Of) * 10.0)
  }

  /** With no negative reduction stored, the CO2 figure is not negative. */
  lemma Co2SavedNonNegative(ps: seq<Proposal>)
    requires forall p :: p in ps ==> Co2Of(p) >= 0.0
    ensures Co2Saved(ps) >= 0
  {
    SumAtLeast(ps, Co2Of, 0.0);
    RoundMonotone(0.0, Sum(ps, Co2Of) * 10.0);
  }

  /** The three figures of `getStats` that do not read the clock. */
  function StatsOf(ps: seq<Proposal>): (s: Stats)
    ensures 0 <= s.conversionRate <= 100
    ensures ps == [] ==> s == Stats(0, 0, 0)
    ensures ps != [] ==> var q := (AcceptedCount(ps) as real / |ps| as real) * 100.0;
                         q - 0.5 < s.conversionRate as real <= q + 0.5
    ensures ps != [] ==> var mean := Sum(ps, RoiOf) / |ps| as real;
                         mean - 0.5 < s.averageROI as real <= mean + 0.5
    ensures Sum(ps, Co2Of) * 10.0 - 0.5 < s.co2Saved as real <= Sum(ps, Co2Of) * 10.0 + 0.5
  {
    Stats(ConversionRate(ps), AverageRoi(ps), Co2Saved(ps))
  }

  // ----- Seed data -----

  const SampleCompanies: seq<Company> := [
    Company("1", "Transport Leclerc", Some("contact@transport-leclerc.fr"), Some("Michel Leclerc"),
            Some("+33 1 23 45 67 89"), Some("123 Rue de la Logistique, 75001 Paris"),
            1704844800000, 1705276800000),
    Company("2", "Logistics Plus", Some("info@logistics-plus.fr"), Some("Sophie Martin"),
            Some("+33 1 98 76 54 32"), Some("456 Avenue du Transport, 69000 Lyon"),
            1705017600000, 1705190400000),
    Company("3", "Fleet Services SA", Some("contact@fleet-services.fr"), Some("Pierre Dubois"),
            Some("+33 1 11 22 33 44"), Some("789 Boulevard de la Flotte, 13000 Marseille"),
            1704931200000, 1705104000000)]

  const SampleProposals: seq<Proposal> := [
    Proposal("p1", "1", 87, 120000, "heavy_truck", 1.45, Some(312.00), Some(156800.00), Some(784000.00),
             Some(198.50), Some(0.162), Some(15), Some("accepted"), Some(true), 1705276800000, 1705276800000),
    Proposal("p2", "2", 134, 150000, "heavy_truck", 1.42, Some(298.00), Some(287400.00), Some(1437000.00),
             Some(312.40), Some(0.158), Some(16), Some("under_review"), Some(true), 1705190400000, 1705190400000),
    Proposal("p3", "3", 42, 80000, "medium_truck", 1.48, Some(276.00), Some(89200.00), Some(446000.00),
             Some(95.30), Some(0.165), Some(18), Some("sent"), Some(true), 1705104000000, 1705104000000)]

  function CreatedAtOf(p: Proposal): int {
    p.createdAt
  }

  function ForCompany(companyId: string): Proposal -> bool {
    (p: Proposal) => p.companyId == companyId
  }

  function ForProposal(proposalId: string): Calculation -> bool {
    (c: Calculation) => c.proposalId == proposalId
  }

  /** The sorted listing of one company's proposals holds exactly the stored proposals of that company. */
  lemma ByCompanyListed(m: map<string, Proposal>, order: seq<string>, companyId: string)
    requires KeyOrder(m, order)
    ensures var r := SortDesc(Filter(ValuesInOrder(m, order), ForCompany(companyId)), CreatedAtOf);
      && (forall p :: p in r ==> p.companyId == companyId && p in m.Values)
      && (forall id :: id in m && m[id].companyId == companyId ==> m[id] in r)
  {
    var all := ValuesInOrder(m, order);
    ValuesInOrderComplete(m, order);
    var mine := Filter(all, ForCompany(companyId));
    FilterMembers(all, ForCompany(companyId));
    SortDescSameElements(mine, CreatedAtOf);
  }

  class MemStorage {
    var companies: map<string, Company>
    var companyOrder: seq<string>
    var proposals: map<string, Proposal>
    var proposalOrder: seq<string>
    var calculations: map<string, Calculation>
    var calculationOrder: seq<string>

    ghost predicate Valid()
      reads this
    {
      && KeyOrder(companies, companyOrder)
      && KeyOrder(proposals, proposalOrder)
      && KeyOrder(calculations, calculationOrder)
    }

    /** A store seeded with three companies and three proposals, and no calculation. */
    constructor ()
      ensures Valid()
      ensures companyOrder == ["1", "2", "3"] && proposalOrder == ["p1", "p2", "p3"]
      ensures companies == map["1" := SampleCompanies[0], "2" := SampleCompanies[1], "3" := SampleCompanies[2]]
      ensures proposals == map["p1" := SampleProposals[0], "p2" := SampleProposals[1], "p3" := SampleProposals[2]]
      ensures calculations == map[] && calculationOrder == []
    {
      companies := map["1" := SampleCompanies[0], "2" := SampleCompanies[1], "3" := SampleCompanies[2]];
      companyOrder := ["1", "2", "3"];
      proposals := map["p1" := SampleProposals[0], "p2" := SampleProposals[1], "p3" := SampleProposals[2]];
      proposalOrder := ["p1", "p2", "p3"];
      calculations := map[];
      calculationOrder := [];
    }

    function GetCompany(id: string): (r: Option<Company>)
      reads this
      ensures r.Some? <==> id in companies
      ensures r.Some? ==> r.value == companies[id]
    {
      if id in companies then Some(companies[id]) else None
    }

    /** Every company once, in insertion order. */
    function GetCompanies(): (r: seq<Company>)
      reads this
      requires Valid()
      ensures |r| == |companies|
      ensures |r| == |companyOrder| && forall i :: 0 <= i < |r| ==> r[i] == companies[companyOrder[i]]
      ensures forall id :: id in companies ==> companies[id] in r
      ensures forall c :: c in r ==> c in companies.Values
    {
      KeyOrderSize(companies, companyOrder);
      ValuesInOrderComplete(companies, companyOrder);
      ValuesInOrder(companies, companyOrder)
    }

    method CreateCompany(ins: InsertCompany, id: string, now: Timestamp) returns (c: Company)
      requires Valid()
      modifies this
      ensures Valid()
      ensures c == NewCompany(ins, id, now)
      ensures companies == old(companies)[id := c] && companyOrder == SetKey(old(companyOrder), id)
      ensures proposals == old(proposals) && proposalOrder == old(proposalOrder)
      ensures calculations == old(calculations) && calculationOrder == old(calculationOrder)
      ensures id !in old(companies) ==> |companies| == |old(companies)| + 1
    {
      c := NewCompany(ins, id, now);
      KeyOrderAfterSet(companies, companyOrder, id, c);
      companies := companies[id := c];
      companyOrder := SetKey(companyOrder, id);
    }

    function GetProposal(id: string): (r: Option<Proposal>)
      reads this
      ensures r.Some? <==> id in proposals
      ensures r.Some? ==> r.value == proposals[id]
    {
      if id in proposals then Some(proposals[id]) else None
    }

    /** Every proposal once, newest first; equal dates keep insertion order. */
    function GetProposals(): (r: seq<Proposal>)
      reads this
      requires Valid()
      ensures |r| == |proposals|
      ensures SortedDesc(r, CreatedAtOf)
      ensures multiset(r) == multiset(ValuesInOrder(proposals, proposalOrder))
      ensures forall id :: id in proposals ==> proposals[id] in r
      ensures forall p :: p in r ==> p in proposals.Values
    {
      var all := ValuesInOrder(proposals, proposalOrder);
      KeyOrderSize(proposals, proposalOrder);
      ValuesInOrderComplete(proposals, proposalOrder);
      var r := SortDesc(all, CreatedAtOf);
      assert forall p :: p in r <==> p in all by {
        forall p ensures p in r <==> p in all {
          assert p in r <==> p in multiset(r);
        }
      }
      r
    }

    /** The proposals of one company, newest first. */
    function GetProposalsByCompany(companyId: string): (r: seq<Proposal>)
      reads this
      requires Valid()
      ensures SortedDesc(r, CreatedAtOf)
      ensures multiset(r) == multiset(Filter(ValuesInOrder(proposals, proposalOrder), ForCompany(companyId)))
      ensures forall p :: p in r ==> p.companyId == companyId && p in proposals.Values
      ensures forall id :: id in proposals && proposals[id].companyId == companyId ==> proposals[id] in r
    {
      ByCompanyListed(proposals, proposalOrder, companyId);
      SortDesc(Filter(ValuesInOrder(proposals, proposalOrder), ForCompany(companyId)), CreatedAtOf)
    }

    method CreateProposal(ins: InsertProposal, id: string, now: Timestamp) returns (p: Proposal)
      requires Valid()
      modifies this
      ensures Valid()
      ensures p == NewProposal(ins, id, now)
      ensures proposals == old(proposals)[id := p] && proposalOrder == SetKey(old(proposalOrder), id)
      ensures companies == old(companies) && companyOrder == old(companyOrder)
      ensures calculations == old(calculations) && calculationOrder == old(calculationOrder)
      ensures id !in old(proposals) ==> |proposals| == |old(proposals)| + 1
    {
      p := NewProposal(ins, id, now);
      KeyOrderAfterSet(proposals, proposalOrder, id, p);
      proposals := proposals[id := p];
      proposalOrder := SetKey(proposalOrder, id);
    }

    /** Fails on an unknown id and changes nothing; otherwise stores the merged record under the same key. */
    method UpdateProposal(id: string, updates: ProposalUpdate, now: Timestamp) returns (r: Result<Proposal, string>)
      requires Valid()
      modifies this
      ensures Valid()
      ensures id !in old(proposals) ==> r == Failure("Proposal not found") && proposals == old(proposals)
      ensures id in old(proposals) ==>
        && r == Success(ApplyUpdate(old(proposals)[id], updates, now))
        && proposals == old(proposals)[id := r.value]
      ensures proposalOrder == old(proposalOrder)
      ensures companies == old(companies) && companyOrder == old(companyOrder)
      ensures calculations == old(calculations) && calculationOrder == old(calculationOrder)
    {
      if id !in proposals {
        return Failure("Proposal not found");
      }
      var updated := ApplyUpdate(proposals[id], updates, now);
      KeyOrderAfterSet(proposals, proposalOrder, id, updated);
      proposals := proposals[id := updated];
      r := Success(updated);
    }

    function GetCalculation(id: string): (r: Option<Calculation>)
      reads this
      ensures r.Some? <==> id in calculations
      ensures r.Some? ==> r.value == calculations[id]
    {
      if id in calculations then Some(calculations[id]) else None
    }

    /** The calculations of one proposal, in insertion order. */
    function GetCalculationsByProposal(proposalId: string): (r: seq<Calculation>)
      reads this
      requires Valid()
      ensures IsSubsequence(r, ValuesInOrder(calculations, calculationOrder))
      ensures forall c :: c in r ==> c.proposalId == proposalId && c in calculations.Values
      ensures forall id :: id in calculations && calculations[id].proposalId == proposalId ==> calculations[id] in r
      ensures forall x {:trigger multiset(r)[x]} ::
                multiset(r)[x] == if x.proposalId == proposalId then multiset(ValuesInOrder(calculations, calculationOrder))[x] else 0
    {
      var all := ValuesInOrder(calculations, calculationOrder);
      ValuesInOrderComplete(calculations, calculationOrder);
      var r := Filter(all, ForProposal(proposalId));
      forall id | id in calculations && calculations[id].proposalId == proposalId
        ensures calculations[id] in r
      {
        var i :| 0 <= i < |all| && all[i] == calculations[id];
      }
      r
    }

    method CreateCalculation(ins: InsertCalculation, id: string, now: Timestamp) returns (c: Calculation)
      requires Valid()
      modifies this
      ensures Valid()
      ensures c == NewCalculation(ins, id, now)
      ensures calculations == old(calculations)[id := c] && calculationOrder == SetKey(old(calculationOrder), id)
      ensures companies == old(companies) && companyOrder == old(companyOrder)
      ensures proposals == old(proposals) && proposalOrder == old(proposalOrder)
      ensures id !in old(calculations) ==> |calculations| == |old(calculations)| + 1
    {
      c := NewCalculation(ins, id, now);
      KeyOrderAfterSet(calculations, calculationOrder, id, c);
      calculations := calculations[id := c];
      calculationOrder := SetKey(calculationOrder, id);
    }

    /** Conversion rate, average ROI and CO2 figure over all stored proposals. */
    function GetStats(): (s: Stats)
      reads this
      requires Valid()
      ensures 0 <= s.conversionRate <= 100
      ensures proposals == map[] ==> s == Stats(0, 0, 0)
      ensures s == StatsOf(ValuesInOrder(proposals, proposalOrder))
    {
      KeyOrderSize(proposals, proposalOrder);
      StatsOf(ValuesInOrder(proposals, proposalOrder))
    }
  }
}
