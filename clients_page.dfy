/**
 * The list logic of the clients page: the case-insensitive search, and the
 * per-company proposal count, last proposal date and active-client count
 * computed from the proposals listing. The initials helper of this page is
 * the one of the proposals page.
 */
module ClientsPage {
  import opened Wrappers
  import opened Seqs
  import opened JsString
  import opened Schema
  import opened ProposalsPage

  /** `field?.toLowerCase().includes(term)`: a missing field matches nothing. */
  predicate FieldMatches(field: Option<string>, searchTerm: string) {
    field.Some? && Includes(ToLowerCase(field.value), ToLowerCase(searchTerm))
  }

  predicate MatchesSearch(c: Company, searchTerm: string) {
    || Includes(ToLowerCase(c.name), ToLowerCase(searchTerm))
    || FieldMatches(c.contactPerson, searchTerm)
    || FieldMatches(c.email, searchTerm)
  }

  function Shown(searchTerm: string): Company -> bool {
    (c: Company) => MatchesSearch(c, searchTerm)
  }

  /** `filteredCompanies`: the loaded companies whose name, contact or e-mail contains the term, in their order. */
  function FilterCompanies(companies: Option<seq<Company>>, searchTerm: string): (r: seq<Company>)
    ensures companies.None? ==> r == []
    ensures companies.Some? ==> IsSubsequence(r, companies.value)
    ensures companies.Some? ==> forall i :: 0 <= i < |companies.value| ==>
      (companies.value[i] in r <==> MatchesSearch(companies.value[i], searchTerm))
    ensures companies.Some? ==> (forall c {:trigger multiset(r)[c]} ::
      multiset(r)[c] == if MatchesSearch(c, searchTerm) then multiset(companies.value)[c] else 0)
  {
    match companies
    case None => []
    case Some(cs) => Filter(cs, Shown(searchTerm))
  }

  /** Nothing typed: every company is listed. */
  lemma FilterCompaniesEmptyTerm(cs: seq<Company>)
    ensures FilterCompanies(Some(cs), "") == cs
  {
    forall c | c in cs
      ensures Shown("")(c)
    {
      IncludesEmpty(ToLowerCase(c.name));
    }
    FilterKeepsAll(cs, Shown(""));
  }

  /** A company whose name contains the term verbatim is listed. */
  lemma FilterCompaniesFindsName(cs: seq<Company>, i: int, searchTerm: string)
    requires 0 <= i < |cs| && Includes(cs[i].name, searchTerm)
    ensures cs[i] in FilterCompanies(Some(cs), searchTerm)
  {
    IncludesLowered(cs[i].name, searchTerm);
  }

  function OfCompany(companyId: string): ProposalWithCompany -> bool {
    (p: ProposalWithCompany) => p.companyId == companyId
  }

  predicate HasProposal(ps: seq<ProposalWithCompany>, companyId: string) {
    exists p :: p in ps && p.companyId == companyId
  }

  /** The number of proposals that refer to the company, counted one by one. */
  function CountOf(ps: seq<ProposalWithCompany>, companyId: string): nat
  {
    if ps == [] then 0
    else (if ps[0].companyId == companyId then 1 else 0) + CountOf(ps[1..], companyId)
  }

  /** `getCompanyProposalsCount`: 0 while the proposals load, otherwise how many belong to the company. */
  function CompanyProposalsCount(proposals: Option<seq<ProposalWithCompany>>, companyId: string): (r: nat)
    ensures proposals.None? ==> r == 0
    ensures proposals.Some? ==> r == CountOf(proposals.value, companyId)
    ensures proposals.Some? ==> r <= |proposals.value|
    ensures proposals.Some? ==> (r > 0 <==> HasProposal(proposals.value, companyId))
  {
    match proposals
    case None => 0
    case Some(ps) =>
      OwnProposalsListed(ps, companyId);
      FilterByCompanyCounts(ps, companyId);
      |Filter(ps, OfCompany(companyId))|
  }

  /** Filtering by company keeps as many proposals as refer to it. */
  lemma {:induction false} FilterByCompanyCounts(ps: seq<ProposalWithCompany>, companyId: string)
    ensures |Filter(ps, OfCompany(companyId))| == CountOf(ps, companyId)
  {
    if ps != [] {
      FilterByCompanyCounts(ps[1..], companyId);
    }
  }

  /** Filtering by company keeps every proposal of that company. */
  lemma OwnProposalsListed(ps: seq<ProposalWithCompany>, companyId: string)
    ensures forall p :: p in ps && p.companyId == companyId ==> p in Filter(ps, OfCompany(companyId))
    ensures HasProposal(ps, companyId) <==> Filter(ps, OfCompany(companyId)) != []
  {
    var mine := Filter(ps, OfCompany(companyId));
    forall p | p in ps && p.companyId == companyId
      ensures p in mine
    {
      var i :| 0 <= i < |ps| && ps[i] == p;
    }
    if mine != [] {
      assert mine[0] in ps && mine[0].companyId == companyId;
    }
  }

  function CreatedAt(p: ProposalWithCompany): int {
    p.createdAt
  }

  /** `getLastProposalDate`: none without proposals, otherwise the latest creation date among the company's. */
  function LastProposalDate(proposals: Option<seq<ProposalWithCompany>>, companyId: string): (r: Option<Timestamp>)
    ensures r.None? <==> proposals.None? || !HasProposal(proposals.value, companyId)
    ensures r.Some? ==> exists p :: p in proposals.value && p.companyId == companyId && p.createdAt == r.value
    ensures r.Some? ==> forall p :: p in proposals.value && p.companyId == companyId ==> p.createdAt <= r.value
  {
    match proposals
    case None => None
    case Some(ps) =>
      var mine := Filter(ps, OfCompany(companyId));
      OwnProposalsListed(ps, companyId);
      if mine == [] then None
      else
        var latest := SortDesc(mine, CreatedAt)[0];
        SortDescHeadIsMax(mine, CreatedAt);
        assert latest in mine by {
          assert latest in multiset(mine);
        }
        Some(latest.createdAt)
  }

  function Active(proposals: Option<seq<ProposalWithCompany>>): Company -> bool {
    (c: Company) => CompanyProposalsCount(proposals, c.id) > 0
  }

  function WithProposals(ps: seq<ProposalWithCompany>): Company -> bool {
    (c: Company) => HasProposal(ps, c.id)
  }

  /** "Clients Actifs": how many loaded companies have at least one proposal. */
  function ActiveClientCount(companies: Option<seq<Company>>, proposals: Option<seq<ProposalWithCompany>>): (r: nat)
    ensures companies.None? || proposals.None? ==> r == 0
    ensures companies.Some? ==> r <= |companies.value|
  {
    match companies
    case None => 0
    case Some(cs) =>
      if proposals.None? then FilterKeepsNone(cs, Active(proposals)); 0
      else |Filter(cs, Active(proposals))|
  }

  /** The count is the number of companies that some proposal refers to. */
  lemma {:induction false} ActiveClientCountIsCompaniesWithProposals(cs: seq<Company>, ps: seq<ProposalWithCompany>)
    ensures ActiveClientCount(Some(cs), Some(ps)) == |Filter(cs, WithProposals(ps))|
  {
    ActiveFilterSame(cs, ps);
  }

  lemma {:induction false} ActiveFilterSame(cs: seq<Company>, ps: seq<ProposalWithCompany>)
    ensures Filter(cs, Active(Some(ps))) == Filter(cs, WithProposals(ps))
  {
    if cs != [] {
      ActiveFilterSame(cs[1..], ps);
    }
  }
}
