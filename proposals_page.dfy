/**
 * The list logic of the proposals page: the search-and-status filter, the
 * company initials shown in each row, and the "Envoyer" action that moves a
 * draft to "sent".
 */
module ProposalsPage {
  import opened Wrappers
  import opened Seqs
  import opened JsString
  import opened Schema
  import Storage

  datatype CompanyRef = CompanyRef(id: string, name: string)

  /** A row of `GET /api/proposals`: a proposal with its company attached (only the fields the page reads). */
  datatype ProposalWithCompany = ProposalWithCompany(
    id: string,
    companyId: string,
    status: string,
    createdAt: Timestamp,
    company: CompanyRef)

  /** The status filter's "every status" choice. */
  const AllStatuses := "all"

  predicate MatchesSearch(p: ProposalWithCompany, searchTerm: string) {
    Includes(ToLowerCase(p.company.name), ToLowerCase(searchTerm))
  }

  predicate MatchesStatus(p: ProposalWithCompany, statusFilter: string) {
    statusFilter == AllStatuses || p.status == statusFilter
  }

  function Shown(searchTerm: string, statusFilter: string): ProposalWithCompany -> bool {
    (p: ProposalWithCompany) => MatchesSearch(p, searchTerm) && MatchesStatus(p, statusFilter)
  }

  /** `filteredProposals`: the loaded rows that pass both filters, in their order; none while loading. */
  function FilterProposals(data: Option<seq<ProposalWithCompany>>, searchTerm: string, statusFilter: string)
    : (r: seq<ProposalWithCompany>)
    ensures data.None? ==> r == []
    ensures data.Some? ==> IsSubsequence(r, data.value)
    ensures data.Some? ==> forall i :: 0 <= i < |data.value| ==>
      (data.value[i] in r <==> MatchesSearch(data.value[i], searchTerm) && MatchesStatus(data.value[i], statusFilter))
    ensures data.Some? ==> (forall p {:trigger multiset(r)[p]} ::
      multiset(r)[p] == if MatchesSearch(p, searchTerm) && MatchesStatus(p, statusFilter) then multiset(data.value)[p] else 0)
  {
    match data
    case None => []
    case Some(ps) => Filter(ps, Shown(searchTerm, statusFilter))
  }

  /** With every status selected and nothing typed, every row is shown. */
  lemma FilterProposalsShowsAll(ps: seq<ProposalWithCompany>)
    ensures FilterProposals(Some(ps), "", AllStatuses) == ps
  {
    forall p | p in ps
      ensures Shown("", AllStatuses)(p)
    {
      IncludesEmpty(ToLowerCase(p.company.name));
    }
    FilterKeepsAll(ps, Shown("", AllStatuses));
  }

  /** `word[0]` of every word, joined: an empty word has no first character and adds nothing. */
  function FirstChars(words: seq<string>): string
  {
    if words == [] then ""
    else (if words[0] == "" then "" else [words[0][0]]) + FirstChars(words[1..])
  }

  /**
   * The first characters of the words of a split are the characters that
   * open a word; after the first piece, those that follow a separator.
   */
  lemma {:induction false} FirstCharsOfSplit(s: string, sep: char)
    ensures FirstChars(Split(s, sep)) == WordStarts(s, sep, true)
    ensures FirstChars(Split(s, sep)[1..]) == WordStarts(s, sep, false)
  {
    if s != [] {
      var rest := Split(s[1..], sep);
      FirstCharsOfSplit(s[1..], sep);
      if s[0] == sep {
        assert ([""] + rest)[1..] == rest;
      } else {
        var pieces := [[s[0]] + rest[0]] + rest[1..];
        assert pieces[1..] == rest[1..];
      }
    }
  }

  /** `getCompanyInitials`: the first two word initials, upper-cased. */
  function CompanyInitials(name: string): (r: string)
    ensures |r| <= 2
    ensures forall i :: 0 <= i < |r| ==> !('a' <= r[i] <= 'z')
  {
    var initials := ToUpperCase(FirstChars(Split(name, ' ')));
    if |initials| <= 2 then initials else initials[..2]
  }

  /** The initials are the upper-cased opening characters of the first two words, blanks skipped. */
  lemma CompanyInitialsAreWordStarts(name: string)
    ensures var starts := WordStarts(name, ' ', true);
      |CompanyInitials(name)| == if |starts| <= 2 then |starts| else 2
    ensures forall i :: 0 <= i < |CompanyInitials(name)| ==>
      CompanyInitials(name)[i] == UpperChar(WordStarts(name, ' ', true)[i])
  {
    FirstCharsOfSplit(name, ' ');
  }

  /** A two-word name shows one initial per word. */
  lemma CompanyInitialsOfTwoWords()
    ensures CompanyInitials("Bus Co") == "BC"
  {
    FirstCharsOfSplit("Bus Co", ' ');
    assert WordStarts("o", ' ', false) == "";
    assert WordStarts("Co", ' ', true) == "C";
    assert WordStarts(" Co", ' ', false) == "C";
    assert WordStarts("s Co", ' ', false) == "C";
    assert WordStarts("us Co", ' ', false) == "C";
    assert WordStarts("Bus Co", ' ', true) == "BC";
  }

  /** Leading blanks open empty words, which add nothing. */
  lemma CompanyInitialsSkipsEmptyWords()
    ensures CompanyInitials("  acme") == "A"
  {
    FirstCharsOfSplit("  acme", ' ');
  }

  /** A `PATCH /api/proposals/:id` request. */
  datatype StatusRequest = StatusRequest(id: string, body: Storage.ProposalUpdate)

  const SentStatus := "sent"

  /** The "Envoyer" menu entry: only a draft offers it, and it asks for status "sent" and nothing else. */
  function SendAction(p: ProposalWithCompany): (r: Option<StatusRequest>)
    ensures r.Some? <==> p.status == "draft"
    ensures r.Some? ==> r.value.id == p.id && r.value.body == Storage.StatusUpdate(SentStatus)
  {
    if p.status == "draft" then Some(StatusRequest(p.id, Storage.StatusUpdate(SentStatus))) else None
  }

  /**
   * Once the store has applied the request, the proposal is "sent" and
   * otherwise untouched but for `updatedAt`, so the entry is not offered again.
   */
  lemma SendActionOnce(p: ProposalWithCompany, stored: Proposal, now: Timestamp)
    requires SendAction(p).Some?
    ensures var updated := Storage.ApplyUpdate(stored, SendAction(p).value.body, now);
      && updated == stored.(status := Some(SentStatus), updatedAt := now)
      && SendAction(p.(status := updated.status.value)).None?
  {
    Storage.ApplyStatusUpdate(stored, SentStatus, now);
  }
}
