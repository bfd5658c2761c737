/**
 * The interview list component: its filter criteria (component state), the
 * filter-and-sort pipeline over the records it is given, and the conditions that
 * decide what the list shows (the "Clear" buttons, the "Showing N of M" line, the
 * cards or the empty state).
 */
module InterviewList {
  import opened Wrappers
  import opened Seqs
  import opened Strings
  import opened Interviews
  import opened DateOrder
  import opened InterviewCard

  /** The status filter that lets every status through. */
  const All: string := "all"

  // ---------------------------------------------------------------------------
  // The pipeline
  // ---------------------------------------------------------------------------

  /** The status test: it rejects a record only when a specific status is chosen and differs. */
  predicate PassesStatus(x: Interview, statusFilter: string): (passes: bool)
    ensures passes <==> statusFilter == All || x.value.status == statusFilter
  {
    !(statusFilter != All && x.value.status != statusFilter)
  }

  /**
   * The search test: an empty query lets everything through; otherwise the lowered
   * query must occur in the lowered title or in the lowered candidate name, if any.
   */
  predicate MatchesSearch(x: Interview, searchQuery: string): (matches: bool)
    ensures searchQuery == "" ==> matches
    ensures matches && searchQuery != "" ==>
      Includes(Lower(x.value.title), Lower(searchQuery)) || x.value.candidateName.Some?
    ensures Includes(Lower(x.value.title), Lower(searchQuery)) ==> matches
  {
    if searchQuery != "" then
      var query := Lower(searchQuery);
      var matchesTitle := Includes(Lower(x.value.title), query);
      var matchesCandidate :=
        x.value.candidateName.Some? && Includes(Lower(x.value.candidateName.value), query);
      matchesTitle || matchesCandidate
    else
      true
  }

  /** The callback given to `.filter`. */
  function Keeps(statusFilter: string, searchQuery: string): Interview -> bool
  {
    x => PassesStatus(x, statusFilter) && MatchesSearch(x, searchQuery)
  }

  /**
   * `filteredInterviews`: the records passing both tests, sorted by date. The input
   * is a value, so it is left as it was.
   */
  function FilteredInterviews(
    interviews: seq<Interview>, statusFilter: string, sortOrder: string, searchQuery: string,
    parse: DateParser): (r: seq<Interview>)
    ensures |r| <= |interviews|
    ensures forall x :: x in r <==> x in interviews && PassesStatus(x, statusFilter) && MatchesSearch(x, searchQuery)
  {
    var selected := Filter(interviews, Keeps(statusFilter, searchQuery));
    var r := SortByDate(selected, sortOrder, parse);
    assert forall x :: x in r <==> x in selected by {
      forall x ensures x in r <==> x in selected {
        assert multiset(r)[x] == multiset(selected)[x];
      }
    }
    r
  }

  /**
   * The output is a rearrangement of the subsequence of the input that passes both tests:
   * each passing record occurs as often as in the input, every other record not at all.
   */
  lemma PermutationOfSelection(
    interviews: seq<Interview>, statusFilter: string, sortOrder: string, searchQuery: string,
    parse: DateParser)
    ensures var selected := Filter(interviews, Keeps(statusFilter, searchQuery));
      IsSubsequence(selected, interviews) &&
      multiset(FilteredInterviews(interviews, statusFilter, sortOrder, searchQuery, parse)) == multiset(selected)
    ensures forall x ::
      multiset(FilteredInterviews(interviews, statusFilter, sortOrder, searchQuery, parse))[x] ==
      (if PassesStatus(x, statusFilter) && MatchesSearch(x, searchQuery) then multiset(interviews)[x] else 0)
  {
    FilterIsSubsequence(interviews, Keeps(statusFilter, searchQuery));
    FilterMultiplicity(interviews, Keeps(statusFilter, searchQuery));
  }

  /** A specific status filter lets through only records with that status. */
  lemma StatusFilterSelects(
    interviews: seq<Interview>, statusFilter: string, sortOrder: string, searchQuery: string,
    parse: DateParser)
    requires statusFilter != All
    ensures forall x :: x in FilteredInterviews(interviews, statusFilter, sortOrder, searchQuery, parse) ==>
      x.value.status == statusFilter
  {
  }

  /** The "all" status filter and the empty query exclude nothing. */
  lemma DefaultTestsPassEverything(x: Interview, statusFilter: string, searchQuery: string)
    ensures PassesStatus(x, All)
    ensures MatchesSearch(x, "")
    ensures Keeps(All, searchQuery)(x) == MatchesSearch(x, searchQuery)
    ensures Keeps(statusFilter, "")(x) == PassesStatus(x, statusFilter)
  {
  }

  /** With status "all" and an empty query the output is a rearrangement of the whole input. */
  lemma DefaultsKeepEverything(interviews: seq<Interview>, sortOrder: string, parse: DateParser)
    ensures multiset(FilteredInterviews(interviews, All, sortOrder, "", parse)) == multiset(interviews)
  {
    FilterKeepsAll(interviews, Keeps(All, ""));
  }

  /**
   * A non-empty query matches exactly when its lowered form occurs at some position of the
   * lowered title or of the lowered candidate name; without a candidate name only the title counts.
   */
  lemma SearchMatchIffOccurs(x: Interview, searchQuery: string)
    requires searchQuery != ""
    ensures MatchesSearch(x, searchQuery) <==>
      OccursIn(Lower(x.value.title), Lower(searchQuery)) ||
      (x.value.candidateName.Some? && OccursIn(Lower(x.value.candidateName.value), Lower(searchQuery)))
    ensures x.value.candidateName.None? ==>
      (MatchesSearch(x, searchQuery) <==> OccursIn(Lower(x.value.title), Lower(searchQuery)))
  {
    var query := Lower(searchQuery);
    IncludesIffOccurs(Lower(x.value.title), query);
    if x.value.candidateName.Some? {
      IncludesIffOccurs(Lower(x.value.candidateName.value), query);
      assert MatchesSearch(x, searchQuery) <==>
        Includes(Lower(x.value.title), query) || Includes(Lower(x.value.candidateName.value), query);
    } else {
      assert MatchesSearch(x, searchQuery) <==> Includes(Lower(x.value.title), query);
    }
  }

  /**
   * The guard on an empty query changes nothing: the unguarded title test already
   * passes every record, since every string includes the empty string.
   */
  lemma EmptyQueryGuardRedundant(x: Interview)
    ensures Includes(Lower(x.value.title), Lower("")) == MatchesSearch(x, "")
  {
    IncludesEmpty(Lower(x.value.title));
  }

  /** The search is case-insensitive in the query: lowering it first changes nothing. */
  lemma SearchIgnoresQueryCase(x: Interview, searchQuery: string)
    ensures MatchesSearch(x, Lower(searchQuery)) == MatchesSearch(x, searchQuery)
  {
    LowerIdempotent(searchQuery);
  }

  /** With "newest" and every kept record's date parsing, adjacent output timestamps never increase. */
  lemma NewestFirstOutput(interviews: seq<Interview>, statusFilter: string, searchQuery: string, parse: DateParser)
    requires AllDated(Filter(interviews, Keeps(statusFilter, searchQuery)), parse)
    ensures var r := FilteredInterviews(interviews, statusFilter, Newest, searchQuery, parse);
      AllDated(r, parse) &&
      forall i :: 0 < i < |r| ==> Timestamp(r[i], parse).value <= Timestamp(r[i - 1], parse).value
  {
    NewestFirst(Filter(interviews, Keeps(statusFilter, searchQuery)), parse);
  }

  /** With any other sort order and every kept record's date parsing, adjacent output timestamps never decrease. */
  lemma OldestFirstOutput(
    interviews: seq<Interview>, statusFilter: string, sortOrder: string, searchQuery: string,
    parse: DateParser)
    requires sortOrder != Newest
    requires AllDated(Filter(interviews, Keeps(statusFilter, searchQuery)), parse)
    ensures var r := FilteredInterviews(interviews, statusFilter, sortOrder, searchQuery, parse);
      AllDated(r, parse) &&
      forall i :: 0 < i < |r| ==> Timestamp(r[i - 1], parse).value <= Timestamp(r[i], parse).value
  {
    OldestFirst(Filter(interviews, Keeps(statusFilter, searchQuery)), sortOrder, parse);
  }

  /**
   * Records sharing a timestamp appear in the output in their input order: the output's
   * records at instant `when` are the input's records at `when` that pass both tests.
   */
  lemma EqualDatesKeepInputOrder(
    interviews: seq<Interview>, statusFilter: string, sortOrder: string, searchQuery: string,
    parse: DateParser, when: int)
    ensures Filter(FilteredInterviews(interviews, statusFilter, sortOrder, searchQuery, parse), DatedAt(parse, when))
         == Filter(Filter(interviews, DatedAt(parse, when)), Keeps(statusFilter, searchQuery))
  {
    var keeps := Keeps(statusFilter, searchQuery);
    SortKeepsEqualDatesInOrder(Filter(interviews, keeps), sortOrder, parse, when);
    FilterCommutes(interviews, keeps, DatedAt(parse, when));
  }

  // ---------------------------------------------------------------------------
  // The criteria
  // ---------------------------------------------------------------------------

  /** The three criteria the list applies. */
  datatype Criteria = Criteria(statusFilter: string, sortOrder: string, searchQuery: string)
  {
    /** `hasActiveFilters`: some criterion differs from its initial value. */
    predicate HasActiveFilters(): (active: bool)
      ensures active <==> this != DefaultCriteria
      ensures !active ==> statusFilter == All && sortOrder == Newest && searchQuery == ""
    {
      statusFilter != All || sortOrder != Newest || searchQuery != ""
    }
  }

  /** The initial criteria, and what "Clear" restores. */
  const DefaultCriteria: Criteria := Criteria(All, Newest, "")

  /** The component's state: one field per `useState` hook, changed by its setter. */
  class ListFilters {
    var statusFilter: string
    var sortOrder: string
    var searchQuery: string

    function Current(): Criteria
      reads this
    {
      Criteria(statusFilter, sortOrder, searchQuery)
    }

    /** The initial state: status "all", sort "newest", empty query. */
    constructor ()
      ensures Current() == DefaultCriteria
      ensures !Current().HasActiveFilters()
    {
      statusFilter, sortOrder, searchQuery := All, Newest, "";
    }

    /** The status tabs' `onValueChange`. */
    method SetStatusFilter(value: string)
      modifies this
      ensures Current() == old(Current()).(statusFilter := value)
    {
      statusFilter := value;
    }

    /** The sort select's `onValueChange`. */
    method SetSortOrder(value: string)
      modifies this
      ensures Current() == old(Current()).(sortOrder := value)
    {
      sortOrder := value;
    }

    /** The search input's `onChange`. */
    method SetSearchQuery(value: string)
      modifies this
      ensures Current() == old(Current()).(searchQuery := value)
    {
      searchQuery := value;
    }

    /** The X button inside the search box empties the query and nothing else. */
    method ClearSearch()
      modifies this
      ensures Current() == old(Current()).(searchQuery := "")
    {
      searchQuery := "";
    }

    /** `clearFilters`: back to the defaults, whatever the state was. */
    method ClearFilters()
      modifies this
      ensures Current() == DefaultCriteria
      ensures !Current().HasActiveFilters()
    {
      statusFilter := All;
      sortOrder := Newest;
      searchQuery := "";
    }
  }

  // ---------------------------------------------------------------------------
  // What the list shows
  // ---------------------------------------------------------------------------

  /** The "Showing N of M interviews" line, with the status badge when a status is chosen. */
  datatype Summary = Summary(showing: nat, total: nat, statusBadge: Option<string>)

  /** The two wordings of the empty state. */
  datatype EmptyMessage = NoInterviewsAvailable | NoInterviewsMatch

  /** Below the controls: the cards of the filtered records, or the empty state. */
  datatype Body =
    | Cards(cards: seq<CardView>)
    | EmptyState(message: EmptyMessage, clearAllButton: bool)

  /** Everything of the list's output that depends on data rather than on styling. */
  datatype ListView = ListView(
    searchClearButton: bool,
    clearButton: bool,
    summary: Option<Summary>,
    body: Body)

  /** What the list component shows for the records `interviews` under the criteria `c`. */
  function Render(interviews: seq<Interview>, c: Criteria, parse: DateParser, format: DateFormatter): (v: ListView)
    ensures v.clearButton <==> c.HasActiveFilters()
    ensures v.searchClearButton <==> c.searchQuery != ""
    ensures var filtered := FilteredInterviews(interviews, c.statusFilter, c.sortOrder, c.searchQuery, parse);
      (v.body.Cards? <==> |filtered| > 0) &&
      (v.summary.Some? <==> |filtered| > 0) &&
      (v.body.EmptyState? ==> (v.body.message == NoInterviewsAvailable <==> interviews == [])) &&
      (v.body.Cards? ==>
        |v.body.cards| == |filtered| &&
        forall k :: 0 <= k < |filtered| ==> v.body.cards[k] == RenderCard(filtered[k], parse, format))
  {
    var filtered := FilteredInterviews(interviews, c.statusFilter, c.sortOrder, c.searchQuery, parse);
    ListView(
      c.searchQuery != "",
      c.HasActiveFilters(),
      if |filtered| > 0 then
        Some(Summary(|filtered|, |interviews|, if c.statusFilter != All then Some(c.statusFilter) else None))
      else None,
      if |filtered| > 0 then
        Cards(seq(|filtered|, k requires 0 <= k < |filtered| => RenderCard(filtered[k], parse, format)))
      else EmptyState(
        if |interviews| == 0 then NoInterviewsAvailable else NoInterviewsMatch,
        |interviews| > 0 && c.HasActiveFilters()))
  }

  /** The count line appears exactly when there are cards, and its count never exceeds the total. */
  lemma SummaryCounts(interviews: seq<Interview>, c: Criteria, parse: DateParser, format: DateFormatter)
    ensures var v := Render(interviews, c, parse, format);
      (v.summary.Some? <==> v.body.Cards?) &&
      (v.summary.Some? ==>
        v.summary.value.showing == |v.body.cards| &&
        v.summary.value.total == |interviews| &&
        v.summary.value.showing <= v.summary.value.total &&
        (v.summary.value.statusBadge.Some? <==> c.statusFilter != All) &&
        (v.summary.value.statusBadge.Some? ==> v.summary.value.statusBadge.value == c.statusFilter))
  {
  }

  /** Every shown card's "View Details" passes the identifier of a record of the input. */
  lemma ViewDetailsNamesAShownRecord(
    interviews: seq<Interview>, c: Criteria, parse: DateParser, format: DateFormatter, k: int)
    requires Render(interviews, c, parse, format).body.Cards?
    requires 0 <= k < |Render(interviews, c, parse, format).body.cards|
    ensures exists x :: x in interviews && Render(interviews, c, parse, format).body.cards[k].viewDetailsId == x.id
  {
    var filtered := FilteredInterviews(interviews, c.statusFilter, c.sortOrder, c.searchQuery, parse);
    assert filtered[k] in filtered;
  }

  /** "No interviews available" is shown exactly when there are no records at all. */
  lemma NoInterviewsMessageIffEmpty(interviews: seq<Interview>, c: Criteria, parse: DateParser, format: DateFormatter)
    ensures Render(interviews, c, parse, format).body == EmptyState(NoInterviewsAvailable, false)
        <==> interviews == []
  {
  }

  /**
   * The empty state offers "Clear All Filters" only with records present and filters active;
   * and whenever records exist but none match, it does offer it, for with the default
   * criteria every record would be shown.
   */
  lemma ClearAllButtonCondition(interviews: seq<Interview>, c: Criteria, parse: DateParser, format: DateFormatter)
    ensures var v := Render(interviews, c, parse, format);
      (v.body.EmptyState? && v.body.clearAllButton ==> interviews != [] && c.HasActiveFilters()) &&
      (v.body.EmptyState? && interviews != [] ==> v.body == EmptyState(NoInterviewsMatch, true))
  {
    if !c.HasActiveFilters() {
      DefaultsKeepEverything(interviews, c.sortOrder, parse);
      var filtered := FilteredInterviews(interviews, c.statusFilter, c.sortOrder, c.searchQuery, parse);
      if interviews != [] {
        assert interviews[0] in multiset(interviews);
        assert |filtered| > 0;
      }
    }
  }
}
