/**
 * The matches list: search and tab filter, the sort selector, the status
 * badge, the "Record Result" gating and the quick-stat counts, over the
 * page's constant list of matches.
 */
module MatchesPage {
  import opened JsText
  import opened Lists
  import opened StableSort

  /**
   * A match as the page uses it. Dates are day keys (`20230510` for
   * 2023-05-10), whose order and differences' signs are those of the
   * timestamps the page subtracts.
   */
  datatype Match = Match(
    id: int, kind: string, date: int, location: string, status: string,
    resultStatus: Option<string>, score1: Option<int>, score2: Option<int>)

  function MockMatches(): seq<Match> {
    [ Match(1, "Friendly Match", 20230510, "TU München Main Campus", "completed",
            Some("pending_confirmation"), Some(5), Some(3)),
      Match(2, "Tournament Match", 20230515, "Spielbar München", "scheduled",
            None, None, None),
      Match(3, "Friendly Match", 20230508, "Campus Pub", "completed",
            Some("confirmed"), Some(2), Some(5)) ]
  }

  // ---------------------------------------------------------------------
  // Filter and sort
  // ---------------------------------------------------------------------

  /** The search hit: the term occurs, ignoring case, in the type or the location. */
  predicate SearchHit(m: Match, term: string) {
    MatchesSearch(m.kind, term) || MatchesSearch(m.location, term)
  }

  /** The filter callback for the active tab. */
  predicate Keep(m: Match, tab: string, term: string) {
    if tab == "all" then SearchHit(m, term)
    else if tab == "scheduled" then SearchHit(m, term) && m.status == "scheduled"
    else if tab == "completed" then SearchHit(m, term) && m.status == "completed"
    else SearchHit(m, term)
  }

  /** The sort callback for the selected key. */
  function CompareBy(sortBy: string): (Match, Match) -> int {
    (a: Match, b: Match) =>
      if sortBy == "date" then b.date - a.date
      else if sortBy == "type" then LocaleCompare(a.kind, b.kind)
      else 0
  }

  /** `filteredMatches` */
  function FilteredMatches(matches: seq<Match>, tab: string, term: string, sortBy: string): (r: seq<Match>)
    ensures |r| <= |matches|
    ensures tab == "scheduled" ==> forall i | 0 <= i < |r| :: r[i].status == "scheduled"
    ensures tab == "completed" ==> forall i | 0 <= i < |r| :: r[i].status == "completed"
  {
    var f := Filter(matches, (m: Match) => Keep(m, tab, term));
    var r := Sort(f, CompareBy(sortBy));
    assert forall i | 0 <= i < |r| :: r[i] in f by {
      forall i | 0 <= i < |r| ensures r[i] in f {
        assert r[i] in multiset(r);
      }
    }
    r
  }

  lemma CompareByCoherent(sortBy: string)
    ensures Coherent(CompareBy(sortBy))
  {
    var cmp := CompareBy(sortBy);
    forall x: Match, y: Match | cmp(x, y) > 0 ensures cmp(y, x) <= 0 {
      if sortBy != "date" && sortBy == "type" {
        LocaleCompareAntisymmetric(x.kind, y.kind);
      }
    }
  }

  /**
   * A match is listed exactly when it is in the list and kept by the
   * filter, as often as it occurs there.
   */
  lemma FilteredMembership(matches: seq<Match>, tab: string, term: string, sortBy: string)
    ensures var r := FilteredMatches(matches, tab, term, sortBy);
      multiset(r) == multiset(Filter(matches, (m: Match) => Keep(m, tab, term)))
      && (forall i | 0 <= i < |r| :: r[i] in matches && Keep(r[i], tab, term))
      && (forall i | 0 <= i < |matches| :: Keep(matches[i], tab, term) ==> matches[i] in r)
  {
    var f := Filter(matches, (m: Match) => Keep(m, tab, term));
    var r := FilteredMatches(matches, tab, term, sortBy);
    forall i | 0 <= i < |r| ensures r[i] in f {
      assert r[i] in multiset(r);
    }
    forall i | 0 <= i < |matches| && Keep(matches[i], tab, term) ensures matches[i] in r {
      assert matches[i] in f;
      assert matches[i] in multiset(f);
    }
  }

  /** On the "all" tab, and on any tab the page does not know, only the search counts. */
  lemma OtherTabsSearchOnly(m: Match, tab: string, term: string)
    requires tab != "scheduled" && tab != "completed"
    ensures Keep(m, tab, term) <==> SearchHit(m, term)
  {
  }

  /** Sorting by date lists the newest match first. */
  lemma DateSortNewestFirst(matches: seq<Match>, tab: string, term: string)
    ensures var r := FilteredMatches(matches, tab, term, "date");
      forall i | 0 <= i < |r| - 1 :: r[i].date >= r[i + 1].date
  {
    var f := Filter(matches, (m: Match) => Keep(m, tab, term));
    CompareByCoherent("date");
    SortSorted(f, CompareBy("date"));
  }

  /** Sorting by type lists the types in ascending order. */
  lemma TypeSortAscending(matches: seq<Match>, tab: string, term: string)
    ensures var r := FilteredMatches(matches, tab, term, "type");
      forall i | 0 <= i < |r| - 1 :: LocaleCompare(r[i].kind, r[i + 1].kind) <= 0
  {
    var f := Filter(matches, (m: Match) => Keep(m, tab, term));
    CompareByCoherent("type");
    SortSorted(f, CompareBy("type"));
  }

  /** Any other sort key compares every pair as equal and keeps the list order. */
  lemma OtherSortKeepsOrder(matches: seq<Match>, tab: string, term: string, sortBy: string)
    requires sortBy != "date" && sortBy != "type"
    ensures FilteredMatches(matches, tab, term, sortBy) == Filter(matches, (m: Match) => Keep(m, tab, term))
  {
    SortAllEqual(Filter(matches, (m: Match) => Keep(m, tab, term)), CompareBy(sortBy));
  }

  // ---------------------------------------------------------------------
  // Badge, score and gating
  // ---------------------------------------------------------------------

  datatype Badge = Scheduled | Completed | PendingConfirmation | NeedsResult | Raw(text: string)

  /** `getStatusBadge(match)` */
  function StatusBadge(m: Match): (b: Badge)
    ensures b == Scheduled <==> m.status == "scheduled"
    ensures b == Completed <==> m.status == "completed" && m.resultStatus == Some("confirmed")
    ensures b == PendingConfirmation <==> m.status == "completed" && m.resultStatus == Some("pending_confirmation")
    ensures b == NeedsResult <==>
      m.status == "completed" && m.resultStatus != Some("confirmed") && m.resultStatus != Some("pending_confirmation")
    ensures b.Raw? <==> m.status != "scheduled" && m.status != "completed"
    ensures b.Raw? ==> b.text == m.status
  {
    if m.status == "scheduled" then Scheduled
    else if m.status == "completed" then
      if m.resultStatus == Some("confirmed") then Completed
      else if m.resultStatus == Some("pending_confirmation") then PendingConfirmation
      else NeedsResult
    else Raw(m.status)
  }

  /** `!match.resultStatus`: null and the empty string are both falsy. */
  predicate NoResultStatus(m: Match) {
    m.resultStatus.None? || m.resultStatus == Some("")
  }

  /** "Record Result" is offered for a completed match with no result status, to a signed-in user. */
  predicate ShowRecordResult(m: Match, isAuthenticated: bool) {
    m.status == "completed" && NoResultStatus(m) && isAuthenticated
  }

  /** A match offering "Record Result" carries the "Needs Result" badge. */
  lemma RecordResultNeedsResult(m: Match, isAuthenticated: bool)
    requires ShowRecordResult(m, isAuthenticated)
    ensures StatusBadge(m) == NeedsResult
  {
  }

  /** The score is shown when both team scores are present. */
  predicate ShowsScore(m: Match) {
    m.score1.Some? && m.score2.Some?
  }

  /** In the listed matches a score is shown exactly for the completed ones, and never beside "Record Result". */
  lemma MockScoresShown(isAuthenticated: bool)
    ensures forall i | 0 <= i < |MockMatches()| ::
      ShowsScore(MockMatches()[i]) <==> MockMatches()[i].status == "completed"
    ensures forall i | 0 <= i < |MockMatches()| ::
      !(ShowsScore(MockMatches()[i]) && ShowRecordResult(MockMatches()[i], isAuthenticated))
  {
  }

  /** No listed match offers "Record Result": each has a status or is not completed. */
  lemma MockOffersNoRecordResult(isAuthenticated: bool)
    ensures forall i | 0 <= i < |MockMatches()| :: !ShowRecordResult(MockMatches()[i], isAuthenticated)
  {
  }

  // ---------------------------------------------------------------------
  // Quick stats
  // ---------------------------------------------------------------------

  function ScheduledCount(matches: seq<Match>): nat {
    Count(matches, (m: Match) => m.status == "scheduled")
  }

  function CompletedCount(matches: seq<Match>): nat {
    Count(matches, (m: Match) => m.status == "completed")
  }

  function PendingCount(matches: seq<Match>): nat {
    Count(matches, (m: Match) => m.resultStatus == Some("pending_confirmation"))
  }

  /** The scheduled and completed counts never exceed the number of matches together. */
  lemma {:induction false} StatusCountsBounded(matches: seq<Match>)
    ensures ScheduledCount(matches) + CompletedCount(matches) <= |matches|
    decreases |matches|
  {
    if matches != [] {
      StatusCountsBounded(matches[1..]);
    }
  }

  /** The page shows 1 scheduled, 2 completed and 1 pending. */
  lemma MockCounts()
    ensures ScheduledCount(MockMatches()) == 1
    ensures CompletedCount(MockMatches()) == 2
    ensures PendingCount(MockMatches()) == 1
  {
    var ms := MockMatches();
    assert ms[1..][1..][1..] == [];
  }
}
