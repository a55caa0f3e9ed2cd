/**
 * The tournaments list: search and status-tab filter, the sort selector,
 * deletion by id, the create and join guards, and the Full / spots-left
 * rule of each card.
 */
module TournamentsPage {
  import opened JsText
  import opened Lists
  import opened StableSort

  /** A tournament as the page uses it; dates are day keys (`20230615` for 2023-06-15). */
  datatype Tournament = Tournament(
    id: int, name: string, date: int, location: string,
    participants: int, maxParticipants: int, status: string)

  function MockTournaments(): seq<Tournament> {
    [ Tournament(1, "Munich Spring Championship", 20230615, "Spielbar, Sonnenstraße 12", 16, 16, "upcoming"),
      Tournament(2, "Weekly Kicker Tournament", 20230610, "TU München Main Campus", 8, 12, "upcoming"),
      Tournament(3, "Bavarian Kicker Cup", 20230705, "Augustiner Keller", 24, 32, "upcoming"),
      Tournament(4, "TU München Showdown", 20230520, "TU München Main Campus", 16, 16, "completed"),
      Tournament(5, "Munich Winter Cup", 20230115, "Munich Indoor Sports Center", 12, 12, "completed") ]
  }

  // ---------------------------------------------------------------------
  // Filter and sort
  // ---------------------------------------------------------------------

  /** The search hit in the name or the location, and the status equal to the active tab. */
  predicate Keep(t: Tournament, tab: string, term: string) {
    (MatchesSearch(t.name, term) || MatchesSearch(t.location, term)) && t.status == tab
  }

  /** The sort callback for the selected key. */
  function CompareBy(sortBy: string): (Tournament, Tournament) -> int {
    (a: Tournament, b: Tournament) =>
      if sortBy == "date" then a.date - b.date
      else if sortBy == "name" then LocaleCompare(a.name, b.name)
      else if sortBy == "participants" then b.participants - a.participants
      else 0
  }

  /** `filteredTournaments` */
  function FilteredTournaments(ts: seq<Tournament>, tab: string, term: string, sortBy: string): (r: seq<Tournament>)
    ensures |r| <= |ts|
    ensures forall i | 0 <= i < |r| :: r[i].status == tab
  {
    var f := Filter(ts, (t: Tournament) => Keep(t, tab, term));
    var r := Sort(f, CompareBy(sortBy));
    assert forall i | 0 <= i < |r| :: r[i] in f by {
      forall i | 0 <= i < |r| ensures r[i] in f {
        assert r[i] in multiset(r);
      }
    }
    r
  }

  lemma CompareByCoherent(sortBy: string)
    ensures Coherent(CompareBy(sortBy))
  {
    var cmp := CompareBy(sortBy);
    forall x: Tournament, y: Tournament | cmp(x, y) > 0 ensures cmp(y, x) <= 0 {
      if sortBy != "date" && sortBy == "name" {
        LocaleCompareAntisymmetric(x.name, y.name);
      }
    }
  }

  /** A tournament is listed exactly when it is kept by the filter: its tab and a search hit. */
  lemma FilteredMembership(ts: seq<Tournament>, tab: string, term: string, sortBy: string)
    ensures var r := FilteredTournaments(ts, tab, term, sortBy);
      multiset(r) == multiset(Filter(ts, (t: Tournament) => Keep(t, tab, term)))
      && (forall i | 0 <= i < |r| :: r[i] in ts && r[i].status == tab)
      && (forall i | 0 <= i < |ts| :: Keep(ts[i], tab, term) ==> ts[i] in r)
  {
    var f := Filter(ts, (t: Tournament) => Keep(t, tab, term));
    var r := FilteredTournaments(ts, tab, term, sortBy);
    forall i | 0 <= i < |r| ensures r[i] in f {
      assert r[i] in multiset(r);
    }
    forall i | 0 <= i < |ts| && Keep(ts[i], tab, term) ensures ts[i] in r {
      assert ts[i] in f;
      assert ts[i] in multiset(f);
    }
  }

  /** Sorting by date lists the earliest first. */
  lemma DateSortAscending(ts: seq<Tournament>, tab: string, term: string)
    ensures var r := FilteredTournaments(ts, tab, term, "date");
      forall i | 0 <= i < |r| - 1 :: r[i].date <= r[i + 1].date
  {
    CompareByCoherent("date");
    SortSorted(Filter(ts, (t: Tournament) => Keep(t, tab, term)), CompareBy("date"));
  }

  /** Sorting by name lists the names in ascending order. */
  lemma NameSortAscending(ts: seq<Tournament>, tab: string, term: string)
    ensures var r := FilteredTournaments(ts, tab, term, "name");
      forall i | 0 <= i < |r| - 1 :: LocaleCompare(r[i].name, r[i + 1].name) <= 0
  {
    CompareByCoherent("name");
    SortSorted(Filter(ts, (t: Tournament) => Keep(t, tab, term)), CompareBy("name"));
  }

  /** Sorting by participants lists the largest field first. */
  lemma ParticipantsSortDescending(ts: seq<Tournament>, tab: string, term: string)
    ensures var r := FilteredTournaments(ts, tab, term, "participants");
      forall i | 0 <= i < |r| - 1 :: r[i].participants >= r[i + 1].participants
  {
    CompareByCoherent("participants");
    SortSorted(Filter(ts, (t: Tournament) => Keep(t, tab, term)), CompareBy("participants"));
  }

  /** Any other sort key keeps the list order. */
  lemma OtherSortKeepsOrder(ts: seq<Tournament>, tab: string, term: string, sortBy: string)
    requires sortBy != "date" && sortBy != "name" && sortBy != "participants"
    ensures FilteredTournaments(ts, tab, term, sortBy) == Filter(ts, (t: Tournament) => Keep(t, tab, term))
  {
    SortAllEqual(Filter(ts, (t: Tournament) => Keep(t, tab, term)), CompareBy(sortBy));
  }

  // ---------------------------------------------------------------------
  // Delete
  // ---------------------------------------------------------------------

  /** `tournaments.filter(t => t.id !== id)` */
  function DeleteById(ts: seq<Tournament>, id: int): (r: seq<Tournament>)
    ensures forall i | 0 <= i < |r| :: r[i].id != id && r[i] in ts
    ensures forall i | 0 <= i < |ts| :: ts[i].id != id ==> ts[i] in r
  {
    Filter(ts, (t: Tournament) => t.id != id)
  }

  /** Deleting removes one entry per occurrence of the id and nothing else. */
  lemma DeleteCount(ts: seq<Tournament>, id: int)
    ensures |DeleteById(ts, id)| == |ts| - Count(ts, (t: Tournament) => t.id == id)
  {
    DeleteCountRec(ts, id);
  }

  lemma {:induction false} DeleteCountRec(ts: seq<Tournament>, id: int)
    ensures |Filter(ts, (t: Tournament) => t.id != id)| + Count(ts, (t: Tournament) => t.id == id) == |ts|
    decreases |ts|
  {
    if ts != [] {
      DeleteCountRec(ts[1..], id);
    }
  }

  /** Deleting an id that is not listed changes nothing; so a second delete of the same id changes nothing. */
  lemma DeleteIdempotent(ts: seq<Tournament>, id: int)
    ensures DeleteById(DeleteById(ts, id), id) == DeleteById(ts, id)
    ensures (forall i | 0 <= i < |ts| :: ts[i].id != id) ==> DeleteById(ts, id) == ts
  {
    FilterIdempotent(ts, (t: Tournament) => t.id != id);
    if forall i | 0 <= i < |ts| :: ts[i].id != id {
      FilterKeepsAll(ts, (t: Tournament) => t.id != id);
    }
  }

  // ---------------------------------------------------------------------
  // Create and join guards, card rules
  // ---------------------------------------------------------------------

  datatype CreateOutcome = AskToLogIn | AskToSubscribe | GoTo(route: string)

  /**
   * `handleCreateTournament`. `isPremium` is `user?.isPremium`: `None`
   * when there is no user.
   */
  function HandleCreateTournament(isAuthenticated: bool, isPremium: Option<bool>): (r: CreateOutcome)
    ensures r.GoTo? <==> isAuthenticated && isPremium == Some(true)
    ensures r == AskToLogIn <==> !isAuthenticated
    ensures r.GoTo? ==> r.route == "/tournaments/create"
  {
    if !isAuthenticated then AskToLogIn
    else if isPremium != Some(true) then AskToSubscribe
    else GoTo("/tournaments/create")
  }

  /** The delete control is rendered for premium users only. */
  predicate DeleteVisible(isPremium: Option<bool>) {
    isPremium == Some(true)
  }

  /** Whoever may create a tournament also sees the delete control. */
  lemma CreatorsSeeDelete(isAuthenticated: bool, isPremium: Option<bool>)
    ensures HandleCreateTournament(isAuthenticated, isPremium).GoTo? ==> DeleteVisible(isPremium)
  {
  }

  datatype JoinToast = LogInRequired | Joined

  /** A tournament is full when its participants reach the maximum. */
  predicate Full(t: Tournament) {
    t.participants >= t.maxParticipants
  }

  /** The label above the Join button: "Full", or the number of spots left. */
  function SpotsLabel(t: Tournament): (r: string)
    ensures r == "Full" <==> Full(t)
  {
    if Full(t) then "Full"
    else
      var text := IntToString(t.maxParticipants - t.participants) + " spots left";
      assert text[0] == IntToString(t.maxParticipants - t.participants)[0];
      text
  }

  /** The number of spots left, read back from the label, is positive: maximum minus participants. */
  lemma SpotsLabelReadsBack(t: Tournament)
    requires !Full(t)
    ensures ParseInt(SpotsLabel(t)) == Some(t.maxParticipants - t.participants)
    ensures t.maxParticipants - t.participants > 0
  {
    ParseIntOfIntToStringThen(t.maxParticipants - t.participants, " spots left");
  }

  /** The Join button is disabled exactly for a full tournament. */
  predicate JoinDisabled(t: Tournament) {
    t.participants >= t.maxParticipants
  }

  lemma JoinDisabledIffFull(t: Tournament)
    ensures JoinDisabled(t) <==> SpotsLabel(t) == "Full"
  {
  }

  class TournamentsList {
    var tournaments: seq<Tournament>

    constructor ()
      ensures tournaments == MockTournaments()
    {
      tournaments := MockTournaments();
    }

    /** `handleDeleteTournament(id)` */
    method HandleDeleteTournament(id: int)
      modifies this
      ensures tournaments == DeleteById(old(tournaments), id)
    {
      tournaments := Filter(tournaments, (t: Tournament) => t.id != id);
    }

    /** `handleJoinTournament`: a toast only; the list is not touched. */
    method HandleJoinTournament(id: int, isAuthenticated: bool) returns (toast: JoinToast)
      ensures toast == Joined <==> isAuthenticated
    {
      if !isAuthenticated {
        return LogInRequired;
      }
      return Joined;
    }
  }
}
