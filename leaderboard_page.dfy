/**
 * The leaderboard: player and team tables filtered by a search term,
 * ranked by their position in the filtered list, with a trend column.
 */
module LeaderboardPage {
  import opened JsText
  import opened Lists

  /** A player or a team row of the mock data. */
  datatype Entry = Entry(id: int, name: string, elo: int, wins: nat, losses: nat, trend: string, rankChange: int)

  function MockPlayers(): seq<Entry> {
    [ Entry(1, "Max Schmidt", 1850, 42, 12, "up", 2),
      Entry(2, "Julia Becker", 1820, 38, 15, "up", 1),
      Entry(3, "Thomas Müller", 1795, 36, 18, "down", 1),
      Entry(4, "Anna Weber", 1780, 32, 16, "same", 0),
      Entry(5, "Michael Fischer", 1760, 30, 20, "up", 3),
      Entry(6, "Sophie Wagner", 1740, 28, 18, "down", 2),
      Entry(7, "David Schneider", 1730, 26, 19, "up", 1),
      Entry(8, "Laura Meyer", 1710, 24, 21, "same", 0),
      Entry(9, "Christian Schulz", 1690, 22, 20, "down", 3),
      Entry(10, "Elena Hoffmann", 1680, 20, 22, "up", 4),
      Entry(11, "Markus Wolf", 1670, 19, 21, "down", 1),
      Entry(12, "Nina Koch", 1660, 18, 23, "same", 0),
      Entry(13, "Felix Bauer", 1650, 17, 22, "up", 2),
      Entry(14, "Lisa Richter", 1640, 16, 24, "down", 2),
      Entry(15, "Jonas Krause", 1630, 15, 25, "up", 1) ]
  }

  function MockTeams(): seq<Entry> {
    [ Entry(1, "Kicker Titans", 1920, 32, 8, "up", 0),
      Entry(2, "Munich Masters", 1890, 30, 10, "same", 0),
      Entry(3, "Table Wizards", 1860, 28, 12, "up", 2),
      Entry(4, "Foosball Fury", 1830, 26, 14, "down", 1),
      Entry(5, "Rod Rotators", 1810, 24, 16, "up", 3),
      Entry(6, "Spin Doctors", 1790, 22, 18, "down", 2),
      Entry(7, "Table Turners", 1770, 21, 19, "same", 0),
      Entry(8, "Ball Busters", 1750, 20, 20, "up", 1),
      Entry(9, "Rodmeisters", 1730, 19, 21, "down", 3),
      Entry(10, "Goal Getters", 1710, 18, 22, "up", 2) ]
  }

  // ---------------------------------------------------------------------
  // Filtering
  // ---------------------------------------------------------------------

  predicate NameMatches(e: Entry, term: string) {
    MatchesSearch(e.name, term)
  }

  /** `filteredPlayers` / `filteredTeams`: the entries whose name contains the term, ignoring case. */
  function Filtered(entries: seq<Entry>, term: string): (r: seq<Entry>)
    ensures |r| <= |entries|
    ensures forall i | 0 <= i < |r| :: r[i] in entries && NameMatches(r[i], term)
  {
    Filter(entries, (e: Entry) => NameMatches(e, term))
  }

  /** An entry is listed iff it is in the table and its name matches. */
  lemma FilteredMembership(entries: seq<Entry>, term: string, e: Entry)
    ensures e in Filtered(entries, term) <==> e in entries && NameMatches(e, term)
  {
    if e in entries && NameMatches(e, term) {
      var i :| 0 <= i < |entries| && entries[i] == e;
    }
    if e in Filtered(entries, term) {
      var i :| 0 <= i < |Filtered(entries, term)| && Filtered(entries, term)[i] == e;
    }
  }

  /** An empty search lists every entry in its original order. */
  lemma EmptyTermKeepsAll(entries: seq<Entry>)
    ensures Filtered(entries, "") == entries
  {
    forall i | 0 <= i < |entries|
      ensures NameMatches(entries[i], "")
    {
      EmptyTermMatchesAll(entries[i].name);
    }
    FilterKeepsAll(entries, (e: Entry) => NameMatches(e, ""));
  }

  /** When the first matching entry sits at position k, it heads the filtered list. */
  lemma {:induction false} FirstMatchHeadsList(entries: seq<Entry>, term: string, k: nat)
    requires k < |entries| && NameMatches(entries[k], term)
    requires forall j | 0 <= j < k :: !NameMatches(entries[j], term)
    ensures Filtered(entries, term) != [] && Filtered(entries, term)[0] == entries[k]
    decreases k
  {
    if k > 0 {
      FirstMatchHeadsList(entries[1..], term, k - 1);
    }
  }

  // ---------------------------------------------------------------------
  // Rows: rank, icon, matches played, trend
  // ---------------------------------------------------------------------

  /** `renderRankIcon`. */
  datatype RankIcon = Trophy | SilverMedal | BronzeMedal | Number(rank: int)

  function RankIconOf(rank: int): (r: RankIcon)
    ensures r.Number? <==> rank != 1 && rank != 2 && rank != 3
    ensures r.Number? ==> r.rank == rank
  {
    if rank == 1 then Trophy
    else if rank == 2 then SilverMedal
    else if rank == 3 then BronzeMedal
    else Number(rank)
  }

  /** `renderTrend`: an arrow and the shown change. */
  datatype Trend = Rising(shown: int) | Falling(shown: int) | Steady(shown: int)

  function TrendOf(trend: string, change: int): (r: Trend)
    ensures r.Rising? <==> trend == "up"
    ensures r.Falling? <==> trend == "down"
    ensures r.Steady? ==> r.shown == 0
    ensures !r.Steady? ==> r.shown == change
  {
    if trend == "up" then Rising(change)
    else if trend == "down" then Falling(change)
    else Steady(0)
  }

  /** A rendered row. */
  datatype Row = Row(rank: int, icon: RankIcon, entry: Entry, matchesPlayed: nat, trend: Trend)

  function RowAt(filtered: seq<Entry>, i: nat): Row
    requires i < |filtered|
  {
    var e := filtered[i];
    Row(i + 1, RankIconOf(i + 1), e, e.wins + e.losses, TrendOf(e.trend, e.rankChange))
  }

  /** `filtered.map((entry, index) => ...)`. */
  function Rows(filtered: seq<Entry>): (r: seq<Row>)
    ensures |r| == |filtered|
    ensures forall i | 0 <= i < |r| :: r[i] == RowAt(filtered, i)
  {
    seq(|filtered|, i requires 0 <= i < |filtered| => RowAt(filtered, i))
  }

  /** Ranks count from 1 down the filtered list; only its first three rows get a medal or trophy. */
  lemma RowsRanked(filtered: seq<Entry>)
    ensures forall i | 0 <= i < |Rows(filtered)| :: Rows(filtered)[i].rank == i + 1
    ensures forall i | 0 <= i < |Rows(filtered)| :: Rows(filtered)[i].icon.Number? <==> i >= 3
    ensures forall i | 0 <= i < |Rows(filtered)| ::
      Rows(filtered)[i].matchesPlayed == filtered[i].wins + filtered[i].losses
  {
  }

  /** The view's rows depend on the search term and category, not on the selected time range. */
  function Visible(players: bool, searchTerm: string, timeRange: string): seq<Row> {
    Rows(Filtered(if players then MockPlayers() else MockTeams(), searchTerm))
  }

  lemma TimeRangeIgnored(players: bool, searchTerm: string, range1: string, range2: string)
    ensures Visible(players, searchTerm, range1) == Visible(players, searchTerm, range2)
  {
  }

  /**
   * The rank shown is the position in the filtered list: when the first
   * match sits at position k of the table, it is shown with rank 1 and the
   * trophy, whatever k is.
   */
  lemma SearchedEntryRankedFirst(entries: seq<Entry>, term: string, k: nat)
    requires k < |entries| && NameMatches(entries[k], term)
    requires forall j | 0 <= j < k :: !NameMatches(entries[j], term)
    ensures Rows(Filtered(entries, term))[0].entry == entries[k]
    ensures Rows(Filtered(entries, term))[0].icon == Trophy
  {
    FirstMatchHeadsList(entries, term, k);
  }

  /** In the mock data a steady trend always carries a zero change, so nothing is hidden. */
  lemma MockSteadyTrendsAreZero()
    ensures forall i | 0 <= i < |MockPlayers()| :: MockPlayers()[i].trend == "same" ==> MockPlayers()[i].rankChange == 0
    ensures forall i | 0 <= i < |MockTeams()| :: MockTeams()[i].trend == "same" ==> MockTeams()[i].rankChange == 0
  {
  }
}
