/**
 * One tournament's page: joining, the join-disabled and Full/Open rules,
 * and the bracket's score cells, whose winner highlight compares the two
 * halves of a score such as "5-3" as strings.
 */
module TournamentDetailsPage {
  import opened JsText

  const MockParticipantCount := 16
  const MockMaxParticipants := 16

  /** The bracket scores in page order: quarter-finals, semi-finals, final. */
  function MockScores(): seq<string> {
    ["5-3", "5-4", "5-2", "5-1", "-", "-", "-"]
  }

  // ---------------------------------------------------------------------
  // Joining and registration
  // ---------------------------------------------------------------------

  /** The Join button is disabled once joined or when the field is full. */
  predicate JoinDisabled(isJoined: bool, participantCount: int, maxParticipants: int) {
    isJoined || participantCount >= maxParticipants
  }

  /** The registration label. */
  function RegistrationLabel(participantCount: int, maxParticipants: int): (r: string)
    ensures r == "Full" <==> participantCount >= maxParticipants
    ensures r == "Open" <==> participantCount < maxParticipants
  {
    if participantCount >= maxParticipants then "Full" else "Open"
  }

  /** A full tournament cannot be joined, and an open one can until joined. */
  lemma JoinDisabledIff(isJoined: bool, participantCount: int, maxParticipants: int)
    ensures RegistrationLabel(participantCount, maxParticipants) == "Full" ==> JoinDisabled(isJoined, participantCount, maxParticipants)
    ensures RegistrationLabel(participantCount, maxParticipants) == "Open" ==>
      (JoinDisabled(isJoined, participantCount, maxParticipants) <==> isJoined)
  {
  }

  /** The page's tournament is full, so its Join button is always disabled. */
  lemma MockTournamentFull(isJoined: bool)
    ensures RegistrationLabel(MockParticipantCount, MockMaxParticipants) == "Full"
    ensures JoinDisabled(isJoined, MockParticipantCount, MockMaxParticipants)
  {
  }

  class DetailsPage {
    var isJoined: bool

    constructor ()
      ensures !isJoined
    {
      isJoined := false;
    }

    /** `handleJoinTournament`: joined, and joining again changes nothing. */
    method HandleJoinTournament()
      modifies this
      ensures isJoined
    {
      isJoined := true;
    }
  }

  // ---------------------------------------------------------------------
  // Bracket score cells
  // ---------------------------------------------------------------------

  /** `score.split('-')[k]`: `None` (undefined) past the last piece. */
  function Part(score: string, k: nat): Option<string> {
    var parts := Split(score, '-');
    if k < |parts| then Some(parts[k]) else None
  }

  /** `a > b` on two strings: code-unit order, and false when either is undefined. */
  predicate StringGreater(a: Option<string>, b: Option<string>) {
    a.Some? && b.Some? && LexLess(b.value, a.value)
  }

  /** The text of a score cell: `score !== '-' ? score.split('-')[k] : ''`, where undefined renders nothing. */
  function Cell(score: string, k: nat): string {
    if score == "-" then "" else match Part(score, k) case Some(p) => p case None => ""
  }

  /** Team 1's score is highlighted, comparing the halves as strings. */
  predicate Team1HighlightedAsWritten(score: string)
    ensures Team1HighlightedAsWritten(score) ==> Cell(score, 0) != "" && Cell(score, 0) != Cell(score, 1)
  {
    score != "-" && StringGreater(Part(score, 0), Part(score, 1))
    && (LexLessIrreflexive(Part(score, 0).value); true)
  }

  /** Team 2's score is highlighted, comparing the halves as strings. */
  predicate Team2HighlightedAsWritten(score: string)
    ensures Team2HighlightedAsWritten(score) ==> Cell(score, 1) != "" && Cell(score, 1) != Cell(score, 0)
  {
    score != "-" && StringGreater(Part(score, 1), Part(score, 0))
    && (LexLessIrreflexive(Part(score, 1).value); true)
  }

  /** An unplayed match shows two empty cells and no highlight. */
  lemma UnplayedShowsNothing()
    ensures Cell("-", 0) == "" && Cell("-", 1) == ""
    ensures !Team1HighlightedAsWritten("-") && !Team2HighlightedAsWritten("-")
  {
  }

  /** The two sides are never highlighted together. */
  lemma NeverBothHighlightedAsWritten(score: string)
    ensures !(Team1HighlightedAsWritten(score) && Team2HighlightedAsWritten(score))
  {
    if Part(score, 0).Some? && Part(score, 1).Some? {
      LexLessAsymmetric(Part(score, 0).value, Part(score, 1).value);
    }
  }

  /** A score written as two numbers with a hyphen. */
  function ScoreText(a: nat, b: nat): string {
    IntToString(a) + "-" + IntToString(b)
  }

  lemma SplitScoreText(a: nat, b: nat)
    ensures Split(ScoreText(a, b), '-') == [IntToString(a), IntToString(b)]
  {
    SplitAtSeparator(IntToString(a), '-', IntToString(b));
    SplitWithoutSeparator(IntToString(b), '-');
    assert ScoreText(a, b) == IntToString(a) + ['-'] + IntToString(b);
  }

  /** The cells show the two numbers of the score, in order. */
  lemma ScoreCells(a: nat, b: nat)
    ensures Cell(ScoreText(a, b), 0) == IntToString(a)
    ensures Cell(ScoreText(a, b), 1) == IntToString(b)
  {
    SplitScoreText(a, b);
    assert ScoreText(a, b)[|IntToString(a)|] == '-';
    assert |ScoreText(a, b)| > 1;
  }

  /** The schedule shows the score of a played match and "Not played yet" otherwise. */
  function ScheduleText(score: string): (r: string)
    ensures score != "-" ==> r == score
    ensures score == "-" ==> r == "Not played yet"
  {
    if score != "-" then score else "Not played yet"
  }

  // ---------------------------------------------------------------------
  // The string comparison of the halves, and the numeric one intended
  // ---------------------------------------------------------------------

  /** With "10-9" the string comparison highlights the losing side and not the winner. */
  lemma TenNineHighlightsLoser()
    ensures Team2HighlightedAsWritten("10-9")
    ensures !Team1HighlightedAsWritten("10-9")
  {
    SplitAtSeparator("10", '-', "9");
    SplitWithoutSeparator("9", '-');
    assert "10-9" == "10" + ['-'] + "9";
    assert Split("10-9", '-') == ["10", "9"];
    assert LexLess("10", "9");
    LexLessAsymmetric("10", "9");
  }

  /** `parseInt(a) > parseInt(b)`, false when either is NaN or undefined. */
  predicate NumberGreater(a: Option<string>, b: Option<string>) {
    a.Some? && b.Some? && ParseInt(a.value).Some? && ParseInt(b.value).Some?
    && ParseInt(a.value).value > ParseInt(b.value).value
  }

  /** Team 1's score is highlighted, comparing the halves as numbers. */
  predicate Team1Highlighted(score: string) {
    score != "-" && NumberGreater(Part(score, 0), Part(score, 1))
  }

  /** Team 2's score is highlighted, comparing the halves as numbers. */
  predicate Team2Highlighted(score: string) {
    score != "-" && NumberGreater(Part(score, 1), Part(score, 0))
  }

  /** Compared as numbers, the side with more goals is highlighted, whatever the number of digits. */
  lemma HighlightsWinner(a: nat, b: nat)
    ensures Team1Highlighted(ScoreText(a, b)) <==> a > b
    ensures Team2Highlighted(ScoreText(a, b)) <==> b > a
  {
    SplitScoreText(a, b);
    ParseIntOfIntToString(a);
    ParseIntOfIntToString(b);
    assert ScoreText(a, b)[|IntToString(a)|] == '-';
    assert |ScoreText(a, b)| > 1;
  }

  /** The numeric comparison highlights Team 1 for "10-9". */
  lemma TenNineHighlightsWinner()
    ensures Team1Highlighted("10-9") && !Team2Highlighted("10-9")
  {
    assert NatToString(1) == "1" && NatToString(0) == "0";
    assert NatToString(10) == "10";
    assert ScoreText(10, 9) == "10-9";
    HighlightsWinner(10, 9);
  }

  /** For single-digit scores, such as every played match of the page, both comparisons agree. */
  lemma SingleDigitsAgree(a: nat, b: nat)
    requires a < 10 && b < 10
    ensures Team1HighlightedAsWritten(ScoreText(a, b)) <==> Team1Highlighted(ScoreText(a, b))
    ensures Team2HighlightedAsWritten(ScoreText(a, b)) <==> Team2Highlighted(ScoreText(a, b))
  {
    SplitScoreText(a, b);
    HighlightsWinner(a, b);
    assert ScoreText(a, b)[|IntToString(a)|] == '-';
    assert |ScoreText(a, b)| > 1;
    assert IntToString(a) == [DigitChar(a)] && IntToString(b) == [DigitChar(b)];
    SingleCharLess(DigitChar(a), DigitChar(b));
    SingleCharLess(DigitChar(b), DigitChar(a));
  }

  lemma SingleCharLess(x: char, y: char)
    ensures LexLess([x], [y]) <==> x < y
  {
    assert [x][1..] == [] && [y][1..] == [];
  }
}
