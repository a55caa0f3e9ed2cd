/**
 * Recording a match result: the score schema (each score must parse with
 * `parseInt` and be non-negative, and the two may not tie), the live
 * winner shown beside the inputs, and the submitting flag.
 */
module RecordResultForm {
  import opened JsText

  datatype Field = Team1Score | Team2Score

  /** A schema message, with the field it is attached to. */
  datatype Issue = NotANumber(field: Field) | Negative(field: Field) | Tie(field: Field)

  /** `parseInt(val) >= 0`: false for NaN. */
  predicate NonNegative(n: Option<int>) {
    n.Some? && n.value >= 0
  }

  /** `parseInt(a) !== parseInt(b)`: true whenever either side is NaN. */
  predicate Differ(a: Option<int>, b: Option<int>) {
    !(a.Some? && b.Some? && a.value == b.value)
  }

  /**
   * Both refinements of one score field, given its `parseInt` value.
   * Refinements do not stop at the first failure, so a string that is not
   * a number gets both messages.
   */
  function ScoreIssues(f: Field, n: Option<int>): seq<Issue> {
    (if n.None? then [NotANumber(f)] else []) + (if NonNegative(n) then [] else [Negative(f)])
  }

  /** The object-level tie check, attached to `team1Score`. */
  function TieIssues(n1: Option<int>, n2: Option<int>): seq<Issue> {
    if Differ(n1, n2) then [] else [Tie(Team1Score)]
  }

  /**
   * Every message of the schema for two parsed scores, in order. The tie
   * check on the object runs even when a field already failed.
   */
  function ParsedIssues(n1: Option<int>, n2: Option<int>): seq<Issue> {
    ScoreIssues(Team1Score, n1) + ScoreIssues(Team2Score, n2) + TieIssues(n1, n2)
  }

  /**
   * The schema's messages for the two score strings: a score `parseInt`
   * cannot read is reported on its own field, and a tie only on `team1Score`.
   */
  function Issues(team1: string, team2: string): (r: seq<Issue>)
    ensures NotANumber(Team1Score) in r <==> ParseInt(team1).None?
    ensures NotANumber(Team2Score) in r <==> ParseInt(team2).None?
    ensures Tie(Team2Score) !in r
  {
    ParsedIssuesFacts(ParseInt(team1), ParseInt(team2));
    ParsedIssues(ParseInt(team1), ParseInt(team2))
  }

  /** The schema accepts the scores; the verdict is the same with the teams swapped. */
  predicate Accepted(team1: string, team2: string)
    ensures Accepted(team1, team2) <==> Issues(team2, team1) == []
  {
    ParsedIssuesFacts(ParseInt(team1), ParseInt(team2));
    ParsedIssuesFacts(ParseInt(team2), ParseInt(team1));
    Issues(team1, team2) == []
  }

  lemma ParsedIssuesFacts(n1: Option<int>, n2: Option<int>)
    ensures ParsedIssues(n1, n2) == [] <==>
      NonNegative(n1) && NonNegative(n2) && n1.value != n2.value
    ensures NotANumber(Team1Score) in ParsedIssues(n1, n2) <==> n1.None?
    ensures NotANumber(Team2Score) in ParsedIssues(n1, n2) <==> n2.None?
    ensures Negative(Team1Score) in ParsedIssues(n1, n2) <==> !NonNegative(n1)
    ensures Negative(Team2Score) in ParsedIssues(n1, n2) <==> !NonNegative(n2)
    ensures Tie(Team1Score) in ParsedIssues(n1, n2) <==> n1.Some? && n1 == n2
    ensures Tie(Team2Score) !in ParsedIssues(n1, n2)
  {
    var a := ScoreIssues(Team1Score, n1);
    var b := ScoreIssues(Team2Score, n2);
    var t := TieIssues(n1, n2);
    assert ParsedIssues(n1, n2) == a + b + t;
    assert forall x | x in a :: x.field == Team1Score && !x.Tie?;
    assert forall x | x in b :: x.field == Team2Score && !x.Tie?;
    assert forall x | x in t :: x == Tie(Team1Score);
  }

  /**
   * The schema accepts exactly two scores that parse to different
   * non-negative integers.
   */
  lemma AcceptedIff(team1: string, team2: string)
    ensures Accepted(team1, team2) <==>
      ParseInt(team1).Some? && ParseInt(team2).Some?
      && ParseInt(team1).value >= 0 && ParseInt(team2).value >= 0
      && ParseInt(team1).value != ParseInt(team2).value
  {
    ParsedIssuesFacts(ParseInt(team1), ParseInt(team2));
  }

  /** A score that is not a number is reported as such, and as negative too. */
  lemma NotANumberReported(team1: string, team2: string, f: Field)
    requires ParseInt(if f == Team1Score then team1 else team2).None?
    ensures NotANumber(f) in Issues(team1, team2) && Negative(f) in Issues(team1, team2)
  {
    ParsedIssuesFacts(ParseInt(team1), ParseInt(team2));
  }

  /** A negative score is rejected on its own field, for either team. */
  lemma NegativeReported(team1: string, team2: string, f: Field)
    requires var n := ParseInt(if f == Team1Score then team1 else team2); n.Some? && n.value < 0
    ensures Negative(f) in Issues(team1, team2) && !Accepted(team1, team2)
  {
    ParsedIssuesFacts(ParseInt(team1), ParseInt(team2));
  }

  /** A tie is reported exactly when both scores parse to the same value, and always on `team1Score`. */
  lemma TieReported(team1: string, team2: string)
    ensures Tie(Team1Score) in Issues(team1, team2) <==>
      ParseInt(team1).Some? && ParseInt(team1) == ParseInt(team2)
    ensures Tie(Team2Score) !in Issues(team1, team2)
  {
    ParsedIssuesFacts(ParseInt(team1), ParseInt(team2));
  }

  // ---------------------------------------------------------------------
  // The live winner
  // ---------------------------------------------------------------------

  datatype Winner = Team1 | Team2 | NoWinner

  /** `parseInt(value || "0")`: an empty field counts as 0. */
  function WatchedScore(s: string): Option<int> {
    ParseInt(if s == "" then "0" else s)
  }

  /** `a > b` on two numbers, false when either is NaN. */
  predicate Greater(a: Option<int>, b: Option<int>) {
    a.Some? && b.Some? && a.value > b.value
  }

  /** `getWinner()` */
  function GetWinner(team1: string, team2: string): (w: Winner)
    ensures w == Team1 <==> Greater(WatchedScore(team1), WatchedScore(team2))
    ensures w == Team2 <==> Greater(WatchedScore(team2), WatchedScore(team1))
  {
    var a := WatchedScore(team1);
    var b := WatchedScore(team2);
    if Greater(a, b) then Team1 else if Greater(b, a) then Team2 else NoWinner
  }

  /**
   * There is no winner exactly when the two watched scores are equal or
   * one of them is not a number.
   */
  lemma NoWinnerIff(team1: string, team2: string)
    ensures GetWinner(team1, team2) == NoWinner <==>
      !Greater(WatchedScore(team1), WatchedScore(team2)) && !Greater(WatchedScore(team2), WatchedScore(team1))
    ensures WatchedScore(team1).Some? && WatchedScore(team2).Some? ==>
      (GetWinner(team1, team2) == NoWinner <==> WatchedScore(team1) == WatchedScore(team2))
  {
  }

  /** An empty field is read as 0. */
  lemma EmptyScoreIsZero(s: string)
    ensures WatchedScore(s) == Some(0) <==> s == "" || ParseInt(s) == Some(0)
  {
    ParseIntOfIntToString(0);
    assert IntToString(0) == "0";
  }

  /** Every pair of scores the schema accepts has a winner. */
  lemma AcceptedHasWinner(team1: string, team2: string)
    requires Accepted(team1, team2)
    ensures GetWinner(team1, team2) != NoWinner
  {
    AcceptedIff(team1, team2);
    assert team1 != "" && team2 != "";
    assert WatchedScore(team1) == ParseInt(team1) && WatchedScore(team2) == ParseInt(team2);
  }

  /** The label `Team {getWinner() === "team1" ? "1" : "2"}`, shown only when there is a winner. */
  function WinnerLabel(team1: string, team2: string): (r: Option<string>)
    ensures r.Some? <==> GetWinner(team1, team2) != NoWinner
    ensures r == Some("Team 1") <==> GetWinner(team1, team2) == Team1
  {
    match GetWinner(team1, team2)
    case NoWinner => None
    case Team1 => Some("Team 1")
    case Team2 => Some("Team 2")
  }

  // ---------------------------------------------------------------------
  // Submitting
  // ---------------------------------------------------------------------

  class ResultForm {
    var team1Score: string
    var team2Score: string
    var isSubmitting: bool
    const matchId: int
    /** Whether the parent passed `onCompleted`. */
    const hasOnCompleted: bool
    /** How many times `onCompleted` has been called. */
    var completedCalls: nat
    /** The last route navigated to, if any. */
    var navigatedTo: Option<string>

    constructor (matchId: int, hasOnCompleted: bool)
      ensures this.matchId == matchId && this.hasOnCompleted == hasOnCompleted
      ensures team1Score == "" && team2Score == "" && !isSubmitting
      ensures completedCalls == 0 && navigatedTo == None
    {
      this.matchId := matchId;
      this.hasOnCompleted := hasOnCompleted;
      team1Score := "";
      team2Score := "";
      isSubmitting := false;
      completedCalls := 0;
      navigatedTo := None;
    }

    /** The team 1 score input. */
    method SetTeam1Score(text: string)
      modifies this
      ensures team1Score == text && team2Score == old(team2Score) && isSubmitting == old(isSubmitting)
      ensures completedCalls == old(completedCalls) && navigatedTo == old(navigatedTo)
    {
      team1Score := text;
    }

    /** The team 2 score input. */
    method SetTeam2Score(text: string)
      modifies this
      ensures team2Score == text && team1Score == old(team1Score) && isSubmitting == old(isSubmitting)
      ensures completedCalls == old(completedCalls) && navigatedTo == old(navigatedTo)
    {
      team2Score := text;
    }

    /** The submit button is disabled while submitting. */
    predicate SubmitDisabled()
      reads this
    {
      isSubmitting
    }

    /** A submit: `onSubmit` runs only for accepted scores, and it sets `isSubmitting`. */
    method Submit()
      modifies this
      ensures isSubmitting == (old(isSubmitting) || Accepted(team1Score, team2Score))
      ensures team1Score == old(team1Score) && team2Score == old(team2Score)
      ensures completedCalls == old(completedCalls) && navigatedTo == old(navigatedTo)
    {
      if Accepted(team1Score, team2Score) {
        isSubmitting := true;
      }
    }

    /**
     * The timer 1000 ms later: `onCompleted` is called when given, otherwise
     * the page moves to the match; then `isSubmitting` is cleared.
     */
    method Complete()
      modifies this
      ensures !isSubmitting
      ensures hasOnCompleted ==> completedCalls == old(completedCalls) + 1 && navigatedTo == old(navigatedTo)
      ensures !hasOnCompleted ==>
        completedCalls == old(completedCalls) && navigatedTo == Some("/matches/" + IntToString(matchId))
      ensures team1Score == old(team1Score) && team2Score == old(team2Score)
    {
      if hasOnCompleted {
        completedCalls := completedCalls + 1;
      } else {
        navigatedTo := Some("/matches/" + IntToString(matchId));
      }
      isSubmitting := false;
    }
  }
}
