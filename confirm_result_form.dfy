/**
 * Confirming or disputing a recorded result: the `isSubmitting` and
 * dispute-dialog flags, the blank-reason guard on a dispute, and the
 * winner label, panel highlights and rating-change labels of the view.
 */
module ConfirmResultForm {
  import opened JsText

  // ---------------------------------------------------------------------
  // The result view
  // ---------------------------------------------------------------------

  /** A team panel is highlighted when its score is strictly greater. */
  predicate Highlighted(own: int, other: int) {
    own > other
  }

  /** At most one of the two panels is highlighted, and neither on a tie. */
  lemma NeverBothHighlighted(score1: int, score2: int)
    ensures !(Highlighted(score1, score2) && Highlighted(score2, score1))
    ensures score1 == score2 ==> !Highlighted(score1, score2) && !Highlighted(score2, score1)
  {
  }

  /** `Winner: Team {team1 > team2 ? "1" : "2"}` */
  function WinnerLabel(score1: int, score2: int): (r: string)
    ensures r == "Winner: Team 1" <==> Highlighted(score1, score2)
    ensures r == "Winner: Team 2" <==> !Highlighted(score1, score2)
  {
    var team := if score1 > score2 then "1" else "2";
    assert ("Winner: Team " + team)[13] == team[0];
    "Winner: Team " + team
  }

  /** The label names the team whose panel is highlighted; a tie is labelled Team 2 with no panel highlighted. */
  lemma WinnerLabelMatchesHighlight(score1: int, score2: int)
    ensures Highlighted(score2, score1) ==> WinnerLabel(score1, score2) == "Winner: Team 2"
    ensures score1 == score2 ==> WinnerLabel(score1, score2) == "Winner: Team 2" && !Highlighted(score2, score1)
  {
  }

  /** The rating change as shown: a `+` before a positive value, the plain number otherwise. */
  function EloChangeLabel(change: int): (r: string)
    ensures r != [] && (r[0] == '+' <==> change > 0)
  {
    (if change > 0 then "+" else "") + IntToString(change)
  }

  /** Reading the label back with `parseInt` gives the change. */
  lemma EloChangeLabelRoundTrip(change: int)
    ensures ParseInt(EloChangeLabel(change)) == Some(change)
  {
    if change > 0 {
      var s := EloChangeLabel(change);
      assert s == "+" + NatToString(change);
      assert TrimStart(s) == s;
      assert s[1..] == NatToString(change);
      ParseUnsignedOfNatToString(change);
    } else {
      assert EloChangeLabel(change) == IntToString(change);
      ParseIntOfIntToString(change);
    }
  }

  // ---------------------------------------------------------------------
  // The confirm and dispute actions
  // ---------------------------------------------------------------------

  class ConfirmForm {
    var isSubmitting: bool
    var disputeReason: string
    var showDisputeDialog: bool
    const matchId: int
    /** Whether the parent passed `onConfirmed`. */
    const hasOnConfirmed: bool
    /** How many times `onConfirmed` has been called. */
    var confirmedCalls: nat
    /** The last route navigated to, if any. */
    var navigatedTo: Option<string>

    constructor (matchId: int, hasOnConfirmed: bool)
      ensures this.matchId == matchId && this.hasOnConfirmed == hasOnConfirmed
      ensures !isSubmitting && disputeReason == "" && !showDisputeDialog
      ensures confirmedCalls == 0 && navigatedTo == None
    {
      this.matchId := matchId;
      this.hasOnConfirmed := hasOnConfirmed;
      isSubmitting := false;
      disputeReason := "";
      showDisputeDialog := false;
      confirmedCalls := 0;
      navigatedTo := None;
    }

    /** Dispute, Confirm, Cancel and Submit Dispute are all disabled exactly while submitting. */
    predicate ButtonsDisabled()
      reads this
    {
      isSubmitting
    }

    /** The Dispute button, and the dialog's own open/close control. */
    method SetDisputeDialog(open: bool)
      modifies this
      ensures showDisputeDialog == open
      ensures isSubmitting == old(isSubmitting) && disputeReason == old(disputeReason)
      ensures confirmedCalls == old(confirmedCalls) && navigatedTo == old(navigatedTo)
    {
      showDisputeDialog := open;
    }

    /** Typing in the reason box. */
    method SetDisputeReason(text: string)
      modifies this
      ensures disputeReason == text
      ensures isSubmitting == old(isSubmitting) && showDisputeDialog == old(showDisputeDialog)
      ensures confirmedCalls == old(confirmedCalls) && navigatedTo == old(navigatedTo)
    {
      disputeReason := text;
    }

    /** `confirmResult`: no precondition, it always starts submitting. */
    method ConfirmResult()
      modifies this
      ensures isSubmitting
      ensures disputeReason == old(disputeReason) && showDisputeDialog == old(showDisputeDialog)
      ensures confirmedCalls == old(confirmedCalls) && navigatedTo == old(navigatedTo)
    {
      isSubmitting := true;
    }

    /**
     * `disputeResult`: a blank reason is refused and nothing changes;
     * otherwise submitting starts.
     */
    method DisputeResult()
      modifies this
      ensures isSubmitting == (old(isSubmitting) || !IsBlank(disputeReason))
      ensures disputeReason == old(disputeReason) && showDisputeDialog == old(showDisputeDialog)
      ensures confirmedCalls == old(confirmedCalls) && navigatedTo == old(navigatedTo)
    {
      if IsBlank(disputeReason) {
        return;
      }
      isSubmitting := true;
    }

    /** `onConfirmed()` when given, otherwise a move to the match page. */
    method Notify()
      modifies this
      ensures hasOnConfirmed ==> confirmedCalls == old(confirmedCalls) + 1 && navigatedTo == old(navigatedTo)
      ensures !hasOnConfirmed ==>
        confirmedCalls == old(confirmedCalls) && navigatedTo == Some("/matches/" + IntToString(matchId))
      ensures isSubmitting == old(isSubmitting) && disputeReason == old(disputeReason)
      ensures showDisputeDialog == old(showDisputeDialog)
    {
      if hasOnConfirmed {
        confirmedCalls := confirmedCalls + 1;
      } else {
        navigatedTo := Some("/matches/" + IntToString(matchId));
      }
    }

    /** The timer after a confirmation: notify, then stop submitting. */
    method CompleteConfirm()
      modifies this
      ensures !isSubmitting
      ensures hasOnConfirmed ==> confirmedCalls == old(confirmedCalls) + 1 && navigatedTo == old(navigatedTo)
      ensures !hasOnConfirmed ==>
        confirmedCalls == old(confirmedCalls) && navigatedTo == Some("/matches/" + IntToString(matchId))
      ensures disputeReason == old(disputeReason) && showDisputeDialog == old(showDisputeDialog)
    {
      Notify();
      isSubmitting := false;
    }

    /** The timer after a dispute: close the dialog, notify, then stop submitting. */
    method CompleteDispute()
      modifies this
      ensures !isSubmitting && !showDisputeDialog
      ensures hasOnConfirmed ==> confirmedCalls == old(confirmedCalls) + 1 && navigatedTo == old(navigatedTo)
      ensures !hasOnConfirmed ==>
        confirmedCalls == old(confirmedCalls) && navigatedTo == Some("/matches/" + IntToString(matchId))
      ensures disputeReason == old(disputeReason)
    {
      showDisputeDialog := false;
      Notify();
      isSubmitting := false;
    }
  }
}
