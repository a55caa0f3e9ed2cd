/**
 * The account deletion dialog: the typed "DELETE" confirmation, the
 * deleting flag, and the simulated deletion that signs the user out.
 */
module DeleteAccountDialog {
  import opened JsText
  import AuthContext

  const ConfirmWord := "DELETE"

  /** The guard of `handleDeleteAccount`: exactly "DELETE", case and spaces included. */
  predicate ConfirmAccepted(text: string) {
    text == ConfirmWord
  }

  /** The Delete button is enabled iff not deleting and the word is typed exactly. */
  predicate DeleteEnabled(isDeleting: bool, confirmText: string) {
    !isDeleting && ConfirmAccepted(confirmText)
  }

  /** Cancel is disabled while deleting. */
  predicate CancelEnabled(isDeleting: bool) {
    !isDeleting
  }

  /** Lower case, surrounding spaces or a prefix of the word are all refused. */
  lemma NearMissesRefused()
    ensures !ConfirmAccepted(Lower(ConfirmWord))
    ensures !ConfirmAccepted(ConfirmWord + " ") && !ConfirmAccepted(" " + ConfirmWord)
    ensures forall k | 0 <= k < |ConfirmWord| :: !ConfirmAccepted(ConfirmWord[..k])
  {
    assert Lower(ConfirmWord)[0] == 'd';
  }

  /** Deleting disables both buttons; otherwise Delete is enabled exactly for the confirmation word. */
  lemma ButtonsWhileDeleting(confirmText: string)
    ensures !DeleteEnabled(true, confirmText) && !CancelEnabled(true)
    ensures DeleteEnabled(false, confirmText) <==> ConfirmAccepted(confirmText)
  {
  }

  class DeleteDialog {
    var open: bool
    var isDeleting: bool
    var confirmText: string
    var refusals: nat
    var navigatedTo: Option<string>

    constructor (isOpen: bool)
      ensures open == isOpen && !isDeleting && confirmText == "" && refusals == 0 && navigatedTo == None
    {
      open := isOpen;
      isDeleting := false;
      confirmText := "";
      refusals := 0;
      navigatedTo := None;
    }

    method SetConfirmText(text: string)
      modifies this
      ensures confirmText == text
      ensures open == old(open) && isDeleting == old(isDeleting) && refusals == old(refusals) && navigatedTo == old(navigatedTo)
    {
      confirmText := text;
    }

    /** `handleDeleteAccount`: refused with a toast unless "DELETE" is typed, otherwise deleting starts. */
    method HandleDeleteAccount()
      modifies this
      ensures !ConfirmAccepted(confirmText) ==> isDeleting == old(isDeleting) && refusals == old(refusals) + 1
      ensures ConfirmAccepted(confirmText) ==> isDeleting && refusals == old(refusals)
      ensures open == old(open) && confirmText == old(confirmText) && navigatedTo == old(navigatedTo)
    {
      if !ConfirmAccepted(confirmText) {
        refusals := refusals + 1;
        return;
      }
      isDeleting := true;
    }

    /** The timer's body: sign out, go home, stop deleting, close the dialog. */
    method CompleteDeletion(auth: AuthContext.AuthProvider)
      requires isDeleting
      modifies this, auth
      ensures auth.user == None && StorageKeyRemoved(old(auth.storage), auth.storage)
      ensures navigatedTo == Some("/") && !isDeleting && !open
      ensures confirmText == old(confirmText)
    {
      auth.Logout();
      navigatedTo := Some("/");
      isDeleting := false;
      open := false;
    }

    /** Cancel closes the dialog, when it is enabled. */
    method Cancel()
      requires CancelEnabled(isDeleting)
      modifies this
      ensures !open && isDeleting == old(isDeleting) && confirmText == old(confirmText)
    {
      open := false;
    }
  }

  predicate StorageKeyRemoved(before: map<string, AuthContext.Stored>, after: map<string, AuthContext.Stored>) {
    after == before - {AuthContext.StorageKey}
  }
}
