/**
 * Inviting friends to a tournament: the invite list keyed by e-mail
 * (known friends come from a fixed list, other addresses get a record of
 * their own), removal by id, the send action with its completion, and the
 * shareable invite link.
 */
module InviteFriendsForm {
  import opened JsText
  import opened Lists

  datatype Friend = Friend(id: int, name: string, email: string)

  function MockFriends(): seq<Friend> {
    [ Friend(1, "Alex Müller", "alex@example.com"),
      Friend(2, "Sarah Wagner", "sarah@example.com"),
      Friend(3, "Tom Schmidt", "tom@example.com"),
      Friend(4, "Maria Fischer", "maria@example.com") ]
  }

  /** `friends.some(f => f.email === email)` */
  predicate HasEmail(friends: seq<Friend>, email: string) {
    exists i | 0 <= i < |friends| :: friends[i].email == email
  }

  predicate DistinctEmails(friends: seq<Friend>) {
    forall i, j | 0 <= i < j < |friends| :: friends[i].email != friends[j].email
  }

  /** `mockFriends.find(f => f.email === email)` */
  function FindFriend(friends: seq<Friend>, email: string): (r: Option<Friend>)
    ensures r.Some? <==> HasEmail(friends, email)
    ensures r.Some? ==> r.value.email == email
    ensures r.Some? ==> exists k | 0 <= k < |friends| ::
      (friends[k] == r.value && forall j | 0 <= j < k :: friends[j].email != email)
    decreases |friends|
  {
    if friends == [] then None
    else if friends[0].email == email then Some(friends[0])
    else
      var r := FindFriend(friends[1..], email);
      assert HasEmail(friends, email) ==> HasEmail(friends[1..], email) by {
        if HasEmail(friends, email) {
          var k :| 0 <= k < |friends| && friends[k].email == email;
          assert friends[1..][k - 1].email == email;
        }
      }
      assert r.Some? ==> exists k | 0 <= k < |friends| ::
        (friends[k] == r.value && forall j | 0 <= j < k :: friends[j].email != email) by {
        if r.Some? {
          var k :| 0 <= k < |friends[1..]| && friends[1..][k] == r.value
            && (forall j | 0 <= j < k :: friends[1..][j].email != email);
          assert friends[k + 1] == r.value;
          forall j | 0 <= j < k + 1 ensures friends[j].email != email {
            if j > 0 {
              assert friends[j] == friends[1..][j - 1];
            }
          }
        }
      }
      r
  }

  /**
   * The record appended for an address: the known friend with that
   * address, or a new one whose id is the current time and whose name is
   * the text before the first `@`.
   */
  function Invitee(email: string, now: int): (f: Friend)
    ensures f.email == email
    ensures HasEmail(MockFriends(), email) ==> f in MockFriends()
    ensures !HasEmail(MockFriends(), email) ==> f == Friend(now, BeforeFirst(email, '@'), email)
  {
    match FindFriend(MockFriends(), email)
    case Some(friend) => friend
    case None => Friend(now, BeforeFirst(email, '@'), email)
  }

  /** The list after `onSubmit(email)`: unchanged for an address already invited, otherwise one more entry. */
  function AddInvitee(invited: seq<Friend>, email: string, now: int): (r: seq<Friend>)
    ensures HasEmail(r, email)
    ensures |invited| <= |r| <= |invited| + 1 && r[..|invited|] == invited
  {
    if HasEmail(invited, email) then invited
    else
      var r := invited + [Invitee(email, now)];
      assert r[|invited|].email == email;
      r
  }

  /** `handleRemoveFriend(id)` */
  function RemoveFriend(invited: seq<Friend>, id: int): (r: seq<Friend>)
    ensures forall i | 0 <= i < |r| :: r[i].id != id
  {
    Filter(invited, (f: Friend) => f.id != id)
  }

  /** An address already in the list leaves it unchanged. */
  lemma AddDuplicateUnchanged(invited: seq<Friend>, email: string, now: int)
    requires HasEmail(invited, email)
    ensures AddInvitee(invited, email, now) == invited
  {
  }

  /** A new address appends exactly one entry, carrying that address, at the end. */
  lemma AddNewAppends(invited: seq<Friend>, email: string, now: int)
    requires !HasEmail(invited, email)
    ensures var r := AddInvitee(invited, email, now);
      |r| == |invited| + 1 && r[..|invited|] == invited && r[|invited|].email == email
  {
    var r := AddInvitee(invited, email, now);
    assert r[..|invited|] == invited;
  }

  /** Adding keeps the addresses pairwise distinct. */
  lemma AddKeepsDistinct(invited: seq<Friend>, email: string, now: int)
    requires DistinctEmails(invited)
    ensures DistinctEmails(AddInvitee(invited, email, now))
    ensures HasEmail(AddInvitee(invited, email, now), email)
  {
    var r := AddInvitee(invited, email, now);
    if !HasEmail(invited, email) {
      forall i, j | 0 <= i < j < |r| ensures r[i].email != r[j].email {
        if j == |invited| {
          assert r[i] == invited[i];
        }
      }
      assert r[|invited|].email == email;
    }
  }

  lemma {:induction false} FilterKeepsDistinct(invited: seq<Friend>, p: Friend -> bool)
    requires DistinctEmails(invited)
    ensures DistinctEmails(Filter(invited, p))
    decreases |invited|
  {
    if invited != [] {
      var rest := invited[1..];
      assert DistinctEmails(rest) by {
        forall i, j | 0 <= i < j < |rest| ensures rest[i].email != rest[j].email {
          assert rest[i] == invited[i + 1] && rest[j] == invited[j + 1];
        }
      }
      FilterKeepsDistinct(rest, p);
      var r := Filter(invited, p);
      var r' := Filter(rest, p);
      if p(invited[0]) {
        assert r == [invited[0]] + r';
        forall i, j | 0 <= i < j < |r| ensures r[i].email != r[j].email {
          if i == 0 {
            assert r[j] in rest;
          }
        }
      }
    }
  }

  /** Removing keeps the addresses pairwise distinct and never adds an entry. */
  lemma RemoveKeepsDistinct(invited: seq<Friend>, id: int)
    requires DistinctEmails(invited)
    ensures DistinctEmails(RemoveFriend(invited, id))
    ensures forall i | 0 <= i < |RemoveFriend(invited, id)| :: RemoveFriend(invited, id)[i] in invited
  {
    FilterKeepsDistinct(invited, (f: Friend) => f.id != id);
  }

  /** Removing an id that is not in the list changes nothing. */
  lemma RemoveAbsentUnchanged(invited: seq<Friend>, id: int)
    requires forall i | 0 <= i < |invited| :: invited[i].id != id
    ensures RemoveFriend(invited, id) == invited
  {
    FilterKeepsAll(invited, (f: Friend) => f.id != id);
  }

  /** `invitedFriends.map(f => f.email)` */
  function Emails(friends: seq<Friend>): (r: seq<string>)
    ensures |r| == |friends| && forall i | 0 <= i < |r| :: r[i] == friends[i].email
  {
    Map(friends, (f: Friend) => f.email)
  }

  // ---------------------------------------------------------------------
  // The invite link
  // ---------------------------------------------------------------------

  const LinkPrefix := "https://kickertum.com/tournaments/"

  /** `inviteLink`: an absent tournament id is written `undefined`. */
  function InviteLink(tournamentId: Option<int>): (r: string)
    ensures IsPrefix(LinkPrefix, r)
  {
    LinkPrefix + (match tournamentId case Some(n) => IntToString(n) case None => "undefined") + "/join"
  }

  /** The id in the link reads back with `parseInt`; an absent id reads as NaN. */
  lemma InviteLinkCarriesId(tournamentId: Option<int>)
    ensures ParseInt(InviteLink(tournamentId)[|LinkPrefix|..]) == tournamentId
  {
    var r := InviteLink(tournamentId);
    match tournamentId {
      case Some(n) =>
        assert r[|LinkPrefix|..] == IntToString(n) + "/join";
        ParseIntOfIntToStringThen(n, "/join");
      case None =>
        assert r[|LinkPrefix|..] == "undefined/join";
        assert ParseUnsigned("undefined/join") == None by {
          assert !IsRadixDigit('u', 10);
        }
        ParseIntUnsigned("undefined/join");
    }
  }

  // ---------------------------------------------------------------------
  // The form's state
  // ---------------------------------------------------------------------

  class InviteForm {
    var invitedFriends: seq<Friend>
    var isSubmitting: bool
    var emailInput: string
    /** The addresses captured by a send whose timer has not fired yet. */
    var pendingEmails: Option<seq<string>>
    /** Every list of addresses passed to `onSubmit`, oldest first. */
    var submitted: seq<seq<string>>
    var closeCalls: nat
    const hasOnSubmit: bool
    const hasOnClose: bool

    /** The invite list's addresses are pairwise distinct. */
    predicate Valid()
      reads this
    {
      DistinctEmails(invitedFriends)
    }

    constructor (hasOnSubmit: bool, hasOnClose: bool)
      ensures this.hasOnSubmit == hasOnSubmit && this.hasOnClose == hasOnClose
      ensures invitedFriends == [] && !isSubmitting && emailInput == ""
      ensures pendingEmails == None && submitted == [] && closeCalls == 0
      ensures Valid()
    {
      this.hasOnSubmit := hasOnSubmit;
      this.hasOnClose := hasOnClose;
      invitedFriends := [];
      isSubmitting := false;
      emailInput := "";
      pendingEmails := None;
      submitted := [];
      closeCalls := 0;
    }

    /**
     * `onSubmit` for an address the form accepted: a duplicate is refused
     * and the field kept; otherwise the invitee is appended and the field
     * reset.
     */
    method AddByEmail(email: string, now: int)
      requires Valid()
      modifies this
      ensures Valid()
      ensures invitedFriends == AddInvitee(old(invitedFriends), email, now)
      ensures emailInput == if HasEmail(old(invitedFriends), email) then old(emailInput) else ""
      ensures isSubmitting == old(isSubmitting) && pendingEmails == old(pendingEmails)
      ensures submitted == old(submitted) && closeCalls == old(closeCalls)
    {
      AddKeepsDistinct(invitedFriends, email, now);
      if HasEmail(invitedFriends, email) {
        return;
      }
      var friend := FindFriend(MockFriends(), email);
      if friend.Some? {
        invitedFriends := invitedFriends + [friend.value];
      } else {
        var newFriend := Friend(now, BeforeFirst(email, '@'), email);
        invitedFriends := invitedFriends + [newFriend];
      }
      emailInput := "";
    }

    /** `handleRemoveFriend(id)` */
    method RemoveById(id: int)
      requires Valid()
      modifies this
      ensures Valid()
      ensures invitedFriends == RemoveFriend(old(invitedFriends), id)
      ensures isSubmitting == old(isSubmitting) && emailInput == old(emailInput)
      ensures pendingEmails == old(pendingEmails) && submitted == old(submitted) && closeCalls == old(closeCalls)
    {
      RemoveKeepsDistinct(invitedFriends, id);
      invitedFriends := RemoveFriend(invitedFriends, id);
    }

    /** `sendInvites`: refused for an empty list; otherwise the addresses are captured and sending starts. */
    method SendInvites()
      modifies this
      ensures old(invitedFriends) == [] ==> isSubmitting == old(isSubmitting) && pendingEmails == old(pendingEmails)
      ensures old(invitedFriends) != [] ==> isSubmitting && pendingEmails == Some(Emails(old(invitedFriends)))
      ensures invitedFriends == old(invitedFriends) && emailInput == old(emailInput)
      ensures submitted == old(submitted) && closeCalls == old(closeCalls)
    {
      if |invitedFriends| == 0 {
        return;
      }
      isSubmitting := true;
      pendingEmails := Some(Emails(invitedFriends));
    }

    /**
     * The timer after a send: `onSubmit` gets the captured addresses, the
     * list is emptied (including anything added meanwhile), sending stops
     * and `onClose` is called.
     */
    method CompleteSend()
      requires pendingEmails.Some?
      modifies this
      ensures invitedFriends == [] && !isSubmitting && pendingEmails == None
      ensures submitted == if hasOnSubmit then old(submitted) + [old(pendingEmails).value] else old(submitted)
      ensures closeCalls == if hasOnClose then old(closeCalls) + 1 else old(closeCalls)
      ensures emailInput == old(emailInput)
      ensures Valid()
    {
      if hasOnSubmit {
        submitted := submitted + [pendingEmails.value];
      }
      invitedFriends := [];
      isSubmitting := false;
      pendingEmails := None;
      if hasOnClose {
        closeCalls := closeCalls + 1;
      }
    }
  }
}
