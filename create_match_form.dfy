/**
 * Creating a match: the form schema, the invite list bounded by the game
 * type (toggle a user in or out, never a duplicate), the truncation when
 * switching to 1v1, and the user search of the invite dialog.
 */
module CreateMatchForm {
  import opened JsText
  import opened Lists

  datatype User = User(id: string, name: string, email: string, elo: int)

  function DemoUsers(): seq<User> {
    [ User("1", "Alex Johnson", "alex@example.com", 1750),
      User("2", "Sam Smith", "sam@example.com", 1650),
      User("3", "Jordan Lee", "jordan@example.com", 1820),
      User("4", "Casey Taylor", "casey@example.com", 1580),
      User("5", "Morgan Wilson", "morgan@example.com", 1700) ]
  }

  // ---------------------------------------------------------------------
  // Schema
  // ---------------------------------------------------------------------

  /** The form values; a missing date or time is `None`. Dates are day keys. */
  datatype MatchValues = MatchValues(
    title: string, date: Option<int>, time: Option<string>,
    location: string, opponent: string, gameType: string)

  predicate ValidGameType(t: string) {
    t == "1v1" || t == "2v2"
  }

  /**
   * Title, location and opponent of at least 3 characters, a date, a time
   * and a known game type; values whose opponent is still empty are refused.
   */
  predicate SchemaAccepts(v: MatchValues)
    ensures v.opponent == "" ==> !SchemaAccepts(v)
    ensures SchemaAccepts(v) ==> IntendedSchemaAccepts(v)
  {
    |v.title| >= 3 && v.date.Some? && v.time.Some? && |v.location| >= 3 && |v.opponent| >= 3
    && ValidGameType(v.gameType)
  }

  /** The schema without the opponent rule: exactly the checks on the fields the form renders. */
  predicate IntendedSchemaAccepts(v: MatchValues) {
    |v.title| >= 3 && v.date.Some? && v.time.Some? && |v.location| >= 3 && ValidGameType(v.gameType)
  }

  /** The initial values, with today's date. */
  function DefaultValues(today: int): (v: MatchValues)
    ensures !SchemaAccepts(v) && ValidGameType(v.gameType)
  {
    MatchValues("", Some(today), Some("18:00"), "", "", "1v1")
  }

  // ---------------------------------------------------------------------
  // The invite list
  // ---------------------------------------------------------------------

  /** `maxInvites`: one opponent in 1v1, three other players otherwise. */
  function MaxInvites(gameType: string): (n: nat)
    ensures n == 1 <==> gameType == "1v1"
    ensures 1 <= n <= 3
  {
    if gameType == "1v1" then 1 else 3
  }

  /** `isUserInvited(id)` */
  predicate IsUserInvited(invited: seq<User>, id: string) {
    exists i | 0 <= i < |invited| :: invited[i].id == id
  }

  predicate NoDuplicateIds(s: seq<User>) {
    forall i, j | 0 <= i < j < |s| :: s[i].id != s[j].id
  }

  /** `invitedUsers.filter(u => u.id !== id)` */
  function WithoutId(invited: seq<User>, id: string): (r: seq<User>)
    ensures !IsUserInvited(r, id)
  {
    Filter(invited, (u: User) => u.id != id)
  }

  /** `handleInviteUser(user)`: remove an invited user, or append one while there is room. */
  function ToggleInvite(invited: seq<User>, user: User, maxInvites: nat): (r: seq<User>)
    ensures IsUserInvited(r, user.id) <==> !IsUserInvited(invited, user.id) && |invited| < maxInvites
  {
    if IsUserInvited(invited, user.id) then WithoutId(invited, user.id)
    else if |invited| < maxInvites then
      var r := invited + [user];
      assert r[|invited|].id == user.id;
      r
    else invited
  }

  /** Removing by id keeps the other entries in order, and a duplicate-free list loses exactly one. */
  lemma WithoutIdFacts(invited: seq<User>, id: string)
    requires NoDuplicateIds(invited)
    ensures NoDuplicateIds(WithoutId(invited, id))
    ensures IsUserInvited(invited, id) ==> |WithoutId(invited, id)| == |invited| - 1
    ensures !IsUserInvited(invited, id) ==> WithoutId(invited, id) == invited
  {
    WithoutIdDistinct(invited, id);
    if IsUserInvited(invited, id) {
      WithoutIdRemovesOne(invited, id);
    } else {
      WithoutIdAbsent(invited, id);
    }
  }

  lemma WithoutIdAbsent(invited: seq<User>, id: string)
    requires !IsUserInvited(invited, id)
    ensures WithoutId(invited, id) == invited
  {
    FilterKeepsAll(invited, (u: User) => u.id != id);
  }

  lemma TailDistinct(invited: seq<User>)
    requires invited != [] && NoDuplicateIds(invited)
    ensures NoDuplicateIds(invited[1..])
    ensures !IsUserInvited(invited[1..], invited[0].id)
  {
    var rest := invited[1..];
    forall i, j | 0 <= i < j < |rest| ensures rest[i].id != rest[j].id {
      assert rest[i] == invited[i + 1] && rest[j] == invited[j + 1];
    }
    forall k | 0 <= k < |rest| ensures rest[k].id != invited[0].id {
      assert rest[k] == invited[k + 1];
    }
  }

  lemma {:induction false} WithoutIdDistinct(invited: seq<User>, id: string)
    requires NoDuplicateIds(invited)
    ensures NoDuplicateIds(WithoutId(invited, id))
    decreases |invited|
  {
    if invited != [] {
      var rest := invited[1..];
      TailDistinct(invited);
      WithoutIdDistinct(rest, id);
      var r := WithoutId(invited, id);
      var r' := WithoutId(rest, id);
      if invited[0].id != id {
        assert r == [invited[0]] + r';
        forall i, j | 0 <= i < j < |r| ensures r[i].id != r[j].id {
          if i == 0 {
            assert r[j] == r'[j - 1];
            assert r[j] in rest;
          }
        }
      }
    }
  }

  lemma {:induction false} WithoutIdRemovesOne(invited: seq<User>, id: string)
    requires NoDuplicateIds(invited) && IsUserInvited(invited, id)
    ensures |WithoutId(invited, id)| == |invited| - 1
    decreases |invited|
  {
    var rest := invited[1..];
    TailDistinct(invited);
    if invited[0].id == id {
      WithoutIdAbsent(rest, id);
    } else {
      var k :| 0 <= k < |invited| && invited[k].id == id;
      assert rest[k - 1].id == id;
      WithoutIdRemovesOne(rest, id);
    }
  }

  /** Toggling an invited user removes exactly that user and keeps the rest in order. */
  lemma ToggleRemoves(invited: seq<User>, user: User, maxInvites: nat)
    requires NoDuplicateIds(invited) && IsUserInvited(invited, user.id)
    ensures ToggleInvite(invited, user, maxInvites) == Filter(invited, (u: User) => u.id != user.id)
    ensures !IsUserInvited(ToggleInvite(invited, user, maxInvites), user.id)
    ensures |ToggleInvite(invited, user, maxInvites)| == |invited| - 1
  {
    WithoutIdFacts(invited, user.id);
  }

  /** Toggling an uninvited user appends it exactly when fewer than `maxInvites` are invited. */
  lemma ToggleAdds(invited: seq<User>, user: User, maxInvites: nat)
    requires !IsUserInvited(invited, user.id)
    ensures |invited| < maxInvites ==> ToggleInvite(invited, user, maxInvites) == invited + [user]
    ensures |invited| >= maxInvites ==> ToggleInvite(invited, user, maxInvites) == invited
  {
  }

  /** The toggle keeps the list free of duplicate ids and within the bound. */
  lemma TogglePreservesInvariant(invited: seq<User>, user: User, maxInvites: nat)
    requires NoDuplicateIds(invited) && |invited| <= maxInvites
    ensures NoDuplicateIds(ToggleInvite(invited, user, maxInvites))
    ensures |ToggleInvite(invited, user, maxInvites)| <= maxInvites
  {
    WithoutIdFacts(invited, user.id);
    if !IsUserInvited(invited, user.id) && |invited| < maxInvites {
      var r := invited + [user];
      forall i, j | 0 <= i < j < |r| ensures r[i].id != r[j].id {
        if j == |invited| {
          assert r[i] == invited[i];
        }
      }
    }
  }

  /** Inviting a user and then clicking the same user again gives the list back. */
  lemma ToggleTwice(invited: seq<User>, user: User, maxInvites: nat)
    requires !IsUserInvited(invited, user.id) && |invited| < maxInvites
    ensures ToggleInvite(ToggleInvite(invited, user, maxInvites), user, maxInvites) == invited
  {
    var p := (u: User) => u.id != user.id;
    var r := invited + [user];
    assert r[|invited|].id == user.id;
    FilterAppend(invited, [user], p);
    FilterKeepsAll(invited, p);
    assert Filter([user], p) == [];
  }

  /** The game-type handler: switching to 1v1 with more than one invitee keeps only the first. */
  function AfterGameTypeChange(invited: seq<User>, value: string): seq<User> {
    if value == "1v1" && |invited| > 1 then invited[..1] else invited
  }

  lemma GameTypeChangeBounds(invited: seq<User>, value: string)
    requires ValidGameType(value) && NoDuplicateIds(invited) && |invited| <= 3
    ensures var r := AfterGameTypeChange(invited, value);
      |r| <= MaxInvites(value) && NoDuplicateIds(r) && r == invited[..|r|]
  {
  }

  // ---------------------------------------------------------------------
  // Search in the invite dialog
  // ---------------------------------------------------------------------

  predicate UserMatches(u: User, term: string) {
    MatchesSearch(u.name, term) || MatchesSearch(u.email, term)
  }

  /** `filteredUsers` */
  function FilteredUsers(users: seq<User>, term: string): (r: seq<User>)
    ensures forall i | 0 <= i < |r| :: r[i] in users && UserMatches(r[i], term)
    ensures forall i | 0 <= i < |users| :: UserMatches(users[i], term) ==> users[i] in r
  {
    Filter(users, (u: User) => UserMatches(u, term))
  }

  /** An empty search lists every user in order. */
  lemma EmptySearchListsAll(users: seq<User>)
    ensures FilteredUsers(users, "") == users
  {
    forall i | 0 <= i < |users| ensures UserMatches(users[i], "") {
      EmptyTermMatchesAll(users[i].name);
    }
    FilterKeepsAll(users, (u: User) => UserMatches(u, ""));
  }

  // ---------------------------------------------------------------------
  // The form's state
  // ---------------------------------------------------------------------

  class MatchForm {
    var values: MatchValues
    var invitedUsers: seq<User>
    var searchTerm: string
    var navigatedTo: Option<string>

    /** The invite list never holds a duplicate and never exceeds `maxInvites`. */
    predicate Valid()
      reads this
    {
      ValidGameType(values.gameType) && NoDuplicateIds(invitedUsers)
      && |invitedUsers| <= MaxInvites(values.gameType)
    }

    constructor (today: int)
      ensures values == DefaultValues(today) && invitedUsers == [] && searchTerm == ""
      ensures navigatedTo == None
      ensures Valid()
    {
      values := DefaultValues(today);
      invitedUsers := [];
      searchTerm := "";
      navigatedTo := None;
    }

    /** `handleInviteUser(user)` */
    method HandleInviteUser(user: User)
      requires Valid()
      modifies this
      ensures Valid()
      ensures invitedUsers == ToggleInvite(old(invitedUsers), user, MaxInvites(values.gameType))
      ensures values == old(values) && searchTerm == old(searchTerm) && navigatedTo == old(navigatedTo)
    {
      TogglePreservesInvariant(invitedUsers, user, MaxInvites(values.gameType));
      if IsUserInvited(invitedUsers, user.id) {
        invitedUsers := WithoutId(invitedUsers, user.id);
      } else if |invitedUsers| < MaxInvites(values.gameType) {
        invitedUsers := invitedUsers + [user];
      }
    }

    /** `isUserInvited(id)`, answered by a scan of the list. */
    method IsInvited(id: string) returns (found: bool)
      ensures found <==> IsUserInvited(invitedUsers, id)
    {
      found := false;
      var i := 0;
      while i < |invitedUsers|
        invariant 0 <= i <= |invitedUsers|
        invariant found <==> exists k | 0 <= k < i :: invitedUsers[k].id == id
      {
        if invitedUsers[i].id == id {
          found := true;
        }
        i := i + 1;
      }
    }

    /** The game-type select: store the value and cut the list down for 1v1. */
    method SetGameType(value: string)
      requires Valid() && ValidGameType(value)
      modifies this
      ensures Valid()
      ensures values == old(values).(gameType := value)
      ensures invitedUsers == AfterGameTypeChange(old(invitedUsers), value)
      ensures searchTerm == old(searchTerm) && navigatedTo == old(navigatedTo)
    {
      GameTypeChangeBounds(invitedUsers, value);
      values := values.(gameType := value);
      if value == "1v1" && |invitedUsers| > 1 {
        invitedUsers := invitedUsers[..1];
      }
    }

    /** The title input. */
    method SetTitle(title: string)
      modifies this
      ensures values == old(values).(title := title)
      ensures invitedUsers == old(invitedUsers) && searchTerm == old(searchTerm) && navigatedTo == old(navigatedTo)
    {
      values := values.(title := title);
    }

    /** The date picker: a day is picked, or the picked day is cleared. */
    method SetDate(date: Option<int>)
      modifies this
      ensures values == old(values).(date := date)
      ensures invitedUsers == old(invitedUsers) && searchTerm == old(searchTerm) && navigatedTo == old(navigatedTo)
    {
      values := values.(date := date);
    }

    /** The time input. */
    method SetTime(time: string)
      modifies this
      ensures values == old(values).(time := Some(time))
      ensures invitedUsers == old(invitedUsers) && searchTerm == old(searchTerm) && navigatedTo == old(navigatedTo)
    {
      values := values.(time := Some(time));
    }

    /** The location input. */
    method SetLocation(location: string)
      modifies this
      ensures values == old(values).(location := location)
      ensures invitedUsers == old(invitedUsers) && searchTerm == old(searchTerm) && navigatedTo == old(navigatedTo)
    {
      values := values.(location := location);
    }

    /** The search input of the invite dialog. */
    method SetSearchTerm(term: string)
      modifies this
      ensures searchTerm == term
      ensures values == old(values) && invitedUsers == old(invitedUsers) && navigatedTo == old(navigatedTo)
    {
      searchTerm := term;
    }

    /** A submit: the form library calls `onSubmit` for accepted values, which moves to the new match. */
    method Submit()
      modifies this
      ensures navigatedTo == if SchemaAccepts(values) then Some("/matches/1") else old(navigatedTo)
      ensures values.opponent == "" ==> navigatedTo == old(navigatedTo)
      ensures values == old(values) && invitedUsers == old(invitedUsers) && searchTerm == old(searchTerm)
    {
      if SchemaAccepts(values) {
        navigatedTo := Some("/matches/1");
      }
    }

    /** A submit checked against the schema without the opponent rule. */
    method SubmitIntended()
      modifies this
      ensures navigatedTo == if IntendedSchemaAccepts(values) then Some("/matches/1") else old(navigatedTo)
      ensures values == old(values) && invitedUsers == old(invitedUsers) && searchTerm == old(searchTerm)
    {
      if IntendedSchemaAccepts(values) {
        navigatedTo := Some("/matches/1");
      }
    }
  }

  /**
   * Filling every field the form renders, with values the schema's own
   * rules accept, and submitting never leaves the page: no input writes
   * `opponent`, so it keeps its empty default and the schema refuses it.
   */
  method FilledFormNeverSubmits(today: int, title: string, day: int, time: string, location: string, gameType: string)
    returns (navigated: Option<string>)
    requires |title| >= 3 && |location| >= 3 && ValidGameType(gameType)
    ensures navigated == None
  {
    var form := new MatchForm(today);
    form.SetTitle(title);
    form.SetDate(Some(day));
    form.SetTime(time);
    form.SetLocation(location);
    form.SetGameType(gameType);
    form.Submit();
    navigated := form.navigatedTo;
  }

  /** Checked against the schema without the opponent rule, the same filled form moves to the new match. */
  method FilledFormSubmitsIntended(today: int, title: string, day: int, time: string, location: string, gameType: string)
    returns (navigated: Option<string>)
    requires |title| >= 3 && |location| >= 3 && ValidGameType(gameType)
    ensures navigated == Some("/matches/1")
  {
    var form := new MatchForm(today);
    form.SetTitle(title);
    form.SetDate(Some(day));
    form.SetTime(time);
    form.SetLocation(location);
    form.SetGameType(gameType);
    form.SubmitIntended();
    navigated := form.navigatedTo;
  }

  /** The intended schema accepts the defaults exactly once title and location have 3 characters. */
  lemma IntendedAcceptsFilledDefaults(today: int, title: string, location: string, gameType: string)
    requires ValidGameType(gameType)
    ensures IntendedSchemaAccepts(DefaultValues(today).(title := title, location := location, gameType := gameType))
      <==> |title| >= 3 && |location| >= 3
    ensures !SchemaAccepts(DefaultValues(today).(title := title, location := location, gameType := gameType))
  {
  }
}
