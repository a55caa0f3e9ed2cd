/**
 * The session provider: the signed-in user, the loading flag, and the
 * copy of the user kept in the browser's storage under "kicker_user".
 */
module AuthContext {
  import opened JsText

  datatype User = User(id: string, name: string, email: string, elo: int, isPremium: bool)

  /** A stored entry: a user's JSON, or text that does not parse as one. */
  datatype Stored = UserJson(user: User) | Unparsable(text: string)

  const StorageKey := "kicker_user"

  /** The demo user a login produces. */
  function LoginUser(email: string): (u: User)
    ensures u.email == email && u.elo == 1500 && !u.isPremium
    ensures u.id == "1" && u.name == "Demo User"
  {
    User("1", "Demo User", email, 1500, false)
  }

  /** The user a sign-up produces, starting at 1200. */
  function SignupUser(name: string, email: string): (u: User)
    ensures u.name == name && u.email == email && u.elo == 1200 && !u.isPremium
    ensures u.id == "1"
  {
    User("1", name, email, 1200, false)
  }

  /** `{ ...user, isPremium: true }`. */
  function Subscribed(u: User): (r: User)
    ensures r.isPremium
    ensures r.(isPremium := u.isPremium) == u
  {
    u.(isPremium := true)
  }

  /** Subscribing twice is subscribing once. */
  lemma SubscribedIdempotent(u: User)
    ensures Subscribed(Subscribed(u)) == Subscribed(u)
  {
  }

  /**
   * The user the start-up check restores: a stored user's JSON is read
   * back; an empty entry is skipped; other text makes `JSON.parse` throw,
   * which is caught, so no user.
   */
  function RestoredUser(storage: map<string, Stored>): (r: Option<User>)
    ensures r.Some? <==> StorageKey in storage && storage[StorageKey].UserJson?
  {
    if StorageKey in storage && storage[StorageKey].UserJson? then Some(storage[StorageKey].user) else None
  }

  /** What login, sign-up and subscription store is what the next start-up restores, and logout leaves nothing. */
  lemma StorageRoundTrip(storage: map<string, Stored>, u: User)
    ensures RestoredUser(storage[StorageKey := UserJson(u)]) == Some(u)
    ensures RestoredUser(storage - {StorageKey}) == None
  {
  }

  class AuthProvider {
    var user: Option<User>
    var isLoading: bool
    var storage: map<string, Stored>

    /** The stored entry holds exactly the signed-in user, or no user when signed out. */
    predicate Synced()
      reads this
    {
      RestoredUser(storage) == user
    }

    /** `!!user`. */
    function IsAuthenticated(): bool
      reads this
    {
      user.Some?
    }

    /** `checkPremiumStatus`: `user?.isPremium || false`. */
    function CheckPremiumStatus(): (r: bool)
      reads this
      ensures r <==> user.Some? && user.value.isPremium
    {
      match user case Some(u) => u.isPremium case None => false
    }

    /** Mounting: no user yet, loading, over whatever the storage holds. */
    constructor (initialStorage: map<string, Stored>)
      ensures user == None && isLoading && storage == initialStorage
    {
      user := None;
      isLoading := true;
      storage := initialStorage;
    }

    /** The start-up effect: restore the stored user if there is one, then stop loading. */
    method Restore()
      modifies this
      ensures user == (if RestoredUser(storage) == None then old(user) else RestoredUser(storage))
      ensures storage == old(storage) && !isLoading
      ensures old(user) == None ==> Synced()
    {
      var restored := RestoredUser(storage);
      if restored.Some? {
        user := restored;
      }
      isLoading := false;
    }

    /** `login` and `signup` up to their simulated wait. */
    method StartRequest()
      modifies this
      ensures isLoading && user == old(user) && storage == old(storage)
    {
      isLoading := true;
    }

    /** `login` after its wait: the demo user is signed in and stored. */
    method FinishLogin(email: string)
      modifies this
      ensures user == Some(LoginUser(email))
      ensures storage == old(storage)[StorageKey := UserJson(LoginUser(email))]
      ensures !isLoading && Synced()
    {
      var u := LoginUser(email);
      user := Some(u);
      storage := storage[StorageKey := UserJson(u)];
      StorageRoundTrip(old(storage), u);
      isLoading := false;
    }

    /** `signup` after its wait: the new user is signed in and stored. */
    method FinishSignup(name: string, email: string)
      modifies this
      ensures user == Some(SignupUser(name, email))
      ensures storage == old(storage)[StorageKey := UserJson(SignupUser(name, email))]
      ensures !isLoading && Synced()
    {
      var u := SignupUser(name, email);
      user := Some(u);
      storage := storage[StorageKey := UserJson(u)];
      StorageRoundTrip(old(storage), u);
      isLoading := false;
    }

    /** `logout`: no user, and the stored entry removed. */
    method Logout()
      modifies this
      ensures user == None && storage == old(storage) - {StorageKey}
      ensures isLoading == old(isLoading) && Synced()
    {
      user := None;
      storage := storage - {StorageKey};
      StorageRoundTrip(old(storage), LoginUser(""));
    }

    /** `subscribeUser` up to its wait: the closure keeps the user of the moment it was called. */
    method StartSubscription() returns (captured: Option<User>)
      ensures captured == user
    {
      captured := user;
    }

    /**
     * `subscribeUser` after its wait, acting on the user it captured: that
     * user becomes premium and is stored; with no user nothing changes.
     */
    method FinishSubscription(captured: Option<User>)
      modifies this
      ensures captured.Some? ==> (user == Some(Subscribed(captured.value))
        && storage == old(storage)[StorageKey := UserJson(Subscribed(captured.value))] && Synced())
      ensures captured.None? ==> user == old(user) && storage == old(storage)
      ensures isLoading == old(isLoading)
    {
      if captured.Some? {
        var u := Subscribed(captured.value);
        user := Some(u);
        storage := storage[StorageKey := UserJson(u)];
        StorageRoundTrip(old(storage), u);
      }
    }
  }

  /** A subscription started while signed in and finished after a logout signs the user back in, as premium. */
  method LogoutDuringSubscription(storage: map<string, Stored>, email: string) returns (p: AuthProvider)
    ensures p.user == Some(Subscribed(LoginUser(email))) && p.CheckPremiumStatus()
  {
    p := new AuthProvider(storage);
    p.Restore();
    p.StartRequest();
    p.FinishLogin(email);
    var captured := p.StartSubscription();
    p.Logout();
    p.FinishSubscription(captured);
  }
}
