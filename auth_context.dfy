/**
 * The credential store: the `jwt_token` and `user_id` entries of
 * `localStorage` together with the provider's `user` and `isAuthenticated`
 * state fields.
 */
module AuthContext {
  import opened Wrappers
  import opened BrowserStorage

  /** `User`; the provider only ever fills in the id. */
  datatype User = User(id: string)

  /** Everything the provider reads or writes: the stored items and its two state fields. */
  datatype Session = Session(items: map<string, string>, user: Option<User>, isAuthenticated: bool)

  /** The invariant the provider keeps: authenticated exactly when a user is set. */
  predicate Consistent(s: Session) {
    s.isAuthenticated <==> s.user.Some?
  }

  /** `localStorage.getItem(key)` is truthy: stored and non-empty. */
  predicate StoredNonEmpty(items: map<string, string>, key: string) {
    key in items && items[key] != ""
  }

  /** The user the mount effect restores from storage, if any. */
  function RestoredUser(items: map<string, string>): (u: Option<User>)
    ensures u.Some? <==> StoredNonEmpty(items, TokenKey) && StoredNonEmpty(items, UserIdKey)
    ensures u.Some? ==> u.value.id == items[UserIdKey]
  {
    if StoredNonEmpty(items, TokenKey) && StoredNonEmpty(items, UserIdKey) then Some(User(items[UserIdKey]))
    else None
  }

  /** The first render: nothing is authenticated yet. */
  function Initial(items: map<string, string>): (s: Session)
    ensures Consistent(s) && !s.isAuthenticated && s.items == items
  {
    Session(items, None, false)
  }

  /** The mount effect: it sets the fields only when both credentials are stored and non-empty. */
  function Mounted(s: Session): (r: Session)
    ensures r.items == s.items
    ensures StoredNonEmpty(s.items, TokenKey) && StoredNonEmpty(s.items, UserIdKey) ==>
      r.isAuthenticated && r.user == Some(User(s.items[UserIdKey]))
    ensures !(StoredNonEmpty(s.items, TokenKey) && StoredNonEmpty(s.items, UserIdKey)) ==> r == s
  {
    var u := RestoredUser(s.items);
    if u.Some? then Session(s.items, u, true) else s
  }

  /** `login(token, userId)` */
  function LoggedIn(s: Session, token: string, userId: string): (r: Session)
    ensures TokenKey in r.items && r.items[TokenKey] == token
    ensures UserIdKey in r.items && r.items[UserIdKey] == userId
    ensures forall k :: k != TokenKey && k != UserIdKey ==> (k in r.items <==> k in s.items)
    ensures forall k :: k != TokenKey && k != UserIdKey && k in s.items ==> r.items[k] == s.items[k]
    ensures r.user == Some(User(userId)) && r.isAuthenticated
  {
    Session(s.items[TokenKey := token][UserIdKey := userId], Some(User(userId)), true)
  }

  /** `logout()` */
  function LoggedOut(s: Session): (r: Session)
    ensures TokenKey !in r.items && UserIdKey !in r.items
    ensures forall k :: k != TokenKey && k != UserIdKey ==> (k in r.items <==> k in s.items)
    ensures forall k :: k != TokenKey && k != UserIdKey && k in s.items ==> r.items[k] == s.items[k]
    ensures r.user.None? && !r.isAuthenticated
  {
    Session(s.items - {TokenKey, UserIdKey}, None, false)
  }

  /** Every transition keeps `isAuthenticated` in step with `user`. */
  lemma TransitionsConsistent(s: Session, token: string, userId: string)
    requires Consistent(s)
    ensures Consistent(Mounted(s)) && Consistent(LoggedIn(s, token, userId)) && Consistent(LoggedOut(s))
  {
  }

  /** Logging out twice is logging out once. */
  lemma LogoutIdempotent(s: Session)
    ensures LoggedOut(LoggedOut(s)) == LoggedOut(s)
  {
    assert LoggedOut(s).items - {TokenKey, UserIdKey} == LoggedOut(s).items;
  }

  /** Login then logout stores neither credential and leaves every other item as it was. */
  lemma LoginThenLogout(s: Session, token: string, userId: string)
    ensures LoggedOut(LoggedIn(s, token, userId)).items == s.items - {TokenKey, UserIdKey}
    ensures LoggedOut(LoggedIn(s, token, userId)) == LoggedOut(s)
  {
    assert s.items[TokenKey := token][UserIdKey := userId] - {TokenKey, UserIdKey} == s.items - {TokenKey, UserIdKey};
  }

  /**
   * A reload after login restores the session exactly when both credentials
   * are non-empty: a login with an empty token is forgotten on the next mount.
   */
  lemma LoginSurvivesReload(s: Session, token: string, userId: string)
    ensures var again := Mounted(Initial(LoggedIn(s, token, userId).items));
      again.isAuthenticated <==> token != "" && userId != ""
    ensures token != "" && userId != "" ==>
      Mounted(Initial(LoggedIn(s, token, userId).items)) == LoggedIn(s, token, userId)
  {
  }

  /** A reload after logout is unauthenticated. */
  lemma LogoutSurvivesReload(s: Session)
    ensures Mounted(Initial(LoggedOut(s).items)) == LoggedOut(s)
  {
  }

  class AuthProvider {
    const storage: LocalStorage
    var user: Option<User>
    var isAuthenticated: bool

    function State(): Session
      reads this, storage
    {
      Session(storage.items, user, isAuthenticated)
    }

    predicate Valid()
      reads this, storage
    {
      Consistent(State())
    }

    /** The provider's first render followed by its mount effect. */
    constructor (storage: LocalStorage)
      ensures this.storage == storage
      ensures State() == Mounted(Initial(storage.items))
      ensures Valid()
    {
      this.storage := storage;
      user := None;
      isAuthenticated := false;
      new;
      var token := storage.GetItem(TokenKey);
      var userId := storage.GetItem(UserIdKey);
      if token.Some? && token.value != "" && userId.Some? && userId.value != "" {
        user := Some(User(userId.value));
        isAuthenticated := true;
      }
    }

    method Login(token: string, userId: string)
      modifies this, storage
      ensures State() == LoggedIn(old(State()), token, userId)
      ensures Valid()
    {
      storage.SetItem(TokenKey, token);
      storage.SetItem(UserIdKey, userId);
      user := Some(User(userId));
      isAuthenticated := true;
    }

    method Logout()
      modifies this, storage
      ensures State() == LoggedOut(old(State()))
      ensures Valid()
    {
      storage.RemoveItem(TokenKey);
      storage.RemoveItem(UserIdKey);
      assert storage.items == old(storage.items) - {TokenKey, UserIdKey};
      user := None;
      isAuthenticated := false;
    }
  }

  const OutsideProviderMessage := "useAuth must be used within an AuthProvider"

  /** `useAuth`: the context of the enclosing provider; outside one it throws. */
  function UseAuth(context: Option<AuthProvider>): (r: Result<AuthProvider>)
    ensures r.Success? <==> context.Some?
    ensures r.Success? ==> r.value == context.value
    ensures r.Failure? ==> r.error == OutsideProviderMessage
  {
    match context
    case None => Failure(OutsideProviderMessage)
    case Some(c) => Success(c)
  }
}
