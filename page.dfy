/** The top-level page: a session of at most one (user, access token) pair,
    mirrored into the browser's key-value store under the keys "user" and
    "accessToken", and the choice of screen that follows from it. */
module Page {
  import opened Wrappers
  import opened UserJson

  const UserKey: string := "user"
  const TokenKey: string := "accessToken"

  /** The two dashboards, chosen by `user_metadata.role`. */
  datatype Role = Applicant | HR

  datatype Screen = LoadingScreen | AuthScreen | DashboardScreen(role: Role)

  /** JavaScript truthiness of a string that may be absent: `null` and "" are falsy. */
  predicate Truthy(v: Option<string>) { v.Some? && v.value != "" }

  /** `localStorage.getItem(key)`. */
  function GetItem(store: map<string, string>, key: string): Option<string> {
    if key in store then Some(store[key]) else None
  }

  /** The page's state: the two session slots, the store and the loading flag. */
  datatype SessionState = SessionState(
    user: Option<User>,
    token: Option<string>,
    storage: map<string, string>,
    loading: bool)

  /** The page as first rendered: nothing in the session, still loading. */
  function Mounted(store: map<string, string>): SessionState {
    SessionState(None, None, store, true)
  }

  /** The startup effect: read both keys; when both are truthy, parse the
      user; a user that does not parse is discarded from the store. */
  function Restored(s: SessionState): (r: SessionState)
    ensures !r.loading
    ensures r.storage == s.storage || r.storage == s.storage - {UserKey}
    ensures r.storage != s.storage ==>
      UserKey in s.storage && Parse(s.storage[UserKey]).Malformed?
    ensures (r.user, r.token) != (s.user, s.token) ==>
      && Truthy(GetItem(s.storage, TokenKey))
      && r.token == GetItem(s.storage, TokenKey)
      && UserKey in s.storage && Parse(s.storage[UserKey]) == Value(r.user)
  {
    var savedUser := GetItem(s.storage, UserKey);
    var savedToken := GetItem(s.storage, TokenKey);
    if Truthy(savedUser) && Truthy(savedToken) then
      match Parse(savedUser.value)
      case Malformed => s.(storage := s.storage - {UserKey}, loading := false)
      case Value(u) => s.(user := u, token := savedToken, loading := false)
    else s.(loading := false)
  }

  /** `handleLogin(u, t)`. */
  function LoggedIn(s: SessionState, u: User, t: string): (r: SessionState)
    ensures r.user == Some(u) && r.token == Some(t) && r.loading == s.loading
    ensures GetItem(r.storage, UserKey) == Some(Serialize(u))
    ensures GetItem(r.storage, TokenKey) == Some(t)
    ensures forall k :: k != UserKey && k != TokenKey ==> GetItem(r.storage, k) == GetItem(s.storage, k)
  {
    s.(user := Some(u), token := Some(t),
       storage := s.storage[UserKey := Serialize(u)][TokenKey := t])
  }

  /** `handleLogout()`. */
  function LoggedOut(s: SessionState): (r: SessionState)
    ensures r.user.None? && r.token.None? && r.loading == s.loading
    ensures GetItem(r.storage, UserKey).None? && GetItem(r.storage, TokenKey).None?
    ensures forall k :: k != UserKey && k != TokenKey ==> GetItem(r.storage, k) == GetItem(s.storage, k)
  {
    s.(user := None, token := None, storage := s.storage - {UserKey, TokenKey})
  }

  /** `user.user_metadata?.role || 'applicant'`, then `=== 'hr'`. */
  function RoleOf(u: User): (r: Role)
    ensures r == HR <==> u.role == Some("hr")
  {
    var named := if u.role.Some? && u.role.value != "" then u.role.value else "applicant";
    if named == "hr" then HR else Applicant
  }

  /** What the page renders: the spinner while loading, the auth page unless
      both a user and a truthy token are present, else the role's dashboard. */
  function ScreenOf(s: SessionState): (v: Screen)
    ensures v == LoadingScreen <==> s.loading
    ensures v == AuthScreen <==> !s.loading && (s.user.None? || !Truthy(s.token))
    ensures v.DashboardScreen? ==> s.user.Some? && v.role == RoleOf(s.user.value)
  {
    if s.loading then LoadingScreen
    else if s.user.None? || !Truthy(s.token) then AuthScreen
    else DashboardScreen(RoleOf(s.user.value))
  }

  /** A role other than "hr", or none at all, selects the applicant dashboard. */
  lemma DispatchDefaultsToApplicant(s: SessionState)
    requires !s.loading && s.user.Some? && Truthy(s.token)
    ensures s.user.value.role == Some("hr") ==> ScreenOf(s) == DashboardScreen(HR)
    ensures s.user.value.role != Some("hr") ==> ScreenOf(s) == DashboardScreen(Applicant)
  {
  }

  /** Without both keys present and non-empty, restore only ends loading. */
  lemma RestoreNeedsBothKeys(s: SessionState)
    requires !Truthy(GetItem(s.storage, UserKey)) || !Truthy(GetItem(s.storage, TokenKey))
    ensures Restored(s) == s.(loading := false)
  {
  }

  /** A fresh page whose store holds only one of the two keys stays logged out. */
  lemma RestoreWithOneKeyStaysLoggedOut(store: map<string, string>)
    requires (UserKey in store) != (TokenKey in store)
    ensures ScreenOf(Restored(Mounted(store))) == AuthScreen
  {
  }

  /** A stored user that does not parse leaves the session as it was, drops
      only the "user" key, and keeps "accessToken". */
  lemma RestoreDiscardsCorruptUser(s: SessionState)
    requires Truthy(GetItem(s.storage, UserKey)) && Truthy(GetItem(s.storage, TokenKey))
    requires Parse(s.storage[UserKey]).Malformed?
    ensures var r := Restored(s);
      && r.user == s.user && r.token == s.token
      && UserKey !in r.storage
      && GetItem(r.storage, TokenKey) == GetItem(s.storage, TokenKey)
      && forall k :: k != UserKey ==> GetItem(r.storage, k) == GetItem(s.storage, k)
  {
  }

  /** Round trip: after login, a fresh page restores the same user and
      token, exactly when the token is non-empty (an empty token is falsy). */
  lemma {:induction false} LoginThenRestore(s: SessionState, u: User, t: string)
    ensures var r := Restored(Mounted(LoggedIn(s, u, t).storage));
      (r.user == Some(u) && r.token == Some(t)) <==> t != ""
    ensures t != "" ==> ScreenOf(Restored(Mounted(LoggedIn(s, u, t).storage))) == DashboardScreen(RoleOf(u))
  {
    ParseSerialize(u);
  }

  /** Logging out twice leaves the same state as logging out once. */
  lemma LogoutIdempotent(s: SessionState)
    ensures LoggedOut(LoggedOut(s)) == LoggedOut(s)
  {
  }

  /** After logout the auth page is shown, and a later restore finds nothing. */
  lemma LogoutThenRestore(s: SessionState)
    ensures var r := Restored(Mounted(LoggedOut(s).storage));
      r.user.None? && r.token.None? && ScreenOf(r) == AuthScreen
  {
  }

  /** A later login replaces whatever pair an earlier one stored. */
  lemma LoginReplaces(s: SessionState, u1: User, t1: string, u2: User, t2: string)
    ensures LoggedIn(LoggedIn(s, u1, t1), u2, t2) == LoggedIn(s, u2, t2)
  {
    assert s.storage[UserKey := Serialize(u1)][TokenKey := t1][UserKey := Serialize(u2)][TokenKey := t2]
        == s.storage[UserKey := Serialize(u2)][TokenKey := t2];
  }

  /** The page component: the `user` and `accessToken` state hooks, the
      `loading` hook and the browser store it writes through. */
  class Session {
    var user: Option<User>
    var token: Option<string>
    var storage: map<string, string>
    var loading: bool

    function State(): SessionState
      reads this
    {
      SessionState(user, token, storage, loading)
    }

    constructor (store: map<string, string>)
      ensures State() == Mounted(store)
    {
      user, token, storage, loading := None, None, store, true;
    }

    /** The mount effect of the page. */
    method Restore()
      modifies this
      ensures State() == Restored(old(State()))
    {
      var savedUser := GetItem(storage, UserKey);
      var savedToken := GetItem(storage, TokenKey);
      if Truthy(savedUser) && Truthy(savedToken) {
        match Parse(savedUser.value)
        case Malformed =>
          storage := storage - {UserKey};
        case Value(u) =>
          user := u;
          token := savedToken;
      }
      loading := false;
    }

    method Login(u: User, t: string)
      modifies this
      ensures State() == LoggedIn(old(State()), u, t)
    {
      user := Some(u);
      token := Some(t);
      storage := storage[UserKey := Serialize(u)];
      storage := storage[TokenKey := t];
    }

    method Logout()
      modifies this
      ensures State() == LoggedOut(old(State()))
    {
      user := None;
      token := None;
      storage := storage - {UserKey};
      storage := storage - {TokenKey};
    }
  }
}
