/**
 * The auth slice: who is signed in, the access token, and whether the
 * session is still being restored. The refresh token is not kept in the
 * slice but in the browser's local storage, written by `loginSuccess` and
 * removed by `logout` and `initFailure`; the storage is a map on the store.
 */
module AuthSlice {
  import opened Util

  /**
   * The roles the route guards compare against. The role constants module
   * is not part of this model, so the roles are kept symbolic.
   */
  datatype Role = Admin | Seller | OtherRole(name: string)

  datatype User = User(userId: string, userRole: Role)

  /** The slice's state; `null` is `None`. */
  datatype AuthState = AuthState(
    user: Option<User>,
    accessToken: Option<string>,
    isAuthenticated: bool,
    isLoading: bool)

  /** The local-storage key of the refresh token. */
  const RefreshKey := "refreshToken"

  /** `!!localStorage.getItem('refreshToken')`: present and not the empty string. */
  predicate HasRefreshToken(storage: map<string, string>)
  {
    RefreshKey in storage && storage[RefreshKey] != ""
  }

  /** The state after a reload: nobody signed in, loading iff a refresh token is stored. */
  function InitialAuth(storage: map<string, string>): (s: AuthState)
    ensures s.user.None? && s.accessToken.None? && !s.isAuthenticated
    ensures s.isLoading <==> RefreshKey in storage && storage[RefreshKey] != ""
  {
    AuthState(None, None, false, HasRefreshToken(storage))
  }

  /** The signed-out state `logout` produces. */
  const SignedOut := AuthState(None, None, false, false)

  /** `loginSuccess` on the slice's fields. */
  function LoggedIn(s: AuthState, user: Option<User>, accessToken: Option<string>): (r: AuthState)
    ensures r.user == user && r.accessToken == accessToken
    ensures r.isAuthenticated && !r.isLoading
  {
    AuthState(user, accessToken, true, false)
  }

  /** `tokenRefresh`: only the access token and the loading flag change. */
  function Refreshed(s: AuthState, accessToken: Option<string>): (r: AuthState)
    ensures r.accessToken == accessToken && !r.isLoading
    ensures r.user == s.user && r.isAuthenticated == s.isAuthenticated
  {
    s.(accessToken := accessToken, isLoading := false)
  }

  /** `initFailure`: loading ends, the signed-in fields stay as they were. */
  function InitFailed(s: AuthState): (r: AuthState)
    ensures !r.isLoading
    ensures r.user == s.user && r.accessToken == s.accessToken && r.isAuthenticated == s.isAuthenticated
  {
    s.(isLoading := false)
  }

  /**
   * Signing in and then out leaves no trace: the slice is what a reload
   * with the resulting storage would give, and the storage is the original
   * one without the refresh token.
   */
  lemma LoginThenLogout(storage: map<string, string>, refreshToken: string)
    ensures var after := storage[RefreshKey := refreshToken] - {RefreshKey};
      after == storage - {RefreshKey} && SignedOut == InitialAuth(after)
  {
    var after := storage[RefreshKey := refreshToken] - {RefreshKey};
    assert forall k :: k in after <==> k in storage - {RefreshKey};
  }

  /** A stored token is seen by the next reload; a removed one is not. */
  lemma StorageDecidesReload(storage: map<string, string>, refreshToken: string)
    ensures InitialAuth(storage[RefreshKey := refreshToken]).isLoading <==> refreshToken != ""
    ensures !InitialAuth(storage - {RefreshKey}).isLoading
  {
  }

  /** A refresh followed by another keeps only the second token. */
  lemma RefreshOverwrites(s: AuthState, a: Option<string>, b: Option<string>)
    ensures Refreshed(Refreshed(s, a), b) == Refreshed(s, b)
    ensures InitFailed(InitFailed(s)) == InitFailed(s)
  {
  }

  class AuthStore {
    var user: Option<User>
    var accessToken: Option<string>
    var isAuthenticated: bool
    var isLoading: bool
    /** The browser's local storage. */
    var storage: map<string, string>

    function Current(): AuthState
      reads this
    {
      AuthState(user, accessToken, isAuthenticated, isLoading)
    }

    constructor(stored: map<string, string>)
      ensures Current() == InitialAuth(stored) && storage == stored
    {
      user := None;
      accessToken := None;
      isAuthenticated := false;
      isLoading := RefreshKey in stored && stored[RefreshKey] != "";
      storage := stored;
    }

    method LoginSuccess(newUser: Option<User>, newAccessToken: Option<string>, refreshToken: string)
      modifies this
      ensures Current() == LoggedIn(old(Current()), newUser, newAccessToken)
      ensures storage == old(storage)[RefreshKey := refreshToken]
    {
      user := newUser;
      accessToken := newAccessToken;
      isAuthenticated := true;
      isLoading := false;
      storage := storage[RefreshKey := refreshToken];
    }

    method Logout()
      modifies this
      ensures Current() == SignedOut
      ensures storage == old(storage) - {RefreshKey}
    {
      user := None;
      accessToken := None;
      isAuthenticated := false;
      isLoading := false;
      storage := storage - {RefreshKey};
    }

    method TokenRefresh(newAccessToken: Option<string>)
      modifies this
      ensures Current() == Refreshed(old(Current()), newAccessToken)
      ensures storage == old(storage)
    {
      accessToken := newAccessToken;
      isLoading := false;
    }

    method InitFailure()
      modifies this
      ensures Current() == InitFailed(old(Current()))
      ensures storage == old(storage) - {RefreshKey}
    {
      isLoading := false;
      storage := storage - {RefreshKey};
    }
  }

  /** `logout` twice is `logout` once, on the slice and on the storage. */
  method LogoutIdempotent(store: AuthStore)
    modifies store
    ensures store.Current() == SignedOut && !HasRefreshToken(store.storage)
    ensures store.storage == old(store.storage) - {RefreshKey}
  {
    store.Logout();
    store.Logout();
    assert forall k :: k in store.storage <==> k in old(store.storage) - {RefreshKey};
  }
}
