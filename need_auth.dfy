/**
 * The authenticated area's route guard. Before a protected route loads,
 * the guard reads a snapshot of the auth slice: while the session is still
 * being restored it returns a loading element, which the router merges
 * into the route context rather than rendering, so the protected route
 * loads as it would for a signed-in user; otherwise a visitor who is not
 * authenticated, or has no user record, is redirected to the login page
 * with the URL to come back to.
 */
module NeedAuth {
  import opened Util
  import opened AuthSlice

  /** The login redirect's search parameters and target. */
  datatype Redirect = Redirect(to: string, redirect: string, error: string)

  /**
   * What `beforeLoad` does: return a value while loading (no redirect, the
   * route loads), throw a redirect, or return nothing (the route loads).
   */
  datatype GuardOutcome = PassWhileLoading | Throw(target: Redirect) | PassThrough

  const LoginPath := "/login"
  const LoginRequired := "login_required"

  function BeforeLoad(auth: AuthState, href: string): (r: GuardOutcome)
    ensures auth.isLoading ==> r == PassWhileLoading
    ensures r.Throw? <==> !auth.isLoading && (!auth.isAuthenticated || auth.user.None?)
    ensures r.Throw? ==> r.target == Redirect("/login", href, "login_required")
    ensures r == PassThrough <==> !auth.isLoading && auth.isAuthenticated && auth.user.Some?
  {
    if auth.isLoading then PassWhileLoading
    else if !auth.isAuthenticated || auth.user.None? then Throw(Redirect(LoginPath, href, LoginRequired))
    else PassThrough
  }

  /** After a successful login the guard lets a real user through, and only a real user. */
  lemma LoginOpensTheGuard(s: AuthState, user: Option<User>, accessToken: Option<string>, href: string)
    ensures BeforeLoad(LoggedIn(s, user, accessToken), href) == PassThrough <==> user.Some?
  {
  }

  /** After logout, and after a reload with no stored refresh token, the guard sends to the login page. */
  lemma SignedOutIsRedirected(storage: map<string, string>, href: string)
    ensures BeforeLoad(SignedOut, href) == Throw(Redirect(LoginPath, href, LoginRequired))
    ensures !HasRefreshToken(storage) ==> BeforeLoad(InitialAuth(storage), href).Throw?
    ensures HasRefreshToken(storage) ==> BeforeLoad(InitialAuth(storage), href) == PassWhileLoading
  {
  }

  /**
   * The guard is open during a session restore: right after a reload with a
   * stored refresh token nobody is authenticated and there is no user, yet
   * no redirect is thrown.
   */
  lemma OpenWhileRestoring(storage: map<string, string>, href: string)
    requires HasRefreshToken(storage)
    ensures !InitialAuth(storage).isAuthenticated && InitialAuth(storage).user.None?
    ensures !BeforeLoad(InitialAuth(storage), href).Throw?
  {
  }

  /** A failed session restore turns a loading guard into a redirect for a visitor nobody signed in as. */
  lemma InitFailureRedirects(storage: map<string, string>, href: string)
    ensures BeforeLoad(InitFailed(InitialAuth(storage)), href).Throw?
  {
  }
}
