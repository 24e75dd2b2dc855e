/**
 * The session state machine (`AuthProvider` in src/contexts/AuthContext.tsx).
 * One `AuthState` record is replaced as a whole by each transition, after the
 * auth gateway call it waits for has resolved; a transition whose call throws
 * rethrows and leaves the record as it was (except `checkAuth`, which settles
 * to the anonymous state).
 */
module AuthContext {
  import opened Types
  import opened Api
  import opened AuthService

  /** The state the provider mounts with. */
  const Initial := AuthState(None, false, true, false)
  /** The settled, signed-out state. */
  const Anonymous := AuthState(None, false, false, false)

  /** Authenticated exactly when a user is held, and a pending second factor is never authenticated. */
  predicate Consistent(s: AuthState): (b: bool)
    ensures b && s.requires2FA ==> s.user.None?
    ensures b && s.user.Some? ==> s.isAuthenticated && !s.requires2FA
  {
    && (s.isAuthenticated <==> s.user.Some?)
    && (s.requires2FA ==> !s.isAuthenticated)
  }

  /** `checkAuth`: authenticated with the user if one was found; anonymous on `null` and on error. */
  function AfterCheckAuth(current: Result<Option<User>, Thrown>): (s: AuthState)
    ensures Consistent(s) && !s.isLoading && !s.requires2FA
    ensures s.isAuthenticated <==> current.Success? && current.value.Some?
    ensures s.isAuthenticated ==> s.user == current.value
  {
    if current.Success? && current.value.Some? then AuthState(current.value, true, false, false)
    else Anonymous
  }

  /** `login`: pending second factor with no user, or logged in with the user; unchanged on error. */
  function AfterLogin(prev: AuthState, r: Result<LoginResult, Thrown>): (s: AuthState)
    ensures r.Failure? ==> s == prev
    ensures r.Success? ==> !s.isLoading && Consistent(s)
    ensures r.Success? ==> (s.requires2FA <==> r.value.Requires2FA()) && (s.isAuthenticated <==> !r.value.Requires2FA())
    ensures r.Success? && r.value.LoggedIn? ==> s.user == Some(r.value.user)
    ensures Consistent(prev) ==> Consistent(s)
  {
    match r
    case Failure(_) => prev
    case Success(TwoFactorPending(_, _)) => AuthState(None, false, false, true)
    case Success(LoggedIn(user, _)) => AuthState(Some(user), true, false, false)
  }

  /** `verify2FA`: authenticated with the verified user, whatever the state was; unchanged on error. */
  function AfterVerify(prev: AuthState, r: Result<Verify2FAResponse, Thrown>): (s: AuthState)
    ensures r.Failure? ==> s == prev
    ensures r.Success? ==> s.user == Some(r.value.user) && s.isAuthenticated && !s.requires2FA && !s.isLoading
    ensures Consistent(prev) ==> Consistent(s)
  {
    if r.Success? then prev.(user := Some(r.value.user), isAuthenticated := true, requires2FA := false, isLoading := false)
    else prev
  }

  /** `logout`: anonymous once the remote sign-out has succeeded; unchanged if it failed. */
  function AfterLogout(prev: AuthState, signOut: Outcome<Thrown>): (s: AuthState)
    ensures signOut.Pass? ==> s == Anonymous
    ensures signOut.Fail? ==> s == prev
    ensures Consistent(prev) ==> Consistent(s)
  {
    if signOut.Pass? then Anonymous else prev
  }

  /** `refreshUser`: the looked-up user (or none), authenticated exactly when there is one; unchanged on error. */
  function AfterRefresh(prev: AuthState, current: Result<Option<User>, Thrown>): (s: AuthState)
    ensures current.Failure? ==> s == prev
    ensures current.Success? ==> s.user == current.value && Consistent(s) && !s.requires2FA && !s.isLoading
    ensures Consistent(prev) ==> Consistent(s)
  {
    if current.Success? then
      prev.(user := current.value, isAuthenticated := current.value.Some?, requires2FA := false, isLoading := false)
    else prev
  }

  class AuthProvider {
    /** The shared HTTP client whose token the provider's operations read and write. */
    const api: ApiService
    var state: AuthState

    predicate Valid()
      reads this, api
    {
      api.Valid() && Consistent(state)
    }

    constructor (api: ApiService)
      requires api.Valid()
      ensures this.api == api && state == Initial
      ensures Valid()
    {
      this.api := api;
      state := Initial;
    }

    /**
     * `checkAuth`, run once on mount. `me` is the server's reply to
     * `/users/me` (asked only when a token is held) and `fallback` the
     * secondary backend's answer.
     */
    method CheckAuth(me: FetchOutcome<User>, fallback: IdentityLookup)
      requires Valid()
      modifies this, api
      ensures Valid()
      ensures state == AfterCheckAuth(CurrentUser(old(api.token), me, fallback))
      ensures api.View() == CurrentUserEffect(old(api.View()), api.hasWindow, me)
    {
      var current := GetCurrentUser(api, me, fallback);
      state := AfterCheckAuth(current);
    }

    /** `login`: returns the gateway's result unchanged, or rethrows its error. */
    method Login(credentials: Credentials, response: FetchOutcome<RawLoginResponse>)
      returns (r: Result<LoginResult, Thrown>)
      requires Valid()
      modifies this, api
      ensures Valid()
      ensures r == LoginOutcome(response, credentials.email)
      ensures state == AfterLogin(old(state), r)
      ensures api.View() == LoginEffect(old(api.View()), api.hasWindow, response, credentials.email)
    {
      r := AuthService.Login(api, credentials, response);
      if r.Success? {
        if r.value.TwoFactorPending? {
          state := AuthState(None, false, false, true);
        } else {
          state := AuthState(Some(r.value.user), true, false, false);
        }
      }
    }

    /** `verify2FA`: completes or rethrows the gateway's error. */
    method Verify2FA(verification: TwoFactorVerification, response: FetchOutcome<RawVerifyResponse>)
      returns (r: Outcome<Thrown>)
      requires Valid()
      modifies this, api
      ensures Valid()
      ensures r == (if VerifyOutcome(response).Success? then Pass else Fail(VerifyOutcome(response).error))
      ensures state == AfterVerify(old(state), VerifyOutcome(response))
      ensures api.View() == VerifyEffect(old(api.View()), api.hasWindow, response)
    {
      var _, res := AuthService.Verify2FA(api, verification, response);
      if res.Failure? {
        return Fail(res.error);
      }
      state := state.(user := Some(res.value.user), isAuthenticated := true, requires2FA := false, isLoading := false);
      r := Pass;
    }

    /**
     * `logout`, with the remote sign-out's outcome given as `signOut`. Only
     * after it succeeds are the token and the state cleared; a failure is
     * rethrown and clears nothing.
     */
    method Logout(signOut: Outcome<Thrown>) returns (r: Outcome<Thrown>)
      requires Valid()
      modifies this, api
      ensures Valid()
      ensures r == signOut
      ensures state == AfterLogout(old(state), signOut)
      ensures api.View() == (if signOut.Pass? then WithToken(old(api.View()), api.hasWindow, None) else old(api.View()))
    {
      if signOut.Fail? {
        return signOut;
      }
      api.SetToken(None);
      state := Anonymous;
      r := Pass;
    }

    /** `refreshUser`: an error is logged and leaves the state as it was. */
    method RefreshUser(me: FetchOutcome<User>, fallback: IdentityLookup)
      requires Valid()
      modifies this, api
      ensures Valid()
      ensures state == AfterRefresh(old(state), CurrentUser(old(api.token), me, fallback))
      ensures api.View() == CurrentUserEffect(old(api.View()), api.hasWindow, me)
    {
      var current := GetCurrentUser(api, me, fallback);
      if current.Success? {
        state := state.(user := current.value, isAuthenticated := current.value.Some?, requires2FA := false, isLoading := false);
      }
    }
  }

  /** The initial state is loading and consistent; `checkAuth` always ends loading. */
  lemma InitialAndBootstrap(current: Result<Option<User>, Thrown>)
    ensures Consistent(Initial) && Initial.isLoading
    ensures !AfterCheckAuth(current).isLoading
    ensures current.Failure? ==> AfterCheckAuth(current) == Anonymous
  {
  }

  /**
   * A 401 from `/users/me` during `refreshUser` is rethrown by the gateway and
   * swallowed by the provider: the token is gone, but the state, possibly
   * still authenticated, is kept. `checkAuth` settles the same reply to the
   * anonymous state.
   */
  lemma {:induction false} RefreshAfterUnauthorizedKeepsSession(
    prev: AuthState, v: ClientView, hasWindow: bool, b: Option<Body<User>>, fallback: IdentityLookup)
    requires HasToken(v.token)
    ensures var current := CurrentUser(v.token, Responded(401, b), fallback);
      && AfterRefresh(prev, current) == prev
      && AfterCheckAuth(current) == Anonymous
      && CurrentUserEffect(v, hasWindow, Responded(401, b)).token == None
  {
    var current := CurrentUser(v.token, Responded(401, b), fallback);
    assert current == Failure(ApiThrown(UnauthorizedError));
  }

  /** Logging out is idempotent: a second successful logout changes neither the state nor the page. */
  lemma LogoutIdempotent(prev: AuthState, v: ClientView, hasWindow: bool)
    ensures AfterLogout(AfterLogout(prev, Pass), Pass) == AfterLogout(prev, Pass) == Anonymous
    ensures WithToken(WithToken(v, hasWindow, None), hasWindow, None) == WithToken(v, hasWindow, None)
  {
    var once := WithToken(v, hasWindow, None);
    var twice := WithToken(once, hasWindow, None);
    assert twice.storage == once.storage;
  }

  /**
   * A login whose reply carries a token and a user, with no second-factor
   * signal, ends authenticated with that token held and stored.
   */
  lemma ScenarioDirectLogin(prev: AuthState, v: ClientView, u: User, email: string)
    ensures var raw := RawLoginResponse(NoLoginFields.(accessToken := Val("t1"), user := Val(u)), Absent);
      var response := Responded(200, Some(Body(raw, None, None)));
      var r := LoginOutcome(response, email);
      && r == Success(LoggedIn(u, Absent))
      && AfterLogin(prev, r) == AuthState(Some(u), true, false, false)
      && LoginEffect(v, true, response, email).token == Some("t1")
      && LoginEffect(v, true, response, email).storage[TokenKey] == "t1"
  {
    var raw := RawLoginResponse(NoLoginFields.(accessToken := Val("t1"), user := Val(u)), Absent);
    assert !RequiresTwoFactor(NormaliseLogin(raw));
  }

  /**
   * A reply that says `requiresTwoFactor: true` with `user_id: "42"` leaves
   * the session pending the second factor for user "42", and stores nothing.
   */
  lemma ScenarioPendingLogin(prev: AuthState, v: ClientView, hasWindow: bool, email: string)
    ensures var raw := RawLoginResponse(NoLoginFields.(requiresTwoFactor := Val(true), user_id := Val("42")), Absent);
      var response := Responded(200, Some(Body(raw, None, None)));
      var r := LoginOutcome(response, email);
      && r == Success(TwoFactorPending("42", Absent))
      && AfterLogin(prev, r) == AuthState(None, false, false, true)
      && LoginEffect(v, hasWindow, response, email) == v
  {
  }

  /** A verification reply `{token: "t2", user}` ends authenticated with "t2" held. */
  lemma ScenarioVerify(prev: AuthState, v: ClientView, hasWindow: bool, u: User)
    ensures var raw := RawVerifyResponse(NoVerifyFields.(token := Val("t2"), user := Val(u)), Absent);
      var response := Responded(200, Some(Body(raw, None, None)));
      && VerifyOutcome(response) == Success(Verify2FAResponse("t2", u))
      && AfterVerify(prev, VerifyOutcome(response)) == AuthState(Some(u), true, false, false)
      && VerifyEffect(v, hasWindow, response).token == Some("t2")
  {
  }
}
