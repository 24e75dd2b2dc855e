/**
 * The auth gateway (`authService` in src/services/auth.service.ts): it turns
 * the server's login and verification replies, which come in several shapes,
 * into one result type, stores the token on the shared client, and resolves
 * the current user from the server or from a secondary identity backend.
 *
 * The server's replies are inputs (`FetchOutcome`), and so is the outcome of
 * the secondary backend's session-and-row lookup (`IdentityLookup`).
 */
module AuthService {
  import opened Types
  import opened Api

  const LoginEndpoint := "/users/login"
  const VerifyEndpoint := "/users/login/verify"
  const MeEndpoint := "/users/me"
  const LoginMissingMessage := "Login response missing authentication details."
  const VerifyMissingMessage := "Verification response missing authentication details."

  // ---------------------------------------------------------------------------
  // Response shapes and their normalisation
  // ---------------------------------------------------------------------------

  /** One level of a login reply: every alias a server has been seen to use. */
  datatype LoginPayload = LoginPayload(
    requires2FA: Field<bool>,
    requiresTwoFactor: Field<bool>,
    userId: Field<string>,
    user_id: Field<string>,
    accessToken: Field<string>,
    token: Field<string>,
    user: Field<User>,
    message: Field<string>,
    msg: Field<string>,
    detail: Field<string>,
    description: Field<string>)

  const NoLoginFields := LoginPayload(Absent, Absent, Absent, Absent, Absent, Absent, Absent, Absent, Absent, Absent, Absent)

  /** A login reply: its top-level fields, and the optional `data` envelope. */
  datatype RawLoginResponse = RawLoginResponse(fields: LoginPayload, data: Field<LoginPayload>)

  /** The empty object `{}`, which is what a 204 reply reads as. */
  const EmptyLoginResponse := RawLoginResponse(NoLoginFields, Absent)

  datatype NormalisedLogin = NormalisedLogin(
    requires2FA: Field<bool>,
    userId: Field<string>,
    accessToken: Field<string>,
    user: Field<User>,
    message: Field<string>)

  /** One level of a verification reply. */
  datatype VerifyPayload = VerifyPayload(accessToken: Field<string>, token: Field<string>, user: Field<User>)

  const NoVerifyFields := VerifyPayload(Absent, Absent, Absent)

  datatype RawVerifyResponse = RawVerifyResponse(fields: VerifyPayload, data: Field<VerifyPayload>)

  const EmptyVerifyResponse := RawVerifyResponse(NoVerifyFields, Absent)

  /** The body posted to the verification endpoint. */
  datatype VerifyRequest = VerifyRequest(email: string, code: string)

  /** One key of `{...top, ...inner}`: a key present on `inner` wins, even when it holds `null`. */
  function Spread<T>(top: Field<T>, inner: Field<T>): (r: Field<T>)
    ensures inner.Present() ==> r == inner
    ensures !inner.Present() ==> r == top
  {
    if inner.Present() then inner else top
  }

  /** `payload.data ?? {}`. */
  function Envelope<P>(data: Field<P>, empty: P): P {
    if data.Val? then data.v else empty
  }

  /** `{ ...payload, ...(payload.data ?? {}) }` for a login reply. */
  function MergeLogin(p: RawLoginResponse): (m: LoginPayload)
    ensures m.requires2FA == (if p.data.Val? && p.data.v.requires2FA.Present() then p.data.v.requires2FA else p.fields.requires2FA)
    ensures m.requiresTwoFactor == (if p.data.Val? && p.data.v.requiresTwoFactor.Present() then p.data.v.requiresTwoFactor else p.fields.requiresTwoFactor)
    ensures m.userId == (if p.data.Val? && p.data.v.userId.Present() then p.data.v.userId else p.fields.userId)
    ensures m.user_id == (if p.data.Val? && p.data.v.user_id.Present() then p.data.v.user_id else p.fields.user_id)
    ensures m.accessToken == (if p.data.Val? && p.data.v.accessToken.Present() then p.data.v.accessToken else p.fields.accessToken)
    ensures m.token == (if p.data.Val? && p.data.v.token.Present() then p.data.v.token else p.fields.token)
    ensures m.user == (if p.data.Val? && p.data.v.user.Present() then p.data.v.user else p.fields.user)
    ensures m.message == (if p.data.Val? && p.data.v.message.Present() then p.data.v.message else p.fields.message)
    ensures m.msg == (if p.data.Val? && p.data.v.msg.Present() then p.data.v.msg else p.fields.msg)
    ensures m.detail == (if p.data.Val? && p.data.v.detail.Present() then p.data.v.detail else p.fields.detail)
    ensures m.description == (if p.data.Val? && p.data.v.description.Present() then p.data.v.description else p.fields.description)
    ensures !p.data.Val? ==> m == p.fields
    ensures p.data == Val(NoLoginFields) ==> m == p.fields
    ensures p.data.Val? && p.fields == NoLoginFields ==> m == p.data.v
  {
    var top := p.fields;
    var d := Envelope(p.data, NoLoginFields);
    LoginPayload(
      Spread(top.requires2FA, d.requires2FA),
      Spread(top.requiresTwoFactor, d.requiresTwoFactor),
      Spread(top.userId, d.userId),
      Spread(top.user_id, d.user_id),
      Spread(top.accessToken, d.accessToken),
      Spread(top.token, d.token),
      Spread(top.user, d.user),
      Spread(top.message, d.message),
      Spread(top.msg, d.msg),
      Spread(top.detail, d.detail),
      Spread(top.description, d.description))
  }

  /** `normaliseLoginResponse`: merge the envelope, then resolve each alias group with `??`. */
  function NormaliseLogin(p: RawLoginResponse): (n: NormalisedLogin)
    ensures var m := MergeLogin(p);
      && n.user == m.user
      && n.requires2FA in {m.requires2FA, m.requiresTwoFactor}
      && (n.requires2FA.Val? <==> m.requires2FA.Val? || m.requiresTwoFactor.Val?)
      && n.userId in {m.userId, m.user_id}
      && (n.userId.Val? <==> m.userId.Val? || m.user_id.Val?)
      && n.accessToken in {m.accessToken, m.token}
      && (n.accessToken.Val? <==> m.accessToken.Val? || m.token.Val?)
      && n.message in {m.message, m.msg, m.description, m.detail}
      && (n.message.Val? <==> m.message.Val? || m.msg.Val? || m.description.Val? || m.detail.Val?)
  {
    var m := MergeLogin(p);
    NormalisedLogin(
      m.requires2FA.OrElse(m.requiresTwoFactor),
      m.userId.OrElse(m.user_id),
      m.accessToken.OrElse(m.token),
      m.user,
      m.message.OrElse(m.msg).OrElse(m.description).OrElse(m.detail))
  }

  /**
   * Reference reading of a chain `a ?? b ?? … ?? z`: the first non-nullish
   * entry, or the last entry when every one is nullish.
   */
  function Coalesce<T>(fs: seq<Field<T>>): (r: Field<T>)
    requires |fs| > 0
    ensures r.Val? <==> exists i :: 0 <= i < |fs| && fs[i].Val?
    ensures r.Val? ==> exists i :: 0 <= i < |fs| && fs[i] == r && forall j :: 0 <= j < i ==> !fs[j].Val?
    ensures !r.Val? ==> r == fs[|fs| - 1]
  {
    if |fs| == 1 || fs[0].Val? then fs[0]
    else
      var r := Coalesce(fs[1..]);
      assert forall i :: 1 <= i < |fs| ==> fs[i] == fs[1..][i - 1];
      r
  }

  /**
   * Alias precedence of the login normaliser: `requires2FA` before
   * `requiresTwoFactor`, `userId` before `user_id`, `accessToken` before
   * `token`, and `message`, `msg`, `description`, `detail` in that order.
   */
  lemma {:induction false} LoginAliasPrecedence(p: RawLoginResponse)
    ensures var m, n := MergeLogin(p), NormaliseLogin(p);
      && n.requires2FA == Coalesce([m.requires2FA, m.requiresTwoFactor])
      && n.userId == Coalesce([m.userId, m.user_id])
      && n.accessToken == Coalesce([m.accessToken, m.token])
      && n.message == Coalesce([m.message, m.msg, m.description, m.detail])
  {
    MessageChain(MergeLogin(p));
  }

  /** The four-alias message chain, read left to right, is `Coalesce` of the four. */
  lemma {:induction false} MessageChain(m: LoginPayload)
    ensures m.message.OrElse(m.msg).OrElse(m.description).OrElse(m.detail)
         == Coalesce([m.message, m.msg, m.description, m.detail])
  {
    var four, three, two := [m.message, m.msg, m.description, m.detail], [m.msg, m.description, m.detail], [m.description, m.detail];
    assert four[1..] == three && three[1..] == two && two[1..] == [m.detail];
    assert Coalesce(two) == m.description.OrElse(m.detail);
    assert Coalesce(three) == m.msg.OrElse(Coalesce(two));
    assert Coalesce(four) == m.message.OrElse(Coalesce(three));
  }

  /** An explicit `requires2FA: false` wins over `requiresTwoFactor: true`. */
  lemma ExplicitFlagWins(p: RawLoginResponse)
    requires MergeLogin(p).requires2FA == Val(false)
    ensures NormaliseLogin(p).requires2FA == Val(false)
  {
  }

  /**
   * A value the `data` envelope holds under a key replaces the top-level value
   * under that same key. The spread works key by key, so an alias in the
   * envelope does not displace the other alias at the top level.
   */
  lemma EnvelopeOverrides(p: RawLoginResponse)
    requires p.data.Val?
    ensures p.data.v.accessToken.Present() ==> MergeLogin(p).accessToken == p.data.v.accessToken
    ensures p.data.v.token.Present() ==> MergeLogin(p).token == p.data.v.token
    ensures p.data.v.user.Present() ==> NormaliseLogin(p).user == p.data.v.user
    ensures p.data.v.requires2FA.Val? ==> NormaliseLogin(p).requires2FA == p.data.v.requires2FA
    ensures p.data.v.userId.Val? ==> NormaliseLogin(p).userId == p.data.v.userId
    ensures p.data.v.accessToken.Val? ==> NormaliseLogin(p).accessToken == p.data.v.accessToken
    ensures p.data.v.message.Val? ==> NormaliseLogin(p).message == p.data.v.message
  {
  }

  /** `{ ...payload, ...(payload.data ?? {}) }` for a verification reply, then `accessToken ?? token`. */
  function MergeVerify(p: RawVerifyResponse): (m: VerifyPayload)
    ensures !p.data.Val? ==> m == p.fields
    ensures p.data.Val? && p.fields == NoVerifyFields ==> m == p.data.v
    ensures m.accessToken == (if p.data.Val? && p.data.v.accessToken.Present() then p.data.v.accessToken else p.fields.accessToken)
    ensures m.token == (if p.data.Val? && p.data.v.token.Present() then p.data.v.token else p.fields.token)
    ensures m.user == (if p.data.Val? && p.data.v.user.Present() then p.data.v.user else p.fields.user)
  {
    var d := Envelope(p.data, NoVerifyFields);
    VerifyPayload(
      Spread(p.fields.accessToken, d.accessToken),
      Spread(p.fields.token, d.token),
      Spread(p.fields.user, d.user))
  }

  /** `!accessToken`: false only for a non-empty string. */
  predicate TruthyText(f: Field<string>) {
    f.Val? && f.v != ""
  }

  /**
   * `normaliseVerifyResponse`: the token (`accessToken`, else `token`) and the
   * user, or the missing-details error when either is missing or empty.
   */
  function NormaliseVerify(p: RawVerifyResponse): (r: Result<Verify2FAResponse, Thrown>)
    ensures var m := MergeVerify(p); var t := m.accessToken.OrElse(m.token);
      && (r.Success? <==> TruthyText(t) && m.user.Val?)
      && (r.Success? ==> r.value.accessToken == t.v && r.value.accessToken != "" && m.user == Val(r.value.user))
      && (r.Failure? ==> r.error == ErrorThrown(VerifyMissingMessage))
  {
    var m := MergeVerify(p);
    var accessToken := m.accessToken.OrElse(m.token);
    if !TruthyText(accessToken) || !m.user.Val? then Failure(ErrorThrown(VerifyMissingMessage))
    else Success(Verify2FAResponse(accessToken.v, m.user.v))
  }

  /**
   * A token or user the `data` envelope of a verification reply holds under
   * the same key as the top level wins over the top-level value.
   */
  lemma VerifyEnvelopeOverrides(p: RawVerifyResponse)
    requires p.data.Val?
    ensures p.data.v.accessToken.Val? && NormaliseVerify(p).Success? ==> NormaliseVerify(p).value.accessToken == p.data.v.accessToken.v
    ensures p.data.v.user.Val? && NormaliseVerify(p).Success? ==> NormaliseVerify(p).value.user == p.data.v.user.v
  {
  }

  /**
   * The envelope only overrides key by key: a top-level `accessToken` beats a
   * `token` inside `data`, because `accessToken ?? token` is applied after the
   * merge and the merged `accessToken` is still the top-level one.
   */
  lemma EnvelopeAliasLoses(stale: string, current: string, u: User)
    requires stale != ""
    ensures NormaliseVerify(RawVerifyResponse(
              NoVerifyFields.(accessToken := Val(stale)),
              Val(NoVerifyFields.(token := Val(current), user := Val(u)))))
            == Success(Verify2FAResponse(stale, u))
  {
    var p := RawVerifyResponse(NoVerifyFields.(accessToken := Val(stale)), Val(NoVerifyFields.(token := Val(current), user := Val(u))));
    assert MergeVerify(p) == VerifyPayload(Val(stale), Val(current), Val(u));
  }

  // ---------------------------------------------------------------------------
  // The second-factor heuristic: /verification code/i
  // ---------------------------------------------------------------------------

  const Phrase := "verification code"

  /**
   * Case folding of a regular expression with the `i` flag and without `u`:
   * a character is folded only when its upper-case form stays on the same
   * side of the ASCII boundary, so for this all-ASCII phrase only A–Z fold.
   */
  function FoldAscii(c: char): char {
    if 'A' <= c <= 'Z' then (c as int + 32) as char else c
  }

  predicate MatchesAt(s: string, i: nat)
    requires i + |Phrase| <= |s|
  {
    forall k :: 0 <= k < |Phrase| ==> FoldAscii(s[i + k]) == Phrase[k]
  }

  /** The phrase occurs somewhere in `s`, ignoring case. */
  ghost predicate Mentions(s: string) {
    exists i: nat :: i + |Phrase| <= |s| && MatchesAt(s, i)
  }

  /** The search the regular expression performs, from position `i` onwards. */
  function SearchFrom(s: string, i: nat): (found: bool)
    requires i <= |s|
    ensures found <==> exists j: nat :: i <= j && j + |Phrase| <= |s| && MatchesAt(s, j)
    decreases |s| - i
  {
    if i + |Phrase| > |s| then false
    else if MatchesAt(s, i) then true
    else SearchFrom(s, i + 1)
  }

  /** `/verification code/i.test(s)`. */
  function ContainsPhrase(s: string): (found: bool)
    ensures found <==> Mentions(s)
  {
    SearchFrom(s, 0)
  }

  /**
   * The 2FA decision of `login`: an explicit `true` flag, or a non-empty
   * message that mentions a verification code.
   */
  predicate RequiresTwoFactor(n: NormalisedLogin): (b: bool)
    ensures b <==> n.requires2FA == Val(true) || (n.message.Val? && n.message.v != "" && Mentions(n.message.v))
  {
    n.requires2FA == Val(true) || (TruthyText(n.message) && ContainsPhrase(n.message.v))
  }

  /** The match ignores case: a capitalised phrase inside a longer message still signals 2FA. */
  lemma CapitalisedPhraseMatches()
    ensures ContainsPhrase("Enter Verification CODE")
  {
    var s := "Enter Verification CODE";
    assert forall k :: 0 <= k < |Phrase| ==> FoldAscii(s[6 + k]) == Phrase[k];
    assert MatchesAt(s, 6);
  }

  // ---------------------------------------------------------------------------
  // login
  // ---------------------------------------------------------------------------

  /**
   * What `login` decides once the reply is in: the pending-2FA result (user id
   * from the reply, else the submitted email), the missing-details error, or
   * the logged-in result.
   */
  function LoginDecision(raw: RawLoginResponse, email: string): (r: Result<LoginResult, Thrown>)
    ensures var n := NormaliseLogin(raw);
      && (r.Success? && r.value.TwoFactorPending? <==> RequiresTwoFactor(n))
      && (r.Success? && r.value.TwoFactorPending? ==>
            r.value.userId == (if n.userId.Val? then n.userId.v else email) && r.value.message == n.message)
      && (r.Failure? <==> !RequiresTwoFactor(n) && (!TruthyText(n.accessToken) || !n.user.Val?))
      && (r.Failure? ==> r.error == ErrorThrown(LoginMissingMessage))
      && (r.Success? && r.value.LoggedIn? ==>
            TruthyText(n.accessToken) && n.user == Val(r.value.user) && r.value.message == n.message)
  {
    var n := NormaliseLogin(raw);
    if RequiresTwoFactor(n) then
      Success(TwoFactorPending(if n.userId.Val? then n.userId.v else email, n.message))
    else if !TruthyText(n.accessToken) || !n.user.Val? then
      Failure(ErrorThrown(LoginMissingMessage))
    else
      Success(LoggedIn(n.user.v, n.message))
  }

  /** The value a `post<T>` call resolves to, with `{}` for a 204. */
  function Resolved<T>(p: Payload<T>, empty: T): T {
    if p.Parsed? then p.value else empty
  }

  /** `authService.login`, as a function of the server's reply. */
  function LoginOutcome(response: FetchOutcome<RawLoginResponse>, email: string): (r: Result<LoginResult, Thrown>)
    ensures Classify(response).Failure? <==> r.Failure? && r.error.ApiThrown?
    ensures Classify(response).Failure? ==> r == Failure(ApiThrown(Classify(response).error))
    ensures r.Success? ==> response.Responded? && IsOk(response.status)
    ensures response.Responded? && response.status == 204 ==> r == Failure(ErrorThrown(LoginMissingMessage))
    ensures Classify(response).Success? ==> r == LoginDecision(Resolved(Classify(response).value, EmptyLoginResponse), email)
  {
    match Classify(response)
    case Failure(e) => Failure(ApiThrown(e))
    case Success(p) => LoginDecision(Resolved(p, EmptyLoginResponse), email)
  }

  /** What `authService.login` does to the page: the request's own effect, then the token on success. */
  function LoginEffect(v: ClientView, hasWindow: bool, response: FetchOutcome<RawLoginResponse>, email: string): (e: ClientView)
    ensures e.path == v.path
    ensures Mirrored(v, hasWindow) ==> Mirrored(e, hasWindow)
    ensures LoginOutcome(response, email).Success? && LoginOutcome(response, email).value.LoggedIn? ==> HasToken(e.token)
    ensures (!(LoginOutcome(response, email).Success? && LoginOutcome(response, email).value.LoggedIn?)
             && !(response.Responded? && response.status == 401)) ==> e == v
  {
    var after := AfterResponse(v, hasWindow, false, response);
    var r := LoginOutcome(response, email);
    if r.Success? && r.value.LoggedIn? then
      var raw := Resolved(Classify(response).value, EmptyLoginResponse);
      WithToken(after, hasWindow, Some(NormaliseLogin(raw).accessToken.v))
    else after
  }

  method Login(api: ApiService, credentials: Credentials, response: FetchOutcome<RawLoginResponse>)
    returns (r: Result<LoginResult, Thrown>)
    requires api.Valid()
    modifies api
    ensures api.Valid()
    ensures r == LoginOutcome(response, credentials.email)
    ensures api.View() == LoginEffect(old(api.View()), api.hasWindow, response, credentials.email)
  {
    var _, _, res := api.Request(LoginEndpoint, map[], false, response);
    if res.Failure? {
      return Failure(ApiThrown(res.error));
    }
    var raw := Resolved(res.value, EmptyLoginResponse);
    var n := NormaliseLogin(raw);
    if RequiresTwoFactor(n) {
      return Success(TwoFactorPending(if n.userId.Val? then n.userId.v else credentials.email, n.message));
    }
    if !TruthyText(n.accessToken) || !n.user.Val? {
      return Failure(ErrorThrown(LoginMissingMessage));
    }
    api.SetToken(Some(n.accessToken.v));
    r := Success(LoggedIn(n.user.v, n.message));
  }

  /** The 2FA branch never touches the token. */
  lemma TwoFactorStoresNoToken(v: ClientView, hasWindow: bool, response: FetchOutcome<RawLoginResponse>, email: string)
    requires LoginOutcome(response, email).Success? && LoginOutcome(response, email).value.TwoFactorPending?
    ensures LoginEffect(v, hasWindow, response, email) == v
  {
  }

  /**
   * A logged-in result means the reply's non-empty access token is now held,
   * and stored when a window exists; a missing-details error leaves the
   * token as it was.
   */
  lemma LoginStoresToken(v: ClientView, hasWindow: bool, response: FetchOutcome<RawLoginResponse>, email: string)
    ensures var r, after := LoginOutcome(response, email), LoginEffect(v, hasWindow, response, email);
      && (r.Success? && r.value.LoggedIn? ==>
            && HasToken(after.token)
            && after.token.value == NormaliseLogin(Resolved(Classify(response).value, EmptyLoginResponse)).accessToken.v
            && (hasWindow ==> StoredToken(after.storage, hasWindow) == after.token))
      && (r.Failure? && r.error.ErrorThrown? ==> after == v)
  {
  }

  /** A 401 on the login call clears the token but never navigates, since the call does not require auth. */
  lemma LoginUnauthorized(v: ClientView, hasWindow: bool, b: Option<Body<RawLoginResponse>>, email: string)
    ensures LoginOutcome(Responded(401, b), email) == Failure(ApiThrown(UnauthorizedError))
    ensures LoginEffect(v, hasWindow, Responded(401, b), email) == WithToken(v, hasWindow, None)
  {
  }

  // ---------------------------------------------------------------------------
  // verify2FA
  // ---------------------------------------------------------------------------

  /** `authService.verify2FA`, as a function of the server's reply. */
  function VerifyOutcome(response: FetchOutcome<RawVerifyResponse>): (r: Result<Verify2FAResponse, Thrown>)
    ensures Classify(response).Failure? <==> r.Failure? && r.error.ApiThrown?
    ensures Classify(response).Failure? ==> r == Failure(ApiThrown(Classify(response).error))
    ensures r.Success? ==> response.Responded? && IsOk(response.status) && r.value.accessToken != ""
    ensures response.Responded? && response.status == 204 ==> r == Failure(ErrorThrown(VerifyMissingMessage))
    ensures Classify(response).Success? ==> r == NormaliseVerify(Resolved(Classify(response).value, EmptyVerifyResponse))
  {
    match Classify(response)
    case Failure(e) => Failure(ApiThrown(e))
    case Success(p) => NormaliseVerify(Resolved(p, EmptyVerifyResponse))
  }

  function VerifyEffect(v: ClientView, hasWindow: bool, response: FetchOutcome<RawVerifyResponse>): (e: ClientView)
    ensures e.path == v.path
    ensures Mirrored(v, hasWindow) ==> Mirrored(e, hasWindow)
    ensures VerifyOutcome(response).Success? ==> e.token == Some(VerifyOutcome(response).value.accessToken)
    ensures VerifyOutcome(response).Failure? && !(response.Responded? && response.status == 401) ==> e == v
    ensures VerifyOutcome(response).Failure? ==> e == AfterResponse(v, hasWindow, false, response)
  {
    var after := AfterResponse(v, hasWindow, false, response);
    var r := VerifyOutcome(response);
    if r.Success? then WithToken(after, hasWindow, Some(r.value.accessToken)) else after
  }

  method Verify2FA(api: ApiService, verification: TwoFactorVerification, response: FetchOutcome<RawVerifyResponse>)
    returns (posted: VerifyRequest, r: Result<Verify2FAResponse, Thrown>)
    requires api.Valid()
    modifies api
    ensures api.Valid()
    ensures posted == VerifyRequest(verification.userId, verification.code)
    ensures r == VerifyOutcome(response)
    ensures api.View() == VerifyEffect(old(api.View()), api.hasWindow, response)
  {
    posted := VerifyRequest(verification.userId, verification.code);
    var _, _, res := api.Request(VerifyEndpoint, map[], false, response);
    if res.Failure? {
      return posted, Failure(ApiThrown(res.error));
    }
    r := NormaliseVerify(Resolved(res.value, EmptyVerifyResponse));
    if r.Success? {
      api.SetToken(Some(r.value.accessToken));
    }
  }

  /** A successful verification holds (and, with a window, stores) exactly the returned token. */
  lemma VerifyStoresToken(v: ClientView, hasWindow: bool, response: FetchOutcome<RawVerifyResponse>)
    ensures var r, after := VerifyOutcome(response), VerifyEffect(v, hasWindow, response);
      && (r.Success? ==> after.token == Some(r.value.accessToken) && HasToken(after.token)
                         && StoredToken(after.storage, hasWindow) == (if hasWindow then after.token else None))
      && (r.Failure? && r.error.ErrorThrown? ==> after == v)
  {
  }

  // ---------------------------------------------------------------------------
  // getCurrentUser
  // ---------------------------------------------------------------------------

  /**
   * The secondary identity backend's answer to "current session, then its
   * user row": no session, no row, the row, or a thrown error.
   */
  datatype IdentityLookup = NoSession | NoRow | Row(user: User) | LookupError(error: Thrown)

  /** `try { return await fetchSupabaseUser(); } catch { return null; }`. */
  function FallbackUser(l: IdentityLookup): (u: Option<User>)
    ensures u.Some? <==> l.Row?
    ensures l.Row? ==> u == Some(l.user)
  {
    if l.Row? then Some(l.user) else None
  }

  /** `apiError?.status`, with a missing status read as 0 (both are falsy). */
  function StatusOf(t: Thrown): int {
    if t.ApiThrown? then t.apiError.status else 0
  }

  /**
   * The `catch` of the token path: `null` for an `Error` whose message is
   * "Unauthorized"; rethrow anything whose status is set and not 404; else
   * fall back to the secondary backend.
   */
  function RecoverCurrentUser(t: Thrown, fallback: IdentityLookup): (r: Result<Option<User>, Thrown>)
    ensures r.Failure? <==> !(t.ErrorThrown? && t.message == UnauthorizedMessage) && StatusOf(t) !in {0, 404}
    ensures r.Failure? ==> r.error == t
    ensures t.ErrorThrown? && t.message == UnauthorizedMessage ==> r == Success(None)
    ensures r.Success? && r.value.Some? ==> fallback.Row? && r.value.value == fallback.user
    ensures r.Success? && !(t.ErrorThrown? && t.message == UnauthorizedMessage) ==> r == Success(FallbackUser(fallback))
  {
    if t.ErrorThrown? && t.message == UnauthorizedMessage then Success(None)
    else if StatusOf(t) != 0 && StatusOf(t) != 404 then Failure(t)
    else Success(FallbackUser(fallback))
  }

  /**
   * `getCurrentUser`. Without a token it asks only the secondary backend and
   * never throws. With one it resolves `/users/me`; a failure is rethrown
   * unless its status is 0 or 404, which fall back to the secondary backend.
   * The client only throws plain objects, so the "Unauthorized" test never
   * fires and a 401 is rethrown.
   */
  function CurrentUser(token: Option<string>, me: FetchOutcome<User>, fallback: IdentityLookup): (r: Result<Option<User>, Thrown>)
    ensures !HasToken(token) ==> r == Success(FallbackUser(fallback))
    ensures r.Failure? <==> HasToken(token) && me.Responded? && !IsOk(me.status) && me.status != 0 && me.status != 404
    ensures r.Failure? ==> r == Failure(ApiThrown(Classify(me).error))
    ensures HasToken(token) && me.Responded? && me.status == 401 ==> r == Failure(ApiThrown(UnauthorizedError))
    ensures HasToken(token) && Classify(me).Success? ==> r == Success(Some(Resolved(Classify(me).value, EmptyUser)))
    ensures HasToken(token) && Classify(me).Failure? && Classify(me).error.status in {0, 404} ==>
              r == Success(FallbackUser(fallback))
  {
    if !HasToken(token) then Success(FallbackUser(fallback))
    else
      match Classify(me)
      case Success(p) => Success(Some(Resolved(p, EmptyUser)))
      case Failure(e) => RecoverCurrentUser(ApiThrown(e), fallback)
  }

  /** What `getCurrentUser` does to the page: only the `/users/me` call, when made, can change it. */
  function CurrentUserEffect(v: ClientView, hasWindow: bool, me: FetchOutcome<User>): (e: ClientView)
    ensures !HasToken(v.token) ==> e == v
    ensures HasToken(v.token) ==> e == AfterResponse(v, hasWindow, true, me)
    ensures e.token == v.token || e.token == None
    ensures e.path == v.path || e.path == LoginPath
    ensures Mirrored(v, hasWindow) ==> Mirrored(e, hasWindow)
  {
    if HasToken(v.token) then AfterResponse(v, hasWindow, true, me) else v
  }

  method GetCurrentUser(api: ApiService, me: FetchOutcome<User>, fallback: IdentityLookup)
    returns (r: Result<Option<User>, Thrown>)
    requires api.Valid()
    modifies api
    ensures api.Valid()
    ensures r == CurrentUser(old(api.token), me, fallback)
    ensures api.View() == CurrentUserEffect(old(api.View()), api.hasWindow, me)
  {
    var token := api.GetToken();
    if !HasToken(token) {
      return Success(FallbackUser(fallback));
    }
    var _, _, res := api.Request(MeEndpoint, map[], true, me);
    match res
    case Success(p) =>
      r := Success(Some(Resolved(p, EmptyUser)));
    case Failure(e) =>
      r := RecoverCurrentUser(ApiThrown(e), fallback);
  }

  /**
   * The "Unauthorized" branch of the token path only catches `Error`
   * instances; what the client throws never is one.
   */
  lemma UnauthorizedBranchUnreachable(e: ApiError, fallback: IdentityLookup)
    ensures RecoverCurrentUser(ApiThrown(e), fallback) ==
      (if e.status != 0 && e.status != 404 then Failure(ApiThrown(e)) else Success(FallbackUser(fallback)))
  {
  }
}
