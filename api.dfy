/**
 * The token-holding HTTP client (`ApiService` in src/services/api.ts).
 *
 * `fetch`, `localStorage` and `window.location` are not called: a response is
 * an input (`FetchOutcome`), the page's local storage is the client's
 * `storage` map and the page's location its `path` string. Whether a browser
 * window exists at all (`typeof window !== "undefined"`) is the constant
 * `hasWindow`.
 */
module Api {
  import opened Types

  /** The local-storage key the token is mirrored under. */
  const TokenKey := "auth_token"
  /** The route a 401 sends the browser to. */
  const LoginPath := "/login"
  const UnauthorizedMessage := "Unauthorized"
  const GenericErrorMessage := "An error occurred"
  const NetworkErrorMessage := "Network error. Please check your connection."

  type Headers = map<string, string>

  /** `if (this.token)`: only a non-empty token is attached or persisted. */
  predicate HasToken(token: Option<string>) {
    Truthy(token)
  }

  /** `response.ok`. */
  predicate IsOk(status: int) {
    200 <= status <= 299
  }

  /**
   * A response body as the client reads it: the parsed JSON value, seen as
   * the caller's `T`, together with its top-level `message` and `errors`
   * fields (which only an error response is asked for).
   */
  datatype Body<T> = Body(value: T, message: Option<string>, errors: Option<FieldErrors>)

  /**
   * What `fetch` gives back: a response with its status and its body, where
   * `None` means `response.json()` fails; or no response at all.
   */
  datatype FetchOutcome<T> = Responded(status: int, body: Option<Body<T>>) | TransportFailure

  /** A successful call: `{}` for a 204, otherwise the parsed body. */
  datatype Payload<T> = NoContent | Parsed(value: T)

  /** The error thrown on any 401. */
  const UnauthorizedError := ApiError(UnauthorizedMessage, 401, None)
  /** The error thrown when no status is known: a transport failure or an unparseable success body. */
  const NetworkError := ApiError(NetworkErrorMessage, 0, None)

  /**
   * The headers sent with a request: `Content-Type: application/json`, then
   * the caller's own headers, then `Authorization` when the call requires
   * authentication and a token is held.
   */
  function RequestHeaders(extra: Headers, requiresAuth: bool, token: Option<string>): (h: Headers)
    ensures "Content-Type" in h
    ensures "Content-Type" !in extra ==> h["Content-Type"] == "application/json"
    ensures requiresAuth && HasToken(token) ==> "Authorization" in h && h["Authorization"] == "Bearer " + token.value
    ensures requiresAuth && HasToken(token) ==> h.Keys == extra.Keys + {"Content-Type", "Authorization"}
    ensures !(requiresAuth && HasToken(token)) ==> h.Keys == extra.Keys + {"Content-Type"}
    ensures forall k :: k in extra && k != "Authorization" ==> k in h && h[k] == extra[k]
    ensures !(requiresAuth && HasToken(token)) ==> forall k :: k in extra ==> h[k] == extra[k]
  {
    var defaults := map["Content-Type" := "application/json"] + extra;
    if requiresAuth && HasToken(token) then defaults["Authorization" := "Bearer " + token.value] else defaults
  }

  /** `errorData?.message || "An error occurred"`. */
  function ErrorMessage<T>(body: Option<Body<T>>): (m: string)
    ensures m != ""
    ensures body.Some? && Truthy(body.value.message) ==> m == body.value.message.value
    ensures !(body.Some? && Truthy(body.value.message)) ==> m == GenericErrorMessage
  {
    if body.Some? && Truthy(body.value.message) then body.value.message.value else GenericErrorMessage
  }

  /**
   * How `request` turns a response into a value or a thrown `ApiError`. The
   * 401 test comes before the generic non-2xx test, a 204 is `{}`, and any
   * failure without a status becomes the status-0 network error.
   */
  function Classify<T>(response: FetchOutcome<T>): (r: Result<Payload<T>, ApiError>)
    ensures response.Responded? && response.status == 401 ==> r == Failure(UnauthorizedError)
    ensures response.Responded? && response.status != 401 && !IsOk(response.status) ==>
      r == Failure(ApiError(ErrorMessage(response.body), response.status,
                            if response.body.Some? then response.body.value.errors else None))
    ensures r == Success(NoContent) <==> response.Responded? && response.status == 204
    ensures r.Success? && r.value.Parsed? ==> response.Responded? && response.body.Some? && r.value.value == response.body.value.value
    ensures r.Success? <==> response.Responded? && IsOk(response.status) && (response.status == 204 || response.body.Some?)
    ensures r.Failure? && r.error.status == 0 && r.error != NetworkError ==> response.Responded? && response.status == 0
    ensures response.TransportFailure? ==> r == Failure(NetworkError)
    ensures response.Responded? && IsOk(response.status) && response.status != 204 && response.body.None? ==>
      r == Failure(NetworkError)
  {
    match response
    case TransportFailure => Failure(NetworkError)
    case Responded(status, body) =>
      if status == 401 then Failure(UnauthorizedError)
      else if !IsOk(status) then
        Failure(ApiError(ErrorMessage(body), status, if body.Some? then body.value.errors else None))
      else if status == 204 then Success(NoContent)
      else if body.Some? then Success(Parsed(body.value.value))
      else Failure(NetworkError)
  }

  /** The part of the page's state the client reads and writes. */
  datatype ClientView = ClientView(token: Option<string>, storage: map<string, string>, path: string)

  /**
   * The token mirror: with a window, a held non-empty token is the stored one,
   * and whatever is stored is the held token.
   */
  predicate Mirrored(v: ClientView, hasWindow: bool) {
    hasWindow ==>
      && (HasToken(v.token) ==> TokenKey in v.storage && v.storage[TokenKey] == v.token.value)
      && (TokenKey in v.storage ==> v.token == Some(v.storage[TokenKey]))
  }

  /** `localStorage.getItem("auth_token")` when a window exists, else `null`. */
  function StoredToken(storage: map<string, string>, hasWindow: bool): (t: Option<string>)
    ensures t.Some? <==> hasWindow && TokenKey in storage
    ensures t.Some? ==> t.value == storage[TokenKey]
  {
    if hasWindow && TokenKey in storage then Some(storage[TokenKey]) else None
  }

  /** The effect of `setToken(t)` on the page. */
  function WithToken(v: ClientView, hasWindow: bool, t: Option<string>): (r: ClientView)
    ensures r.token == t && r.path == v.path
    ensures !hasWindow ==> r.storage == v.storage
    ensures hasWindow && HasToken(t) ==> TokenKey in r.storage && r.storage[TokenKey] == t.value
    ensures hasWindow && !HasToken(t) ==> TokenKey !in r.storage
    ensures forall k :: k != TokenKey && k in v.storage ==> k in r.storage && r.storage[k] == v.storage[k]
    ensures forall k :: k in r.storage ==> k == TokenKey || k in v.storage
    ensures Mirrored(r, hasWindow)
  {
    var storage :=
      if !hasWindow then v.storage
      else if HasToken(t) then v.storage[TokenKey := t.value]
      else v.storage - {TokenKey};
    ClientView(t, storage, v.path)
  }

  /**
   * The effect of one request on the page: a 401 clears the token and, when
   * the call required authentication and the page is not already at the
   * login route, navigates there. No other response touches anything.
   */
  function AfterResponse<T>(v: ClientView, hasWindow: bool, requiresAuth: bool, response: FetchOutcome<T>): (r: ClientView)
    ensures !(response.Responded? && response.status == 401) ==> r == v
    ensures response.Responded? && response.status == 401 ==>
      && r.token == None
      && (hasWindow ==> TokenKey !in r.storage)
      && r.path == (if requiresAuth && hasWindow && v.path != LoginPath then LoginPath else v.path)
    ensures response.Responded? && response.status == 401 ==> r.storage == WithToken(v, hasWindow, None).storage
  {
    if response.Responded? && response.status == 401 then
      var cleared := WithToken(v, hasWindow, None);
      if requiresAuth && hasWindow && cleared.path != LoginPath then cleared.(path := LoginPath) else cleared
    else v
  }

  class ApiService {
    const baseUrl: string
    const hasWindow: bool
    var token: Option<string>
    /** The page's local storage. */
    var storage: map<string, string>
    /** The page's current location. */
    var path: string

    function View(): ClientView
      reads this
    {
      ClientView(token, storage, path)
    }

    predicate Valid()
      reads this
    {
      Mirrored(View(), hasWindow)
    }

    /** `new ApiService(baseURL)`: the token is read back from storage. */
    constructor (baseUrl: string, hasWindow: bool, storage: map<string, string>, path: string)
      ensures this.baseUrl == baseUrl && this.hasWindow == hasWindow
      ensures View() == ClientView(StoredToken(storage, hasWindow), storage, path)
      ensures Valid()
    {
      this.baseUrl := baseUrl;
      this.hasWindow := hasWindow;
      this.storage := storage;
      this.path := path;
      this.token := None;
      new;
      LoadToken();
    }

    method LoadToken()
      modifies this`token
      ensures token == (if hasWindow then StoredToken(storage, hasWindow) else old(token))
    {
      if hasWindow {
        token := if TokenKey in storage then Some(storage[TokenKey]) else None;
      }
    }

    method SetToken(t: Option<string>)
      modifies this
      ensures View() == WithToken(old(View()), hasWindow, t)
      ensures Valid()
    {
      token := t;
      if !hasWindow {
        return;
      }
      if HasToken(t) {
        storage := storage[TokenKey := t.value];
      } else {
        storage := storage - {TokenKey};
      }
    }

    method GetToken() returns (t: Option<string>)
      ensures t == token
    {
      t := token;
    }

    /**
     * `request(endpoint, {requiresAuth, headers})`, with the reply to the
     * `fetch` it makes given as `response`. Returns the URL and headers it
     * sends and the value it resolves to or the error it throws.
     */
    method Request<T>(endpoint: string, extra: Headers, requiresAuth: bool, response: FetchOutcome<T>)
      returns (url: string, sent: Headers, r: Result<Payload<T>, ApiError>)
      requires Valid()
      modifies this
      ensures Valid()
      ensures url == baseUrl + endpoint
      ensures sent == RequestHeaders(extra, requiresAuth, old(token))
      ensures r == Classify(response)
      ensures View() == AfterResponse(old(View()), hasWindow, requiresAuth, response)
    {
      url := baseUrl + endpoint;
      sent := RequestHeaders(extra, requiresAuth, token);
      if response.Responded? && response.status == 401 {
        SetToken(None);
        if requiresAuth && hasWindow && path != LoginPath {
          path := LoginPath;
        }
      }
      r := Classify(response);
    }
  }

  /**
   * The last `setToken` wins: setting `t1` then `t2` leaves the page, storage
   * included, as setting `t2` alone does, and `getToken()` gives back `t2`.
   */
  lemma SetThenGet(v: ClientView, hasWindow: bool, t1: Option<string>, t2: Option<string>)
    ensures WithToken(WithToken(v, hasWindow, t1), hasWindow, t2) == WithToken(v, hasWindow, t2)
    ensures WithToken(WithToken(v, hasWindow, t1), hasWindow, t2).token == t2
  {
    var twice, direct := WithToken(WithToken(v, hasWindow, t1), hasWindow, t2), WithToken(v, hasWindow, t2);
    assert twice.storage == direct.storage by {
      if hasWindow {
        assert forall k :: k in twice.storage <==> k in direct.storage;
      }
    }
  }

  /**
   * A non-empty token set with a window survives a reload: a client built
   * over the resulting storage holds it again. An empty or `null` token does
   * not: the reloaded client holds nothing.
   */
  lemma {:induction false} TokenSurvivesReload(v: ClientView, t: Option<string>)
    ensures HasToken(t) ==> StoredToken(WithToken(v, true, t).storage, true) == t
    ensures !HasToken(t) ==> StoredToken(WithToken(v, true, t).storage, true) == None
  {
  }

  /** Every 401 leaves no token, in memory or in storage, whatever the call asked for. */
  lemma UnauthorizedClearsToken<T>(v: ClientView, hasWindow: bool, requiresAuth: bool, b: Option<Body<T>>)
    ensures var r := AfterResponse(v, hasWindow, requiresAuth, Responded(401, b));
      && r.token == None
      && !HasToken(r.token)
      && StoredToken(r.storage, hasWindow) == None
      && Classify(Responded(401, b)) == Failure(UnauthorizedError)
  {
  }

  /**
   * The redirect guard: once at the login route, further 401s never navigate,
   * and a second 401 changes nothing the first did not.
   */
  lemma {:induction false} RepeatedUnauthorizedIsStable<T>(v: ClientView, hasWindow: bool, requiresAuth: bool, b: Option<Body<T>>)
    ensures var once := AfterResponse(v, hasWindow, requiresAuth, Responded(401, b));
      && (v.path == LoginPath ==> once.path == LoginPath)
      && (requiresAuth && hasWindow ==> once.path == LoginPath)
      && AfterResponse(once, hasWindow, requiresAuth, Responded(401, b)) == once
  {
    var once := AfterResponse(v, hasWindow, requiresAuth, Responded(401, b));
    var twice := AfterResponse(once, hasWindow, requiresAuth, Responded(401, b));
    assert twice.storage == once.storage by {
      if hasWindow {
        assert once.storage == v.storage - {TokenKey};
        assert twice.storage == once.storage - {TokenKey};
      }
    }
  }

  /**
   * Every error the client throws carries either the response's own status or
   * 0, and only a 401 carries the "Unauthorized" error.
   */
  lemma ErrorStatus<T>(response: FetchOutcome<T>)
    ensures var r := Classify(response);
      r.Failure? ==> (r.error.status == 0 || (response.Responded? && r.error.status == response.status))
    ensures var r := Classify(response);
      r == Failure(UnauthorizedError) <==> response.Responded? && response.status == 401
  {
  }

  /** A request whose response is not a 401 leaves the page and the token as they were. */
  lemma OtherResponsesKeepToken<T>(v: ClientView, hasWindow: bool, requiresAuth: bool, response: FetchOutcome<T>)
    requires !(response.Responded? && response.status == 401)
    ensures AfterResponse(v, hasWindow, requiresAuth, response) == v
  {
  }
}
