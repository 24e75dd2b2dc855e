/**
 * Shared value shapes of the dashboard: the records of src/types/index.ts, plus
 * the small wrappers the model needs to speak about JavaScript values that may
 * be missing, `null`, or thrown.
 */
module Types {

  /** A value that is either there or not (`T | null`, or an optional field read with `??`). */
  datatype Option<+T> = None | Some(value: T) {
    function GetOr(default: T): T {
      match this
      case Some(v) => v
      case None => default
    }
  }

  /**
   * A field of a parsed JSON object, distinguishing a key that is missing from
   * a key that is present with the value `null`. Object spread copies a
   * present `null`, while `??` treats both as nullish.
   */
  datatype Field<+T> = Absent | Null | Val(v: T) {
    /** `a ?? b`: keep this field unless it is nullish. */
    function OrElse(other: Field<T>): Field<T> {
      if Val? then this else other
    }
    /** The key exists on the object (`{...obj}` copies it, even when it holds `null`). */
    predicate Present() {
      !Absent?
    }
  }

  /** A computation that either returns a value or throws. */
  datatype Result<+T, +E> = Success(value: T) | Failure(error: E)

  /** A computation with no value that either completes or throws. */
  datatype Outcome<+E> = Pass | Fail(error: E)

  /** A non-empty string is truthy in JavaScript; `null` and `""` are not. */
  predicate Truthy(s: Option<string>) {
    s.Some? && s.value != ""
  }

  /**
   * The `User` record as it arrives from the server. Nothing checks the
   * server's promise that `id` and `email` are set, so every field may be
   * missing; the empty object `{}` is `EmptyUser`.
   */
  datatype User = User(
    id: Option<int>,
    email: Option<string>,
    firstName: Option<string>,
    lastName: Option<string>,
    name: Option<string>,
    userType: Option<string>)

  const EmptyUser := User(None, None, None, None, None, None)

  /** Per-field validation messages a server may attach to an error. */
  type FieldErrors = map<string, seq<string>>

  /** The single error shape the HTTP client throws: a plain object, never an `Error`. */
  datatype ApiError = ApiError(message: string, status: int, errors: Option<FieldErrors>)

  /**
   * What a JavaScript `catch` can receive in the auth code: the client's plain
   * `ApiError` object, or an `Error` instance carrying a message (thrown by the
   * auth service itself or by the secondary identity backend).
   */
  datatype Thrown = ApiThrown(apiError: ApiError) | ErrorThrown(message: string)

  datatype Credentials = Credentials(email: string, password: string)

  datatype TwoFactorVerification = TwoFactorVerification(code: string, userId: string)

  /** The tagged union `LoginResult`: pending second factor, or logged in. */
  datatype LoginResult =
    | TwoFactorPending(userId: string, message: Field<string>)
    | LoggedIn(user: User, message: Field<string>)
  {
    predicate Requires2FA() { TwoFactorPending? }
  }

  datatype Verify2FAResponse = Verify2FAResponse(accessToken: string, user: User)

  /** The session record held by the auth provider. */
  datatype AuthState = AuthState(
    user: Option<User>,
    isAuthenticated: bool,
    isLoading: bool,
    requires2FA: bool)

  datatype CompanyProperty = CompanyProperty(id: Option<int>, name: string, status: Option<string>)

  /**
   * The fields of `Company` that the detail page computes with. Property
   * counts are integers and the portfolio value a `real` (NaN and infinities
   * are not represented); a field that is `null` or missing is `None`.
   */
  datatype Company = Company(
    name: Option<string>,
    companyNumber: Option<string>,
    sicCode: Option<string>,
    natureOfBusiness: Option<string>,
    status: Option<string>,
    companyType: Option<string>,
    totalProperties: Option<int>,
    activeProperties: Option<int>,
    portfolioValue: Option<real>,
    properties: Option<seq<CompanyProperty>>)
}
