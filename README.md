# Property-management portal: session and page logic in Dafny

This project models the client-side core of a property-management web portal:

- **the HTTP client** (`ApiService`): it holds a bearer token and mirrors it into
  the browser's local storage under `auth_token`. It attaches the token to
  authenticated calls. On any 401 it clears the token; when the call required
  authentication and a browser window exists, it also redirects to `/login`,
  unless the page is already there. It turns every failure into an
  `ApiError`: a non-2xx status, a transport failure, or a body that does not
  parse.
- **the auth gateway** (`authService`): it normalises the several reply shapes
  the server uses for login and second-factor verification. It decides whether
  a second factor is pending, from an explicit flag or from a message that
  mentions a "verification code" in any case. It stores the token, and it
  resolves the current user from the server, with a secondary identity backend
  as a fallback.
- **the session state machine** (`AuthProvider`): one `AuthState` record that
  `checkAuth`, `login`, `verify2FA`, `logout` and `refreshUser` replace.
- **the notification hook** (`useSnackbar`), the **side menu**'s expand/collapse
  list and click routing, the **company detail page**'s currency formatting,
  portfolio statistics and displayed values, and the **users page**'s chip
  colours, edit prefill and add/edit dialog.

One module per source file: `Types` (shared records, `src/types/index.ts`),
`Api`, `AuthService`, `AuthContext`, `Snackbar`, `SideNav`, `CompanyDetail` and
`UsersPage`.

Code that updates state in place is modelled as classes: the client's token and
storage, the provider's state, the snackbar record and the users dialog. Each
method is proved against a pure function of the old state. For example,
`ApiService.Request` ensures
`View() == AfterResponse(old(View()), hasWindow, requiresAuth, response)`, and
the properties are proved as lemmas about those functions.

The model takes as inputs what the core cannot compute:

- a server reply is a `FetchOutcome` (status and parsed body, or no response);
- local storage is a map, and the page location is a string;
- the secondary identity backend's answer is an `IdentityLookup`;
- the remote sign-out's outcome is an `Outcome`.

JSON presence matters because `{...a, ...b}` lets a present `null` override,
while `??` treats `null` and a missing key alike. So the raw reply fields are
`Field<T> = Absent | Null | Val(v)`.

Two behaviours of the code are worth knowing; the model states them as written:

- `getCurrentUser` has a branch that returns "no user" for an `Error` whose
  message is "Unauthorized" (src/services/auth.service.ts:170), a sign that a
  401 was meant to read as "signed out". That test never fires, because the
  client throws plain objects, not `Error` instances. A 401 from `/users/me` is
  therefore rethrown (`AuthService.CurrentUser`,
  `AuthService.UnauthorizedBranchUnreachable`). `refreshUser` then keeps the
  old state, while `checkAuth` settles to anonymous
  (`AuthContext.RefreshAfterUnauthorizedKeepsSession`).
- `logout` (src/contexts/AuthContext.tsx:109-122) awaits the remote sign-out
  first and clears the token only once it has succeeded. A failed sign-out is
  rethrown with the token still held and the state unchanged
  (`AuthContext.AuthProvider.Logout`).

## Model

| member | source | states |
|---|---|---|
| Api.RequestHeaders | src/services/api.ts:42-53 | JSON content type unless the caller overrides it; every caller header kept with its value, except that `Authorization: Bearer <token>` replaces the caller's own exactly when auth is required and a non-empty token is held; no other key is added |
| Api.ErrorMessage | src/services/api.ts:87-91 | the body's non-empty `message`, else "An error occurred"; never empty |
| Api.Classify | src/services/api.ts:61-111 | 401 → Unauthorized error before any other test; other non-2xx → error with the response's status, message and field errors; 204 → `{}` exactly; 2xx with a body → that body; no response or unparseable 2xx body → status-0 network error |
| Api.StoredToken | src/services/api.ts:16-20 | the stored `auth_token` exactly when a window exists and the key is present, else nothing |
| Api.WithToken | src/services/api.ts:22-32 | held token is the argument; with a window a non-empty token is stored and anything else removes the key; other storage keys and the path unchanged; the token mirror holds afterwards |
| Api.AfterResponse | src/services/api.ts:61-70 | a 401 clears the token and its storage key, leaving every other key (and, without a window, all storage) as it was, and redirects to `/login` only when auth was required, a window exists and the page is elsewhere; any other response changes nothing |
| Api.ApiService.constructor | src/services/api.ts:11-14 | the client starts holding the stored token (nothing without a window), with the mirror invariant established |
| Api.ApiService.LoadToken | src/services/api.ts:16-20 | with a window, the token becomes the stored one; without, it is unchanged |
| Api.ApiService.SetToken | src/services/api.ts:22-32 | the new page state is `WithToken` of the old one; the mirror invariant is kept |
| Api.ApiService.GetToken | src/services/api.ts:34-36 | returns the held token |
| Api.ApiService.Request | src/services/api.ts:38-112 | URL is base plus endpoint; headers are `RequestHeaders` of the token held before the call; the result is `Classify` of the reply; the page changes by `AfterResponse`; the mirror invariant is kept |
| Api.SetThenGet | src/services/api.ts:22-36 | the last `setToken` wins: two calls leave the page, storage included, as the second alone does, and `getToken()` returns its argument, `null` included |
| Api.TokenSurvivesReload | src/services/api.ts:11-32 | a non-empty token set with a window is read back by a fresh client; an empty or null one reads back as nothing |
| Api.UnauthorizedClearsToken | src/services/api.ts:61-76 | after any 401 no token is held or stored, and the call fails with the Unauthorized error |
| Api.RepeatedUnauthorizedIsStable | src/services/api.ts:62-70 | a 401 on an auth-required call in a window lands on `/login`; at `/login` it never moves; a second 401 changes nothing further |
| Api.ErrorStatus | src/services/api.ts:72-111 | every thrown error carries the response's status or 0; the Unauthorized error arises exactly from a 401 |
| Api.OtherResponsesKeepToken | src/services/api.ts:61-111 | a non-401 reply leaves token, storage and location unchanged |
| AuthService.MergeLogin | src/services/auth.service.ts:48 | for each of the eleven keys, a key present in the `data` envelope (`null` included) wins, and any other key keeps its top-level value; so without an envelope, or with an empty one, the top-level fields are the result |
| AuthService.NormaliseLogin | src/services/auth.service.ts:47-56 | each output field is one of its aliases in the merged reply and has a value exactly when one of them does; the user is the merged user |
| AuthService.MergeVerify | src/services/auth.service.ts:59-61 | for `accessToken`, `token` and `user`, a key present in the envelope (`null` included) wins, and any other key keeps its top-level value |
| AuthService.VerifyEnvelopeOverrides | src/services/auth.service.ts:59-61 | a token or user the envelope holds under the same key as the top level wins over the top-level value in a successful verification |
| AuthService.EnvelopeAliasLoses | src/services/auth.service.ts:59-64 | the envelope overrides key by key only: with a top-level `accessToken` and an envelope `token`, the top-level (possibly stale) `accessToken` is the one returned |
| AuthService.RequiresTwoFactor | src/services/auth.service.ts:111-113 | 2FA is pending exactly when the flag is `true` or the message is non-empty and mentions "verification code", ASCII case ignored |
| AuthService.LoginOutcome | src/services/auth.service.ts:96-134 | the client's error is rethrown exactly when the request fails; success needs a 2xx reply; a 204 (`{}`) fails with the missing-details error; a parsed reply is decided by `LoginDecision` on the normalised body |
| AuthService.LoginEffect | src/services/auth.service.ts:97-101 | login never navigates; a logged-in result leaves a non-empty token held; apart from a 401, nothing else changes the page; the token mirror is kept |
| AuthService.VerifyOutcome | src/services/auth.service.ts:136-151 | the client's error is rethrown exactly when the request fails; success needs a 2xx reply and gives a non-empty token; a 204 fails with the missing-details error; a parsed reply gives exactly what `NormaliseVerify` gives for it |
| AuthService.VerifyEffect | src/services/auth.service.ts:146-150 | verification never navigates; success holds the returned token; a failure changes the page only as the request's own reply does (a 401 clears the token), otherwise nothing; the token mirror is kept |
| AuthService.RecoverCurrentUser | src/services/auth.service.ts:169-183 | rethrows the caught error exactly when it is not the "Unauthorized" `Error` and its status is neither 0 (absent) nor 404; "Unauthorized" gives no user; a 0 or 404 gives exactly the fallback's answer (its row, or none) |
| AuthService.CurrentUserEffect | src/services/auth.service.ts:158-168 | without a token the page is untouched; with one, the page changes exactly as the `/users/me` reply makes it (`AfterResponse` of an auth-required call: only a 401 clears the token and may move to `/login`); the token mirror is kept |
| AuthService.Spread | src/services/auth.service.ts:48 | a key present in the `data` envelope, even as `null`, wins over the top-level key; otherwise the top-level value stays |
| AuthService.Coalesce | src/services/auth.service.ts:50-54 | reference reading of `a ?? … ?? z`: a value exactly when some entry has one, and then the first such entry; otherwise the last entry |
| AuthService.LoginAliasPrecedence | src/services/auth.service.ts:47-56 | the login normaliser resolves `requires2FA`/`requiresTwoFactor`, `userId`/`user_id`, `accessToken`/`token` and `message`/`msg`/`description`/`detail` as `Coalesce` in that order |
| AuthService.MessageChain | src/services/auth.service.ts:54 | `message ?? msg ?? description ?? detail` is `Coalesce` of the four, in that order |
| AuthService.ExplicitFlagWins | src/services/auth.service.ts:50 | an explicit `requires2FA: false` wins over the alias |
| AuthService.EnvelopeOverrides | src/services/auth.service.ts:48-55 | a value under a key in `data` wins over the top-level value under that same key, through the normaliser; an envelope alias does not displace the other alias at the top level |
| AuthService.NormaliseVerify | src/services/auth.service.ts:58-71 | success exactly when the merged token (`accessToken ?? token`) is a non-empty string and a user is present, returning both; otherwise the missing-details error |
| AuthService.SearchFrom | src/services/auth.service.ts:111-113 | true exactly when "verification code" occurs, ASCII case ignored, at some position from `i` on |
| AuthService.ContainsPhrase | src/services/auth.service.ts:111-113 | `/verification code/i.test(s)` is true exactly when the phrase occurs somewhere, ASCII case ignored |
| AuthService.CapitalisedPhraseMatches | src/services/auth.service.ts:111-113 | a capitalised phrase inside a longer message matches |
| AuthService.LoginDecision | src/services/auth.service.ts:103-133 | pending 2FA exactly when the flag is true or the message mentions a verification code, with the user id falling back to the email; otherwise missing-details error exactly when the token is empty or the user is absent; otherwise logged in with the reply's user and message |
| AuthService.Login | src/services/auth.service.ts:96-134 | the result is the request's error or `LoginDecision` of the reply (`{}` for a 204); the token is set only on a logged-in result; the mirror invariant is kept |
| AuthService.TwoFactorStoresNoToken | src/services/auth.service.ts:115-121 | a pending-2FA result leaves token, storage and location unchanged |
| AuthService.LoginStoresToken | src/services/auth.service.ts:123-133 | a logged-in result leaves the reply's non-empty token held and stored; a missing-details error changes nothing |
| AuthService.LoginUnauthorized | src/services/auth.service.ts:97-101 | a 401 on login fails with Unauthorized and clears the token, without redirecting (login does not require auth) |
| AuthService.Verify2FA | src/services/auth.service.ts:136-151 | posts `{email: userId, code}`; the result is the request's error or `NormaliseVerify` of the reply; the token is set only on success |
| AuthService.VerifyStoresToken | src/services/auth.service.ts:146-150 | a successful verification holds, and with a window stores, exactly the returned non-empty token; a missing-details error changes nothing |
| AuthService.FallbackUser | src/services/auth.service.ts:73-93 | the secondary backend yields a user exactly when a session and its row exist, and then it is that row; no session, no row and errors all give "no user" |
| AuthService.CurrentUser | src/services/auth.service.ts:158-185 | without a token, the fallback user and never an error; with one, the server's user (`{}` for a 204); it fails exactly when the server answers a non-2xx status other than 404 (401 included), else falls back |
| AuthService.GetCurrentUser | src/services/auth.service.ts:158-185 | returns `CurrentUser` of the token held at the call; the page changes only through the `/users/me` request, made only with a token |
| AuthService.UnauthorizedBranchUnreachable | src/services/auth.service.ts:169-177 | for every error the client throws, recovery depends only on its status: rethrown unless 0 or 404 |
| AuthContext.Consistent | src/contexts/AuthContext.tsx:28-33 | in a consistent state a pending second factor holds no user, and a held user means authenticated with no second factor pending |
| AuthContext.AfterCheckAuth | src/contexts/AuthContext.tsx:39-65 | authenticated with the user exactly when one was found; otherwise anonymous, on error too; never loading; consistent |
| AuthContext.AfterLogin | src/contexts/AuthContext.tsx:67-92 | pending result → `requires2FA` with no user; logged-in result → authenticated with its user; error → unchanged; keeps consistency |
| AuthContext.AfterVerify | src/contexts/AuthContext.tsx:94-107 | success → authenticated with the verified user, 2FA cleared; error → unchanged; keeps consistency |
| AuthContext.AfterLogout | src/contexts/AuthContext.tsx:109-122 | anonymous after a successful sign-out, unchanged after a failed one |
| AuthContext.AfterRefresh | src/contexts/AuthContext.tsx:124-137 | the looked-up user replaces the old one and authentication follows its presence; error → unchanged |
| AuthContext.AuthProvider.constructor | src/contexts/AuthContext.tsx:28-33 | starts loading, with no user, not authenticated, no 2FA pending |
| AuthContext.AuthProvider.CheckAuth | src/contexts/AuthContext.tsx:39-65 | new state is `AfterCheckAuth` of `getCurrentUser`; page effect is the gateway's; invariants kept |
| AuthContext.AuthProvider.Login | src/contexts/AuthContext.tsx:67-92 | returns the gateway's result or rethrows it; new state is `AfterLogin`; page effect is the gateway's |
| AuthContext.AuthProvider.Verify2FA | src/contexts/AuthContext.tsx:94-107 | completes or rethrows the gateway's error; new state is `AfterVerify`; page effect is the gateway's |
| AuthContext.AuthProvider.Logout | src/contexts/AuthContext.tsx:109-122 | rethrows a failed sign-out, changing nothing; after a successful one the token is cleared and the state is anonymous |
| AuthContext.AuthProvider.RefreshUser | src/contexts/AuthContext.tsx:124-137 | new state is `AfterRefresh` of `getCurrentUser`; an error is swallowed |
| AuthContext.InitialAndBootstrap | src/contexts/AuthContext.tsx:28-65 | the initial state is loading and consistent; `checkAuth` always ends loading and falls to anonymous on error |
| AuthContext.RefreshAfterUnauthorizedKeepsSession | src/contexts/AuthContext.tsx:124-137 | a 401 from `/users/me` clears the token, but `refreshUser` keeps the previous (possibly authenticated) state while `checkAuth` goes anonymous |
| AuthContext.LogoutIdempotent | src/contexts/AuthContext.tsx:109-122 | a second successful logout changes neither the state nor the page |
| AuthContext.ScenarioDirectLogin | src/services/auth.service.ts:96-134 | a reply with token and user and no 2FA signal ends authenticated, with the token held and stored |
| AuthContext.ScenarioPendingLogin | src/services/auth.service.ts:111-121 | `requiresTwoFactor: true, user_id: "42"` gives a pending 2FA for "42", storing nothing |
| AuthContext.ScenarioVerify | src/services/auth.service.ts:136-151 | a verification reply carrying `token` (not `accessToken`) and a user ends authenticated with that token |
| Snackbar.Shown | src/hooks/useSnackbar.ts:16-25 | open, with the message and the severity given, `info` by default |
| Snackbar.Hidden | src/hooks/useSnackbar.ts:27-32 | closed, with message and severity kept |
| Snackbar.HideIdempotent | src/hooks/useSnackbar.ts:27-32 | hiding twice is hiding once |
| Snackbar.ShowThenHide | src/hooks/useSnackbar.ts:16-32 | hiding a shown snackbar keeps what was shown and only closes it |
| Snackbar.SnackbarHook.constructor | src/hooks/useSnackbar.ts:10-14 | starts closed, empty, `info` |
| Snackbar.SnackbarHook.ShowSnackbar | src/hooks/useSnackbar.ts:16-25 | the record becomes `Shown`, whatever it was |
| Snackbar.SnackbarHook.HideSnackbar | src/hooks/useSnackbar.ts:27-32 | the record becomes `Hidden` of the old one |
| SideNav.InitialExpansion | src/components/SideNav.tsx:155 | the menu mounts with exactly "Property Management" expanded; clicking that group collapses it, clicking it again re-expands it |
| SideNav.IsActive | src/components/SideNav.tsx:172 | an item is highlighted exactly when its path equals the current path; an item without a path never is |
| SideNav.HasChildren | src/components/SideNav.tsx:173 | true exactly when the item has a non-empty child list |
| SideNav.Without | src/components/SideNav.tsx:165 | the result never holds the title and holds nothing new |
| SideNav.Toggle | src/components/SideNav.tsx:162-168 | an absent title is appended; a present one has every occurrence removed; the title is present afterwards exactly when it was absent before |
| SideNav.WithoutAbsent | src/components/SideNav.tsx:165 | filtering an absent title changes nothing |
| SideNav.WithoutConcat | src/components/SideNav.tsx:165 | filtering keeps order: it splits over concatenation |
| SideNav.WithoutCounts | src/components/SideNav.tsx:165 | filtering removes every occurrence of the title and keeps every other title as often as before |
| SideNav.ToggleKeepsOthers | src/components/SideNav.tsx:162-168 | a toggle never changes how often another title occurs |
| SideNav.ToggleTwiceRestores | src/components/SideNav.tsx:162-168 | toggling an absent title twice restores the list |
| SideNav.OnClick | src/components/SideNav.tsx:170-180 | an item with children gives `Toggle` of the expanded list on its title (so the title flips and others are untouched) and never navigates; a leaf navigates to its path and closes the menu |
| SideNav.NavigatedLeafIsActive | src/components/SideNav.tsx:170-180 | after following a leaf it is highlighted at its path, and not at a sub-route (exact match) |
| CompanyDetail.TrimStart | src/pages/CompanyDetailPage.tsx:47 | drops exactly the leading white space |
| CompanyDetail.TrimEnd | src/pages/CompanyDetailPage.tsx:47 | drops exactly the trailing white space |
| CompanyDetail.Trim | src/pages/CompanyDetailPage.tsx:47 | the input with its leading white space (`LeadingSpace` characters) and its trailing white space dropped: the infix in between, with no white space at either end; empty exactly when the input is all white space |
| CompanyDetail.LeadingSpace | src/pages/CompanyDetailPage.tsx:47 | the length of the input's white-space prefix: all white space, followed by a non-space or the end |
| CompanyDetail.TrimStartSkips | src/pages/CompanyDetailPage.tsx:47 | `TrimStart` drops exactly `LeadingSpace` characters |
| CompanyDetail.TrimIdempotent | src/pages/CompanyDetailPage.tsx:47 | trimming twice is trimming once |
| CompanyDetail.FormatCurrency | src/pages/CompanyDetailPage.tsx:38-58 | missing or `""` → formatted 0; a number → formatted; a string → trimmed, kept when it starts with £, $ or €, otherwise formatted exactly when it parses as a number, else kept trimmed |
| CompanyDetail.PricedTextIsStable | src/pages/CompanyDetailPage.tsx:47-50 | a price string comes back trimmed, and formatting it again changes nothing |
| CompanyDetail.OtherTextIsKept | src/pages/CompanyDetailPage.tsx:52-57 | text that is neither a price nor a number is shown trimmed |
| CompanyDetail.PortfolioStats | src/pages/CompanyDetailPage.tsx:143-161 | all null without a company; the explicit total (0 included), else the length of a non-empty property list, else null; active count and value pass through |
| CompanyDetail.CountText | src/pages/CompanyDetailPage.tsx:196-202 | a known count as its text, else "N/A" |
| CompanyDetail.TotalValueCard | src/pages/CompanyDetailPage.tsx:206-213 | the Total Value card shows "N/A" for a missing or zero value (truthiness test), otherwise the formatted value |
| CompanyDetail.PortfolioValueRow | src/pages/CompanyDetailPage.tsx:242-248 | the Portfolio Value row shows "N/A" only for a missing value (null test), otherwise the formatted value, 0 included |
| CompanyDetail.ZeroPortfolioValue | src/pages/CompanyDetailPage.tsx:206-248 | a portfolio value of 0 reads "N/A" on the Total Value card (truthiness) but a formatted 0 in the overview (null test) |
| CompanyDetail.CardAndRowAgree | src/pages/CompanyDetailPage.tsx:206-248 | card and overview row agree on every non-zero value and on a missing one |
| CompanyDetail.OrElse | src/pages/CompanyDetailPage.tsx:228-232 | logical-or on a field: the field when non-empty, else the fallback |
| CompanyDetail.Displayed | src/pages/CompanyDetailPage.tsx:78 | an empty value shows "N/A", a non-empty one is shown as is |
| CompanyDetail.OverviewRows | src/pages/CompanyDetailPage.tsx:225-256 | six rows in order, none empty: company type, status, company number, SIC code, portfolio value and total properties, each with its label and its value rule |
| CompanyDetail.OverviewFallbacks | src/pages/CompanyDetailPage.tsx:225-240 | company type falls back to nature of business, then "N/A"; status defaults to "Active"; a missing company number shows "N/A" |
| CompanyDetail.ExplicitZeroTotalWins | src/pages/CompanyDetailPage.tsx:153-157 | an explicit total of 0 wins over a non-empty property list |
| UsersPage.Prefill | src/pages/UsersPage.tsx:103-110 | the edit form takes the user's names, email and type, and an empty password |
| UsersPage.Upper | src/pages/UsersPage.tsx:144 | `toUpperCase` never shortens a string and maps only the empty string to the empty string |
| UsersPage.UpperOfCasing | src/pages/UsersPage.tsx:144 | any ASCII casing of an upper-case word upper-cases to that word |
| UsersPage.UserTypeColor | src/pages/UsersPage.tsx:143-154 | "error", "primary", "secondary" exactly when the upper-cased type is ADMIN, CLIENT, STAFF; "default" exactly otherwise |
| UsersPage.ColorIgnoresCase | src/pages/UsersPage.tsx:143-150 | the colour ignores the type's ASCII casing |
| UsersPage.NonAsciiAndUnknownTypes | src/pages/UsersPage.tsx:143-153 | "admın" (dotless ı) upper-cases to ADMIN and is an admin; "manager" is default |
| UsersPage.DotlessAdminUpper | src/pages/UsersPage.tsx:143-153 | `toUpperCase` of "admın" is exactly "ADMIN", the dotless ı becoming I |
| UsersPage.UsersDialog.constructor | src/pages/UsersPage.tsx:57-68 | closed, nobody being edited, the form at its initial values (type CLIENT) |
| UsersPage.UsersDialog.HandleEdit | src/pages/UsersPage.tsx:101-112 | opens the dialog on the user, with the form prefilled |
| UsersPage.UsersDialog.HandleAdd | src/pages/UsersPage.tsx:126-131 | opens the dialog for a new user, with the form reset |
| UsersPage.UsersDialog.HandleCloseDialog | src/pages/UsersPage.tsx:133-137 | closes, clears the edited user, resets the form |
| UsersPage.UsersDialog.OnSubmit | src/pages/UsersPage.tsx:70-86 | updates the edited user, else creates one; an update only comes from an open dialog (kept by `Valid`); success closes and resets; failure changes nothing |

## Left out

- `fetch`, `response.json()`, `localStorage`, `window.location` and the secondary identity backend (a hosted auth/database service) are not called. Their answers are inputs, as described above.
- The HTTP method, request bodies (`JSON.stringify`) and the `get`/`post`/`put`/`patch`/`delete` wrappers (src/services/api.ts:115-145) are not modelled. They only forward to `request`. The one body the core builds, the verification request, is modelled.
- `authService.logout` (src/services/auth.service.ts:153-156) is the remote sign-out. Its outcome is the `signOut` input of `AuthContext.AuthProvider.Logout`.
- `authService.generateOTP` is not modelled. It uses randomness, the clock and a database insert.
- Asynchrony is not modelled: each operation runs to completion before the next starts. Interleavings of concurrent calls are out of scope.
- `refreshUser`'s `console.error` on failure (src/contexts/AuthContext.tsx:134-136) is not modelled: logging is I/O. The state change of that branch is modelled by `AfterRefresh`.
- The React effect that runs `checkAuth` on mount is not modelled. That call is the method `CheckAuth`.
- `Api.Classify`: a reply body is a typed value or a parse failure. JSON values of the wrong type in a typed field are out of scope.
- `CompanyDetail.FormatCurrency`: `Intl.NumberFormat`, `Number(s)` and a number's `toString` are parameters of the model (`Formatting`). Their own output is not modelled, and neither are NaN or the infinities.
- `UsersPage.UserTypeColor`: `toUpperCase` is modelled exactly for ASCII letters and for the characters whose upper case is made of ASCII letters (ß, ı, ſ, ﬀ–ﬆ). Any other character is kept as is. That is exact for the comparison with ADMIN, CLIENT and STAFF, but `Upper` is not the full Unicode upper case.
- Form validation (Yup/Formik), `loadUsers`, `handleDelete`, the success/error toasts of the users page and the page's table rendering are not modelled. They are rendering, services or library behaviour.
- The company page's loading of the company, its header chip (src/pages/CompanyDetailPage.tsx:294-299) and the directors and shareholding panels are not modelled.
- What `navigate` does, and the menu definitions' icons and levels, are not modelled. The model stops at the click routing decision.
- The companies and users services, the theme, `App.tsx` and the fixed display pages (accounts, financial, legal, maintenance) are not part of this model.
