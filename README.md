# MTD ITSA compliance client — a Dafny model of its session and quarter logic

This project models the sequential logic of an Angular client for quarterly tax updates ("Making Tax Digital for Income Tax Self Assessment") and proves properties of that model. It covers these parts:

- **Session store** (`AuthService`). It keeps the current user and an authenticated flag in memory, mirrored in the two local-storage entries `auth_token` and `current_user`. Its operations are restore at start-up, save, clear, the outcome handling of login and register, logout, and reading the token.
- **Route guard** (`authGuard`). It allows navigation or redirects to `/auth/login?returnUrl=<requested url>`.
- **Request interceptor** (`authInterceptor`). It forwards each request with an `Authorization: Bearer <token>` header, or unchanged when there is no token.
- **Trend chart data** (`updateChartData`). It makes a stable sorted copy of the quarters (by tax-year start, then Q1..Q4) and projects it into three aligned rows.
- **Quarters list page and quarter edit form**. Their methods update `loading`, `error`, `successMessage`, the first draft's id and the form, driven by the outcomes of API calls.

Modules, one per file:

- `Wrappers` holds `Option`.
- `Platform` holds JavaScript string conversion and truthiness, the HTTP failure shape, and the router. The router is a log of navigation targets.
- `Json` is a string-object JSON parser and serialiser with a round-trip lemma.
- `Session` holds `AuthService` plus the functions `Restored`, `Saved` and `Cleared`. Those functions specify each state change.
- `Guard` and `Interceptor` are the two pure functions.
- `Models` holds the quarter records, the first-match searches, and the API client. The client is a log of calls.
- `TrendChart`, `QuartersPage` and `QuarterFormPage` are the views.

Browser local storage is a `map<string, string>` field of `AuthService`. Every API call is an input value, either `Ok(body)` or `Err(HttpError(status, message, errorMessage))`, and each quarters-API call made through `Api.Invoke` is appended to `Api.calls`. The login and register requests of `AuthService` are not logged there: their outcome is the only input they take. Each navigation is appended to `Router.log`. All components share one router, reached as `auth.router`. An `async` method is one Dafny method that runs its steps in order, with the awaited outcome supplied as a parameter. A JavaScript value that may be `undefined` or `null` is an `Option`.

## Model

| member | source | states |
|---|---|---|
| Session.Restored | src/app/core/services/auth.ts:46-62 | Loading authenticates exactly when both entries are present and non-empty and `current_user` parses. Storage is then untouched, and the user is the parsed payload's id and name with the token from `auth_token`. Otherwise the state is the cleared state. The invariant holds either way. |
| Session.Saved | src/app/core/services/auth.ts:69-74 | Saving stores the token (as String() writes it) under `auth_token`, and only `{userId, userName}` as JSON under `current_user`. It leaves every other entry as it was, makes the user present and the session authenticated. |
| Session.Cleared | src/app/core/services/auth.ts:79-84 | Clearing removes exactly the two entries and leaves every other entry unchanged. There is then no user and the session is not authenticated. |
| Session.TokenOf | src/app/core/services/auth.ts:139-141 | The token is present exactly when there is a user whose token is non-empty, and it is that user's token. |
| Session.Spread | src/app/core/services/auth.ts:52-53 | The spread writes the stored token over whatever `token` the parsed payload had. It keeps the payload's `userId` and `userName`, and the resulting token is always the stored one. |
| Session.UserObject | src/app/core/services/auth.ts:71 | The object `{userId, userName}` that is written holds exactly the user's defined id and name, and no `token`. |
| Session.StoredUserPayload | src/app/core/services/auth.ts:71 | The stored `current_user` text parses back to an object holding exactly the user's defined `userId` and `userName` and no `token`. |
| Session.SaveRestoreRoundTrip | src/app/core/services/auth.ts:46-55 | Saving a user with a non-empty token and then reloading from the written storage gives back the same session: the same storage, user and flag. |
| Session.SaveWithoutTokenReloadsUndefined | src/app/core/services/auth.ts:70 | A user saved without a token has no token in memory. After a reload it is authenticated with the token "undefined". |
| Session.SaveEmptyTokenNotRestored | src/app/core/services/auth.ts:50 | A user saved with an empty token is not restored on reload. |
| Session.ClearRestoreRoundTrip | src/app/core/services/auth.ts:79-84 | Reloading after a clear gives the cleared state. |
| Session.RestoreIdempotent | src/app/core/services/auth.ts:46-62 | Reloading what a load left behind changes nothing further. |
| Session.RestoredTokenIsStoredToken | src/app/core/services/auth.ts:53 | After a successful load the token read from memory is the stored `auth_token`, whatever the payload held. |
| Session.RawControlInUserClears | src/app/core/services/auth.ts:50-58 | A stored `current_user` whose first value holds a raw control character makes JSON.parse throw. The load then clears the session and leaves it unauthenticated. |
| Session.PairEscapedNameRestores | src/app/core/services/auth.ts:50-55 | A stored `{"userName":...}` whose name opens with a surrogate-pair escape restores the session. The user then has that name decoded, no id, and the stored token. |
| Session.AuthService.constructor | src/app/core/services/auth.ts:35-41 | The new service's state is `Restored` of the initial storage. |
| Session.AuthService.LoadUserFromLocalStorage | src/app/core/services/auth.ts:46-62 | The new state is `Restored` of the old storage. |
| Session.AuthService.SaveSession | src/app/core/services/auth.ts:69-74 | The new state is `Saved(old state, user)`. |
| Session.AuthService.ClearSession | src/app/core/services/auth.ts:79-84 | The new state is `Cleared(old state)`. |
| Session.AuthService.Register | src/app/core/services/auth.ts:91-105 | On success the session is saved from the response body, and the response is returned. On failure the session is cleared and the same error is passed on. |
| Session.AuthService.Login | src/app/core/services/auth.ts:112-126 | On success the session is saved from the response body, and the response is returned. On failure the session is cleared and the same error is passed on. |
| Session.AuthService.CompleteAuthRequest | src/app/core/services/auth.ts:93-103 | The shared outcome rule of login and register: save and return on success, clear and re-raise on failure. |
| Session.AuthService.Logout | src/app/core/services/auth.ts:131-134 | The session is cleared and `/auth` is appended to the navigation log. |
| Session.AuthService.GetToken | src/app/core/services/auth.ts:139-141 | A user with a non-empty token gets that token back. Any returned token is non-empty and is the current user's. |
| Guard.AuthGuard | src/app/auth/auth.guard.ts:12-26 | Navigation is allowed if and only if the flag is set. Otherwise the result is a redirect to `/auth/login` whose only query parameter is `returnUrl`, equal to the requested URL. |
| Guard.CanActivate | src/app/auth/auth.guard.ts:6-28 | The decision reads only the service's current flag (one snapshot, no writes). It allows exactly when that flag is set, and otherwise redirects with `returnUrl`. |
| Guard.Activate | src/app/app.routes.ts:11-19 | The guard is consulted exactly on routes `setup` and `dashboard`. No other route is guarded. |
| Guard.DecodeEncode | src/app/auth/auth.guard.ts:22-24 | Percent-decoding undoes `PercentEncode`, the query-value encoding, for every string. |
| Guard.EncodedHasNoDelimiter | src/app/auth/auth.guard.ts:22-24 | An encoded value contains none of `/ ? & = #`. |
| Guard.EncodeUnreserved | src/app/auth/auth.guard.ts:22-24 | Text without reserved characters encodes to itself. |
| Guard.RedirectRoundTrip | src/app/auth/auth.guard.ts:20-24 | `SerializeUrl` of the redirect is `/auth/login?returnUrl=` followed by the percent-encoded URL, and reading it back yields the requested URL. |
| Guard.RedirectForSetup | e2e/auth-guard.spec.ts:16 | Redirecting from `/setup` serialises to `/auth/login?returnUrl=%2Fsetup`. |
| Guard.EmptyStorageRedirects | e2e/auth-guard.spec.ts:6-16 | With empty storage, every guarded route redirects to the login page carrying its own URL. |
| Interceptor.Intercept | src/app/auth-interceptor.ts:12-23 | Given a non-empty token, the one forwarded request has `Authorization` set to `Bearer <token>`. Method, URL, body and every other header are untouched. Without a token the forwarded request is the input itself. |
| Interceptor.AuthInterceptor | src/app/auth-interceptor.ts:9-23 | The token is the service's in-memory `GetToken`. The method, URL, body and every header except `Authorization` are passed on as they were. Without a token the request itself passes. With one, `Authorization` becomes `Bearer <token>`. |
| Interceptor.HeaderCarriesToken | src/app/auth-interceptor.ts:15 | The header value read back as a Bearer credential gives the session token. |
| Interceptor.InterceptIdempotent | src/app/auth-interceptor.ts:13-17 | Intercepting an already intercepted request changes nothing: the header is set, not appended. |
| Interceptor.TokenNotReadFromStorage | src/app/auth-interceptor.ts:10 | Two services with the same in-memory user forward the same request through the installed interceptor, whatever their local storage holds. |
| Interceptor.RestoredSessionSendsStoredToken | src/app/auth-interceptor.ts:10-15 | After a successful load, requests carry `Bearer` followed by the stored `auth_token`. |
| Json.Get | src/app/core/services/auth.ts:47-48 | A lookup is present exactly when the key is stored, and it then yields the stored text. |
| Json.ToObject | src/app/core/services/auth.ts:52 | The parsed object's keys are exactly the keys of the text's members. |
| Json.Serialize | src/app/core/services/auth.ts:71 | JSON.stringify of an object is a text that opens with `{` and closes with `}`. |
| Json.ReadEscaped | src/app/core/services/auth.ts:52 | Reading a string literal undoes JSON.stringify's escaping and stops at the closing quote. That escaping covers the quote, the backslash, `\b \t \n \f \r` and `\u00XX` for the other control characters. |
| Json.RawControlUnreadable | src/app/core/services/auth.ts:52 | A string literal holding a raw control character (U+0000 to U+001F) before its closing quote is a syntax error, whatever escaped text comes before it. |
| Json.RawControlRejected | src/app/core/services/auth.ts:52 | An object text whose first value holds a raw control character is a JSON.parse error. |
| Json.ReadPairEscape | src/app/core/services/auth.ts:52 | A character beyond the 16-bit range, written as its UTF-16 surrogate-pair escape `\uHHHH\uLLLL`, is read as that one character, taking twelve characters of text. |
| Json.PairEscapeExample | src/app/core/services/auth.ts:52 | U+1F600 is written as the pair `\ud83d\ude00`. |
| Json.ParsePairValue | src/app/core/services/auth.ts:52 | A one-member object whose value opens with a surrogate-pair escape parses to that member, with the pair decoded. |
| Json.ReadMembers | src/app/core/services/auth.ts:52 | A serialised member list parses back to the same members. |
| Json.SerializeRoundTrip | src/app/core/services/auth.ts:52-71 | `Parse` (JSON.parse) of `Serialize` (JSON.stringify) of an object gives the object back, with the last member winning on a repeated key. |
| Models.FindIndex | src/app/quarters/quarter-form/quarter-form.ts:70 | `find` gives the first position satisfying the predicate, and nothing before it does. It is none exactly when no element satisfies it. |
| Models.FirstWithStatus | src/app/quarters/quarters.ts:44 | The result is the first position whose status is exactly the given one, or none when no quarter has it. |
| Models.FirstWithId | src/app/quarters/quarter-form/quarter-form.ts:97 | The result is the first position whose id is the given one, or none when no quarter has it. |
| Models.OrZero | src/app/quarterly-trend-chart/quarterly-trend-chart.ts:100-101 | An amount is its value, or 0 when it is absent. |
| Models.EditUrl | src/app/quarters/quarters.ts:67 | The edit URL is `/quarters/edit/` followed by the id. |
| TrendChart.LeadingDigits | src/app/quarterly-trend-chart/quarterly-trend-chart.ts:91-92 | The digits `parseInt` reads are the longest all-digit prefix. |
| TrendChart.BeforeSlash | src/app/quarterly-trend-chart/quarterly-trend-chart.ts:91-92 | `split('/')[0]` is the prefix up to the first slash, which it does not contain. |
| TrendChart.Rank | src/app/quarterly-trend-chart/quarterly-trend-chart.ts:95-96 | A rank is at most 4. It is 0 exactly for names other than Q1..Q4, which holds for every name that is not an inherited property of a JavaScript object. |
| TrendChart.WithinYearOrder | src/app/quarterly-trend-chart/quarterly-trend-chart.ts:93-96 | Within one tax year the comparator puts Q1 before Q2 before Q3 before Q4, and any other name before all four. |
| TrendChart.YearFirst | src/app/quarterly-trend-chart/quarterly-trend-chart.ts:91-93 | An earlier tax year sorts first, whatever the quarter names. |
| TrendChart.YearOfDigits | src/app/quarterly-trend-chart/quarterly-trend-chart.ts:91-92 | `Year` of a tax year written `<digits>/<rest>` is the number those digits spell. |
| TrendChart.MissingYearIsZero | src/app/quarterly-trend-chart/quarterly-trend-chart.ts:91-92 | A missing tax year counts as year 0. |
| TrendChart.CompareIsKeyOrder | src/app/quarterly-trend-chart/quarterly-trend-chart.ts:89-97 | `Compare`, the sort comparator, puts `a` no later than `b` exactly when (Year, Rank) of `a` is lexicographically no greater. It ties exactly on equal keys. |
| TrendChart.InsertPermutes | src/app/quarterly-trend-chart/quarterly-trend-chart.ts:89 | Inserting adds exactly the inserted quarter to the multiset. |
| TrendChart.InsertSorted | src/app/quarterly-trend-chart/quarterly-trend-chart.ts:89-97 | Inserting into a sorted list keeps it sorted. |
| TrendChart.InsertKeepsKeyOrder | src/app/quarterly-trend-chart/quarterly-trend-chart.ts:89 | Insertion puts a quarter ahead of every quarter that has its key. |
| TrendChart.SortQuartersCorrect | src/app/quarterly-trend-chart/quarterly-trend-chart.ts:89-97 | `SortQuarters`, the sorted copy, is in comparator order, is a permutation of the input, and has its length. |
| TrendChart.SortQuartersStable | src/app/quarterly-trend-chart/quarterly-trend-chart.ts:89 | Quarters with equal year and rank keep their input order. |
| TrendChart.Project | src/app/quarterly-trend-chart/quarterly-trend-chart.ts:99-101 | All three rows have the list's length. Position i holds quarter i's `Label` (name, a space, the tax year from its third character), its income or 0, and its expenses or 0. |
| TrendChart.EmptyChart | src/app/quarterly-trend-chart/quarterly-trend-chart.ts:80-86 | Missing or empty input gives empty labels and two empty datasets. |
| TrendChart.ChartDataFromSortedCopy | src/app/quarterly-trend-chart/quarterly-trend-chart.ts:89-101 | For non-empty input, `ChartData` is rows aligned with a sorted, stable permutation of the input. |
| TrendChart.LabelExample | src/app/quarterly-trend-chart/quarterly-trend-chart.ts:99 | Q1 of `2025/2026` is labelled `Q1 25/2026`. |
| TrendChart.QuarterlyTrendChartComponent.constructor | src/app/quarterly-trend-chart/quarterly-trend-chart.ts:15-37 | The component starts with `quarters == Some([])`, both chart series empty, and no redraw. |
| TrendChart.QuarterlyTrendChartComponent.UpdateChartData | src/app/quarterly-trend-chart/quarterly-trend-chart.ts:78-108 | The shown rows become `ChartData` of the input, and the input list is not reordered. The data object is replaced only on the non-empty path. |
| TrendChart.QuarterlyTrendChartComponent.NgOnInit | src/app/quarterly-trend-chart/quarterly-trend-chart.ts:67-69 | The chart is always recomputed. The data object is replaced exactly when the input is non-empty. |
| TrendChart.QuarterlyTrendChartComponent.NgOnChanges | src/app/quarterly-trend-chart/quarterly-trend-chart.ts:71-76 | The chart is recomputed exactly when `quarters` changed and is non-null, and it is then replaced if the list is non-empty. Otherwise the rows and the replacement count are unchanged. |
| QuartersPage.FirstDraftId | src/app/quarters/quarters.ts:44-47 | The result is the id (possibly absent) of the first quarter with status exactly `Draft`, or none when there is no draft. |
| QuartersPage.Quarters.constructor | src/app/quarters/quarters.ts:22-25 | The page starts with no quarters, loading, no error and no draft id. |
| QuartersPage.Quarters.FetchQuarters | src/app/quarters/quarters.ts:37-63 | One list call is made. A body with `quarters` replaces the list, and the draft id is updated only when a draft exists. A body without it gives an empty list and the no-data error. A failure sets the fixed error, and on 401/403 it also clears the session and navigates to `/auth` and then `/auth/login`. `loading` ends false. |
| QuartersPage.Quarters.NavigateToEditFirstDraft | src/app/quarters/quarters.ts:65-71 | It navigates to the edit URL exactly when the draft id is non-empty. Otherwise it sets the no-draft error and does not navigate. |
| QuarterFormPage.PatchFromQuarter | src/app/quarters/quarter-form/quarter-form.ts:101-107 | Loading a quarter sets both controls to its amounts (0 when absent), and disables the form when the quarter is Submitted. |
| QuarterFormPage.InitialFormValidity | src/app/quarters/quarter-form/quarter-form.ts:57-60 | `InitialForm` (both amounts 0) is valid and untouched. Under `FormValid` and `ControlValid`, a missing or negative amount, or a disabled form, is invalid. |
| QuarterFormPage.SubmitBlocker | src/app/quarters/quarter-form/quarter-form.ts:127-139 | The pre-call checks run in the source's order: invalid form, then missing id, then Submitted status. Each message is given if and only if its check is the first to fail, and submission proceeds exactly when none fails. |
| QuarterFormPage.ErrorMessage | src/app/quarters/quarter-form/quarter-form.ts:167 | The message is the backend message when that is non-empty, else the error's message when that is non-empty, else the fixed default. |
| QuarterFormPage.FirstFailure | src/app/quarters/quarter-form/quarter-form.ts:152-173 | The operation fails exactly when the PUT fails, or the POST fails while submitting. The PUT's error comes first. |
| QuarterFormPage.SubmittedMessageParts | src/app/quarters/quarter-form/quarter-form.ts:160 | The submit message starts with "Quarter " and the quarter id, and ends with the reference number. A missing reference is written "undefined". |
| QuarterFormPage.SubmittedQuarterFailsValidity | src/app/quarters/quarter-form/quarter-form.ts:106-131 | Once a Submitted quarter is loaded, the disabled form stops a later submit at the validity check. |
| QuarterFormPage.LoadedDraftMaySubmit | src/app/quarters/quarter-form/quarter-form.ts:57-139 | A fresh form loaded from a draft with non-negative amounts passes all three checks when the id is non-empty. |
| QuarterFormPage.QuarterForm.constructor | src/app/quarters/quarter-form/quarter-form.ts:29-38 | The form starts idle with no id, no messages and no details. |
| QuarterFormPage.QuarterForm.InitForm | src/app/quarters/quarter-form/quarter-form.ts:53-61 | Both controls become 0 and the form is enabled and untouched. Nothing else changes. |
| QuarterFormPage.QuarterForm.NgOnInit | src/app/quarters/quarter-form/quarter-form.ts:40-51 | The id comes from the route, and edit mode is set when it is non-empty. Without an id, it opens the first draft, or sets the no-draft or load error, with the form initial. With an id, the found quarter is stored and patched into a fresh form, with the lock, not-found and load errors as in `FetchQuarterDetails`. One list call is made and `loading` ends false. 401/403 logs out on either path, and the session is otherwise untouched. |
| QuarterFormPage.QuarterForm.FindOrCreateDraftQuarterAndRedirect | src/app/quarters/quarter-form/quarter-form.ts:63-88 | One list call is made. The first Draft in list order is opened for editing, or the no-draft error is set. A failure or a null body sets the fixed error, and 401/403 also logs out and navigates to `/auth/login`. `loading` ends false. |
| QuarterFormPage.QuarterForm.FetchQuarterDetails | src/app/quarters/quarter-form/quarter-form.ts:90-124 | A found quarter is stored and patched into the form. A Submitted one also disables the form and sets the locked error. Not found sets `Quarter not found.` and navigates to `/quarters`. A failure sets the fixed error, with the logout rule on 401/403. `loading` ends false. |
| QuarterFormPage.QuarterForm.OnSubmit | src/app/quarters/quarter-form/quarter-form.ts:126-174 | The form is marked touched, and a failed check sets its message and makes no call. Otherwise a PUT is made, then a POST only if submitting and the PUT succeeded. Success sets the last call's message (`SavedMessage` or `SubmittedMessage`) and navigates to `/quarters`. Failure sets `ErrorMessage`, keeps the save message when the PUT succeeded, and logs out on 401/403. |
| QuarterFormPage.QuarterForm.OnCancel | src/app/quarters/quarter-form/quarter-form.ts:176-178 | Cancelling navigates to `/quarters`. |

## Left out

- Json: JSON is modelled only as objects whose values are all strings, as the session store writes them. Texts have no whitespace between tokens. Strings follow JSON's rules. A raw control character (U+0000 to U+001F) is a syntax error. The escapes `\" \\ \/ \b \t \n \f \r` are decoded. `\uXXXX` is decoded when it names a character outside the surrogate range. A high-surrogate escape followed by a low-surrogate escape is decoded to the one character the pair encodes. A surrogate-half escape outside such a pair is not decoded. Serialising writes the escapes JSON.stringify writes. `null`, `true` and `false` parse to an object with no properties (spreading them adds nothing).
- Session.Restored: some `current_user` texts are accepted by JSON.parse but lie outside the modelled shape: whitespace between tokens, non-string member values (numbers, `null`, `true`, `false`, arrays, objects), and a text that is a bare string, number or array. The model treats them as parse failures, so it clears the session where the source would restore it. An escaped surrogate half that is not part of a high-then-low pair is also a failure, because a Dafny string cannot hold a lone surrogate.
- Session.Spread: extra properties of a stored payload are not carried into the restored user. `CurrentUser` has only `userId`, `userName` and `token`.
- Guard: percent-encoding covers only `/ % ? & = # space +`. Angular's serializer encodes a wider set of characters, and those are not modelled.
- TrendChart.Year: a tax year that does not start with a digit is read as 0 rather than as NaN. A sign or leading whitespace accepted by `parseInt` is not modelled either.
- QuartersPage: `ngOnInit` of `quarters.ts` is not modelled. It calls `authService.isAuthenticated()`, which `AuthService` does not define (it only has `isAuthenticated$`).
- Session: the observables (`currentUser$`, `isAuthenticated$`) are plain fields holding their current values. Subscriber notification and ordering are not modelled.
- Session.AuthService.Login: a successful response with a null body is not modelled. In the source, `saveSession` then throws a TypeError, which is caught, clears the session and is re-raised. The model's `Ok` always carries a user.
- Session.AuthService.Register: a successful response with a null body is not modelled, as for `Login`.
- Session.AuthService.CompleteAuthRequest: the shared rule has no null-body path, as for `Login`.
- TrendChart.Rank: a quarter name that is an inherited property of a JavaScript object (`toString`, `constructor`, `valueOf`, `__proto__`, ...) looks up a function in `quarterOrder`. The comparator then gives NaN, which `sort` treats as a tie. The source's resulting order is then implementation-defined. The model ranks such a name 0 and puts the quarter before Q1.
- QuarterFormPage.QuarterForm.constructor: the form is built at construction. In the source `quarterForm` is unassigned until `initForm`, which `ngOnInit` calls first.
- Platform.JsString: `None` stands for both `undefined` and `null`, and prints as "undefined". String(null) would be "null".
- Login and register requests: the request payload, and the HTTP call of the generated client, are not modelled. The call's outcome is a parameter.
- Interceptor: header names are compared case-sensitively, whereas Angular's `HttpHeaders` are case-insensitive.
- QuarterFormPage.QuarterForm.OnSubmit: a null PUT or POST body is not modelled. In the source it would raise a TypeError, which is caught with the exception's own message.
- QuarterFormPage.QuarterForm.FindOrCreateDraftQuarterAndRedirect: a draft without an id navigates to `/quarters/edit/undefined`.
- Models.EditUrl: Angular's URL-segment encoding of ids is not modelled; the id is appended as it is. Both `QuartersPage.Quarters.NavigateToEditFirstDraft` and `QuarterFormPage.QuarterForm.FindOrCreateDraftQuarterAndRedirect` navigate to this URL.
- Async interleaving: each `await`ed or `.then` step runs to completion in order. Concurrent fetches and stale responses are not modelled.
- Amounts are integers because they are only copied, never combined. Floating point, and a `0` amount being falsy, have no effect on `OrZero`.
- Chart rendering, chart options and colours, `console` logging, and `Chart.register` are not modelled.
- The login page always navigates to `/setup` and ignores `returnUrl` (`src/app/auth/login/login.ts:55`). The login page is not part of this model.
- The end-to-end mocks use the statuses `DRAFT` and `SUBMITTED`, while the code compares `Draft` and `Submitted`. The model uses the code's strings, so none of the mocks' draft-button expectations are stated.
- Route table: only the set of guarded paths `{setup, dashboard}` is taken from it. It declares no `quarters` route.

## Notes on the source

- A disabled Angular form is never `valid`. So when a quarter fetched with status `Submitted` disables the form, a later `onSubmit` stops at the invalid-form check. The third check ("already submitted") is reached only if `currentQuarterDetails` is Submitted while the form is enabled, which neither loading path produces (`QuarterFormPage.SubmittedQuarterFailsValidity`).
- `saveSession` writes `user.token` with `setItem`, which stores `"undefined"` for a missing token. A reload then restores an authenticated user whose token is the text `"undefined"` (`Session.SaveWithoutTokenReloadsUndefined`). The intended behaviour is not evident from the source, so this is recorded, not corrected.
