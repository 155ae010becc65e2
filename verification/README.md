# coffee_billing client session core, in Dafny

This project models the browser-side session core of the coffee_billing web
client.

- **Session holder** (`src/Context/AuthProvider.jsx`). It keeps the signed-in
  `user`, the in-memory `accessToken` and the `loading` flag. It also owns one
  durable-storage key, `"accessToken"`, which is written only when the user
  asked to be remembered.
- **Actions.** It signs users in, registers and logs out. On start-up it
  restores a session: first the stored token is checked against `/me`; if that
  fails it renews through the refresh cookie and then calls `/me` again. After
  each network call it checks a `mounted` flag.
- **Identity-service client** (`src/pages/Auth/authApi.js`):
  - `parseResponse` turns every answer into data or an `Error`.
  - Five endpoint functions.
  - `fetchWithAuth` sends a bearer request (section 2.1 of RFC 6750). On a
    401 it refreshes once and retries once.
- **Validators and lookups:** the credential validators
  (`src/utils/validation.js`) and the error-code table
  (`src/utils/firebaseErrors.js`).
- **Pages:** the field checks and submit gating of the Register and Login
  pages, the public-route guard, and the category filter and item loading of
  the menu page.

How the source's constructs are represented:

- **Network.** Every network round trip goes through `Net.Network`. Its
  `Responder` maps the history of requests sent so far to the settled `fetch`
  promise of the last one. A proof therefore covers every possible server
  behaviour, including transport failures.
- **State.** Component state that the source updates in place is a class:
  `AuthProvider.Session`, `RegisterPage.RegisterForm`, `LoginPage.LoginForm`
  and `MenuPage.Menu`. `localStorage` is a `map<string, string>` field of
  the session.
- **Specifications.** Each state-changing method is tied to a pure
  specification function:
  - `Saved`, `Cleared` and `SignedIn` for the session actions;
  - `Bootstrap` and `Renew` for `init`;
  - `Plan` for `fetchWithAuth`;
  - `RegisterErrors` and `LoginErrors` for `validateForm`;
  - `Messages(FailedRules(p))` and `Band(Score(p))` for the validators.

  The source's promises are proved as lemmas about those functions.
- **`mounted` flag.** It becomes a `teardown: Option<nat>` parameter: the view
  is torn down while the n-th network call of the bootstrap is pending, or
  never.
- **JavaScript values.**
  - Payloads are a small JSON datatype (`Js.Json`), with `undefined` folded
    into `null`.
  - Truthiness, optional chaining and `String(...)` are written out.
  - Reading a property of `null` raises a `TypeError` value, so a `null`
    payload takes the same paths as in the browser.

## Model

| member | source | states |
|---|---|---|
| Text.Trim | src/pages/Auth/Register.jsx:40 | `s.trim()` is empty exactly when every character is in the JavaScript `\s` class; otherwise it starts and ends with a non-space |
| Text.Contains | src/pages/Auth/authApi.js:9 | `includes` holds exactly when the needle occurs at some index |
| Validation.ValidateEmail | src/utils/validation.js:1-4 | accepts exactly the strings `local@dom.tld` where each of the three parts is non-empty and free of whitespace and `@` (`EmailShape`) |
| Validation.ValidEmailHasOneAt | src/utils/validation.js:2 | every accepted address contains exactly one `@` |
| Validation.BlankIsNotEmail | src/utils/validation.js:2 | a blank string is never an accepted address |
| Validation.FailedRulesExact | src/utils/validation.js:9-23 | a rule is reported exactly when the password fails it; the reports follow the fixed rule order without repeats, at most five |
| Validation.FailedMessagesExact | src/utils/validation.js:9-23 | each of the five messages appears exactly when its rule fails |
| Validation.MessageInjective | src/utils/validation.js:10-22 | distinct rules have distinct messages |
| Validation.EmptyPasswordFailsAll | src/utils/validation.js:9-23 | the empty password fails all five rules, in order |
| Validation.Report | src/utils/validation.js:9-23 | one `if (…) errors.push(…)` step: given the messages of the rules checked so far that fail, the result is the messages of those rules plus this one that fail |
| Validation.ValidatePassword | src/utils/validation.js:6-29 | `errors` is the messages of the failed rules in rule order; `isValid` exactly when `errors` is empty; each message present exactly when its rule fails; at most five |
| Validation.GetPasswordStrength | src/utils/validation.js:31-44 | the counter yields the band of the score (one point each for length ≥ 8, length ≥ 12, upper, lower, digit, special) and its label is one of Weak, Medium, Strong |
| Validation.Band | src/utils/validation.js:41-43 | score ≤ 2 is Weak/33, 3-4 is Medium/66, 5 and up is Strong/100 |
| Validation.ScoreRange | src/utils/validation.js:32-39 | the score lies in 0..6 |
| Validation.AcceptedIsStrong | src/utils/validation.js:9-43 | a password with no failed rule scores at least 5 and is labelled Strong |
| Validation.EmptyPasswordIsWeak | src/utils/validation.js:32-41 | the empty password scores 0 and is labelled Weak |
| Validation.ValidateConfirmPassword | src/utils/validation.js:46-48 | true exactly when both strings have the same length and the same characters |
| Validation.ConfirmSymmetric | src/utils/validation.js:47 | the confirmation check is symmetric |
| FirebaseErrors.ErrorCode | src/utils/firebaseErrors.js:18 | a missing error or a missing code reads as the empty code |
| FirebaseErrors.GetFirebaseErrorMessage | src/utils/firebaseErrors.js:17-20 | a code in the thirteen-entry table gets its entry; any other code gets the default text; the result is never empty |
| FirebaseErrors.MessageDependsOnlyOnCode | src/utils/firebaseErrors.js:17-20 | errors with equal codes get equal messages; no code gives the default |
| Js.Get | src/pages/Auth/authApi.js:13 | `j?.key` is a present property of an object, and `undefined` otherwise |
| Js.StringOf | src/pages/Auth/authApi.js:14 | `new Error(x)` keeps a string message as is and prints an object as `[object Object]` |
| Js.NatDecimal | src/pages/Auth/authApi.js:13 | the text of a status in the template literal: a non-empty string of decimal digits whose value is the number |
| Js.Decimal | src/pages/Auth/authApi.js:13 | an integer's text: a leading minus exactly for a negative number, followed by digits whose value is its magnitude |
| AuthApi.FailureMessage | src/pages/Auth/authApi.js:13 | the message is a truthy `data.error`, else a truthy `data.message`, else "Request failed with status " and the status |
| AuthApi.ParseResponse | src/pages/Auth/authApi.js:7-21 | an ok answer yields its JSON body, or `null` when the content type is not JSON; a failed answer yields an error with the chosen message, the status, the body as `data`, no `code` and no auth flag; an unparsable JSON body rejects |
| AuthApi.NonJsonFailure | src/pages/Auth/authApi.js:8-17 | a failed non-JSON answer gets the generic status message and `null` data |
| AuthApi.ParsedErrorsHaveNoCode | src/pages/Auth/authApi.js:14-17 | errors built by `parseResponse` never carry a `code` |
| AuthApi.Describe | src/pages/Auth/authApi.js:32-104 | every endpoint sends credentials; each goes to its own path (`/api/auth/register`, `/login`, `/me`, `/refresh`, `/logout`); only `/me` is a GET, and its only header is `Authorization: Bearer <token>`; register and login send only a JSON Content-Type header and a JSON body of exactly their fields; refresh and logout send no header and no body |
| AuthApi.CallApi | src/pages/Auth/authApi.js:32-104 | each `*Api` call sends exactly its descriptor and settles with the parsed answer |
| AuthApi.MakeRequest | src/pages/Auth/authApi.js:119-129 | caller headers override the default JSON content type, the bearer header overrides any caller `Authorization`, credentials are always included, other caller headers pass through |
| AuthApi.NewToken | src/pages/Auth/authApi.js:137 | a token is returned exactly when `refreshed.accessToken` is a non-empty string, and it is that string |
| AuthApi.FetchWithAuth | src/pages/Auth/authApi.js:118-150 | the result, the token handed to `onNewAccessToken` and the requests sent are those of the refresh-once machine `Plan` |
| AuthApi.RefreshIsNotBearer | src/pages/Auth/authApi.js:119-129 | a bearer request is never the refresh request |
| AuthApi.PlanIsBounded | src/pages/Auth/authApi.js:131-149 | one to three requests; the first carries the caller's token; the second is the only refresh; at most two non-refresh requests; a refresh happens exactly when the first answer is a 401 |
| AuthApi.PlanWithout401 | src/pages/Auth/authApi.js:131-149 | without a 401 there is one request, no callback, and the answer is parsed as is |
| AuthApi.PlanRenewedRetry | src/pages/Auth/authApi.js:131-149 | after a 401 and a refresh answering a non-empty `accessToken`, the callback gets that token, the retry carries it, and the result is the parsed retried answer (session-expired if the retry is rejected) |
| AuthApi.PlanRetryCarriesNewToken | src/pages/Auth/authApi.js:137-140 | the callback gets a token exactly when a retry is sent, and the retry carries that token |
| AuthApi.PlanSessionExpired | src/pages/Auth/authApi.js:134-146 | a failed refresh, or a retry the transport rejects, gives "Session expired. Please login again." with status 401 and the auth flag |
| AuthApi.PlanRetry401Fails | src/pages/Auth/authApi.js:133-149 | a 401 on the retry is not refreshed again; it fails as an ordinary 401 error, after exactly one refresh |
| AuthApi.PlanRefreshWithoutToken | src/pages/Auth/authApi.js:137-149 | a refresh without a token gives no callback and no retry; the result is the original 401 parsed, an ordinary failure that is never the session-expired error |
| AuthProvider.Saved | src/Context/AuthProvider.jsx:22-26 | saving sets the in-memory token; remembered, the storage key holds it; otherwise the key is absent; other keys and slots are untouched |
| AuthProvider.Cleared | src/Context/AuthProvider.jsx:28-32 | clearing leaves no user, no token and no storage key, whatever the prior state; `loading` and other keys are untouched |
| AuthProvider.ClearIdempotent | src/Context/AuthProvider.jsx:28-32 | clearing twice equals clearing once, and the result does not depend on the prior user or token |
| AuthProvider.SaveThenClear | src/Context/AuthProvider.jsx:22-32 | a save followed by a clear leaves no trace of the token |
| AuthProvider.SignedInEffect | src/Context/AuthProvider.jsx:37-53 | a failed sign-in changes nothing and passes its error on; a `null` payload changes nothing and rejects with the property-read error; a successful one adopts the returned user and token, with storage following `remember` |
| AuthProvider.StoredToken | src/Context/AuthProvider.jsx:78-81 | the saved value under the access-token key is used exactly when it is present and non-empty |
| AuthProvider.RenewShape | src/Context/AuthProvider.jsx:95-105 | the renewal step sends the refresh first, exactly one refresh, and at most one `/me` after it |
| AuthProvider.BootstrapTriesStoredTokenFirst | src/Context/AuthProvider.jsx:78-105 | with a stored token `/me` is tried with it before any refresh, otherwise the refresh comes first; one to three calls, at most one refresh |
| AuthProvider.BootstrapStoredTokenAccepted | src/Context/AuthProvider.jsx:81-88 | an accepted stored token is adopted with its user and `loading` false, and no refresh is sent |
| AuthProvider.BootstrapStoredTokenRejected | src/Context/AuthProvider.jsx:89-96 | a rejected stored token is removed from storage, even after teardown, and exactly one refresh follows `/me` |
| AuthProvider.BootstrapRenewal | src/Context/AuthProvider.jsx:95-113 | when refresh and `/me` both succeed, the refreshed token and the `/me` user are adopted; any failure ends with no user, no token and no stored token; either way `loading` ends false |
| AuthProvider.BootstrapSettles | src/Context/AuthProvider.jsx:106-113 | a bootstrap that is never torn down ends with `loading` false |
| AuthProvider.RenewCancelled | src/Context/AuthProvider.jsx:95-108 | teardown during the refresh step writes no user and leaves `loading` and storage; the token changes only to the refreshed token, when the teardown hit the `/me` after it |
| AuthProvider.BootstrapCancelled | src/Context/AuthProvider.jsx:84-120 | after teardown during a pending call `loading` stays true and the user is never written; teardown during the first call also keeps the prior token |
| AuthProvider.BootstrapCancelledWrites | src/Context/AuthProvider.jsx:89-120 | after teardown `clearAuth` never runs: storage changes only by removing a stored token `/me` rejected, and the token only to a refreshed token whose `/me` was pending |
| AuthProvider.GoogleLogin | src/Context/AuthProvider.jsx:127-129 | always rejects, with no code |
| AuthProvider.ResetPassword | src/Context/AuthProvider.jsx:131-133 | always rejects, with no code |
| AuthProvider.Session.constructor | src/Context/AuthProvider.jsx:15-17 | a new session has no user and no token, and is loading |
| AuthProvider.Session.SaveAccessToken | src/Context/AuthProvider.jsx:22-26 | the new state is `Saved` of the old |
| AuthProvider.Session.ClearAuth | src/Context/AuthProvider.jsx:28-32 | the new state is `Cleared` of the old |
| AuthProvider.Session.SetAuth | src/Context/AuthProvider.jsx:168-171 | sets the user, then saves the token as `remember` says |
| AuthProvider.Session.AdoptSignIn | src/Context/AuthProvider.jsx:40-42 | adopts a sign-in payload as `SignedIn` says; a `null` payload throws before any update |
| AuthProvider.Session.Register | src/Context/AuthProvider.jsx:37-43 | sends the register request once; the new state and the result are those of `SignedIn` |
| AuthProvider.Session.Login | src/Context/AuthProvider.jsx:48-53 | sends the login request once; the new state and the result are those of `SignedIn` |
| AuthProvider.Session.Logout | src/Context/AuthProvider.jsx:58-64 | sends the logout request once, always ends cleared, and passes a failure on to the caller |
| AuthProvider.Session.Init | src/Context/AuthProvider.jsx:72-121 | the new state and the requests sent are those of `Bootstrap` |
| AuthProvider.Session.Renewal | src/Context/AuthProvider.jsx:95-113 | the refresh branch of `init` behaves as `Renew` |
| AuthProvider.Session.AuthedFetch | src/Context/AuthProvider.jsx:139-150 | with no token it rejects with "Not authenticated", sends nothing and changes nothing; otherwise it behaves as `Plan`, and a renewed token replaces only the in-memory slot, never storage |
| Forms.With | src/pages/Auth/Register.jsx:41 | `errors.field = message` sets that field only |
| Forms.EmailError | src/pages/Auth/Register.jsx:44-48 | a blank email is "Email is required"; a malformed one is "Please enter a valid email address"; there is no error exactly when the email is valid |
| Forms.ClearFieldError | src/pages/Auth/Register.jsx:33-35 | that field's error becomes empty and every other field keeps its error |
| Forms.ClearFieldErrorCommutes | src/pages/Auth/Login.jsx:25-27 | clearing is idempotent and the order of clearing two fields does not matter |
| RegisterPage.NameError | src/pages/Auth/Register.jsx:40-42 | an empty or whitespace-only name gets "Name is required", and no other name gets an error |
| RegisterPage.PasswordError | src/pages/Auth/Register.jsx:50-55 | an empty password (untrimmed) is "Password is required"; otherwise the failed rules' messages joined by ", "; no error exactly when every rule holds |
| RegisterPage.ConfirmError | src/pages/Auth/Register.jsx:57-61 | an empty confirmation is "Please confirm your password"; a different one is "Passwords do not match"; no error exactly when it is present and equal |
| RegisterPage.RegisterErrorsExact | src/pages/Auth/Register.jsx:37-65 | each field has an error exactly when its check fails, with that check's text; the form is free of errors exactly when name, email, password and confirmation are all acceptable |
| RegisterPage.RegisterErrorsEmpty | src/pages/Auth/Register.jsx:63-64 | `Object.keys(errors).length === 0` exactly when the form is acceptable |
| RegisterPage.AcceptedFormShowsStrong | src/pages/Auth/Register.jsx:31-64 | when the form passes, the strength meter shows Strong |
| RegisterPage.RegisterForm.constructor | src/pages/Auth/Register.jsx:22-29 | empty fields, not submitting, no errors |
| RegisterPage.RegisterForm.Edit | src/pages/Auth/Register.jsx:124-127 | an input change sets its field and clears only its error |
| RegisterPage.RegisterForm.ValidateForm | src/pages/Auth/Register.jsx:37-65 | `fieldErrors` becomes `RegisterErrors` of the fields, and the result is whether the form is acceptable |
| RegisterPage.RegisterForm.CheckName | src/pages/Auth/Register.jsx:40-42 | the name block adds the name error, if any |
| RegisterPage.RegisterForm.CheckEmail | src/pages/Auth/Register.jsx:44-48 | the email block adds the email error, if any |
| RegisterPage.RegisterForm.CheckPassword | src/pages/Auth/Register.jsx:50-55 | the password block adds the password error, if any |
| RegisterPage.RegisterForm.CheckConfirm | src/pages/Auth/Register.jsx:57-61 | the confirmation block adds the confirmation error, if any |
| RegisterPage.RegisterForm.HandleSubmit | src/pages/Auth/Register.jsx:67-86 | an unacceptable form shows the generic toast and sends nothing; otherwise `register` (not remembered) is sent once while `isSubmitting` is true; the session follows `SignedIn`; the toast is the success text or the looked-up error; `isSubmitting` ends false |
| LoginPage.LoginPasswordError | src/pages/Auth/Login.jsx:38-40 | the login password is only required, with no strength rule |
| LoginPage.LoginErrorsExact | src/pages/Auth/Login.jsx:29-44 | only email and password can carry an error, each exactly when its check fails; the form passes exactly when the email is valid and a password was typed |
| LoginPage.WeakPasswordAccepted | src/pages/Auth/Login.jsx:38-40 | every typed password, including one failing strength rules the Register page enforces, passes here with a valid email |
| LoginPage.LoginForm.constructor | src/pages/Auth/Login.jsx:17-23 | empty fields, not remembered, idle, no errors |
| LoginPage.LoginForm.ValidateForm | src/pages/Auth/Login.jsx:29-44 | `fieldErrors` becomes `LoginErrors`, and the result is whether the email is valid and the password non-empty |
| LoginPage.LoginForm.HandleSubmit | src/pages/Auth/Login.jsx:46-65 | an invalid form shows the generic toast and sends nothing; otherwise `login` is sent once while `isSubmitting` is true; `isResetting` is untouched; the session follows `SignedIn` with `remember` false whatever the checkbox says; `isSubmitting` ends false |
| LoginPage.LoginForm.HandleSubmitRemembering | src/pages/Auth/Login.jsx:46-65 | the corrected submit: the same, with the checkbox passed on as `remember`, so the session follows `SignedIn` with `rememberMe` (see `RememberMeHonoured`) |
| LoginPage.ResetFailureToast | src/pages/Auth/Login.jsx:94-99 | the reset call always rejects, and the error it rejects with is shown as the default message |
| LoginPage.LoginForm.HandleForgotPassword | src/pages/Auth/Login.jsx:80-102 | a blank or malformed email replaces `fieldErrors` by a single email error and requests nothing; a valid email is handed to `resetPassword` while `isResetting` is true, ends with the default error toast (the reset placeholder always fails) and `isResetting` false |
| LoginPage.RememberMeIgnored | src/pages/Auth/Login.jsx:57 | a successful login as written never leaves a stored token |
| LoginPage.RememberMeHonoured | src/pages/Auth/Login.jsx:20 | a remembered successful login stores the returned token where the next start-up finds it |
| PublicRoute.Guard | src/components/RouteGuards/PublicRoute.jsx:5-21 | loading shows the spinner whatever the user; else a user gets a replace-redirect to "/"; else the page |
| PublicRoute.GuardOutcomes | src/components/RouteGuards/PublicRoute.jsx:8-20 | never a redirect while loading; the page exactly when settled without a user; the spinner exactly while loading |
| PublicRoute.GuardAfterBootstrap | src/components/RouteGuards/PublicRoute.jsx:8-14 | after a start-up that is never torn down the spinner is gone, and an anonymous session sees the page |
| MenuPage.FilteredItems | src/pages/Menu/Menu.jsx:51-54 | "all" yields the list unchanged; any other selection fails only on a `null` item, which throws |
| MenuPage.MatchingIsSubsequence | src/pages/Menu/Menu.jsx:53 | the filtered list is a subsequence of the items, so no longer |
| MenuPage.MatchingCounts | src/pages/Menu/Menu.jsx:53 | the filtered list holds each item of the category as often as the list does, and nothing else |
| MenuPage.FilteredItemsExact | src/pages/Menu/Menu.jsx:51-54 | a category selection yields exactly that category's items, in original order |
| MenuPage.SubsequenceLength | src/pages/Menu/Menu.jsx:53 | a subsequence is no longer than its source |
| MenuPage.Normalise | src/pages/Menu/Menu.jsx:37-41 | a non-empty result is the array the body parsed to; any array body is kept whole; a failure or non-array gives the empty list |
| MenuPage.Menu.constructor | src/pages/Menu/Menu.jsx:17-19 | category "all", no items, loading |
| MenuPage.Menu.Select | src/pages/Menu/Menu.jsx:17 | selecting a category changes the displayed items to that filter and nothing else |
| MenuPage.Menu.LoadItems | src/pages/Menu/Menu.jsx:33-45 | one plain GET of `/api/all_items`; the stored items are the normalised payload; `loading` ends false |
| Net.Network.Fetch | src/pages/Auth/authApi.js:33 | a fetch sends exactly one request and settles with the network's answer to it |

## Left out

- Base URLs (`VITE_API_BASE_URL`, the menu's localhost fallback) are left out. Requests carry only their paths, because the base is configuration.
- Cookies, CORS and the refresh cookie's lifetime are left out. They are server- and browser-side; `credentials` is recorded only as the request option.
- JSON parsing and serialisation are left out: `res.json()` is a parsed value or a failure, and request bodies are JSON values.
- Numbers are integers. Floating-point JSON numbers are not modelled.
- String lengths count characters; JavaScript counts UTF-16 code units. They differ only outside the Basic Multilingual Plane.
- The error-message table lookup ignores prototype keys such as `"constructor"`, which a plain JavaScript object would resolve.
- AuthProvider.TokenField, AuthApi.NewToken: a token that is a non-string value (a number, say) is treated as absent. The code would store or send its string form.
- The text of engine-generated errors is left out. The `TypeError` on `null` and the JSON `SyntaxError` carry V8's wording as placeholders.
- React machinery is left out: rendering, hooks, memoisation, effect scheduling, toasts' display and navigation. Navigation appears only as a `navigated` flag and toasts as values.
- Concurrency is not modelled. Concurrent `authedFetch` calls can each refresh independently, and an action can interleave with the bootstrap; each operation is modelled as running alone.
- `fetchWithAuth` passes on only the `method`, `headers` and `body` fetch options. Other caller options are not modelled.
- `onNewAccessToken` throwing is not modelled. The only caller passes a state setter that cannot throw.
- AuthProvider.Session.Logout: a failed `/logout` call is not swallowed. The `try/finally` (AuthProvider.jsx:58-64) has no `catch`, so after the local cleanup the model returns the failure to the caller.
- AuthProvider.Session.AuthedFetch: a failed renewal does not clear the session. `fetchWithAuth` only rejects with the session-expired error, and `authedFetch` passes that on with the user, token and storage left as they were.
- AuthProvider.Session.Init: on the stored-token path `loading` is set false twice, at AuthProvider.jsx:87 and again in the `finally` block. Both writes store the same value, so only the final state is modelled.
- `handleGoogleLogin` (Login.jsx:67-78) and `handleGoogleSignup` (Register.jsx:88-99) are not modelled beyond `AuthProvider.GoogleLogin`, which always rejects. Either handler ends with the default error toast.
- The render-time `loading`/`user` gates of the Register and Login pages (Register.jsx:101-111, Login.jsx:104-114) are the same decision as `PublicRoute.Guard` and are not modelled separately.
- The `/me` payload is stored whole as the user. Its documented shape `{ success, user }` is not unwrapped, matching the code.
- MenuPage.Menu.LoadItems: the `console.error` logging of a failed load (Menu.jsx:40) is left out; the model keeps only the empty item list that follows.
- Presentational files, the cart (floating-point tax), the checkout and the order-success page (clock) are not part of this model.

## Findings

| source | as written | input that shows it | evidently intended | confidence | as-written member | corrected member |
|---|---|---|---|---|---|---|
| src/pages/Auth/Login.jsx:57 | `login(email, password)` is called without the `rememberMe` checkbox (declared at line 20), so `remember` defaults to false | tick "Remember me", log in successfully, reload: the storage key is absent, so the stored-token path of start-up never runs | pass `rememberMe` as the third argument so that a remembered login survives a reload | medium, not executed | LoginPage.RememberMeIgnored | LoginPage.LoginForm.HandleSubmitRemembering |
