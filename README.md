# Session and OAuth handshake of parse-server-nextjs, in Dafny

This project models the authentication layer that parse-server-nextjs puts
between a Next.js application and a Parse server. The layer is written twice:
a newer tree under `src/next/core/` and an older one under `src/`. Both keep
their state in two encrypted cookies:

- the **primary session** `{userId, sessionToken}`;
- the **OAuth handshake** `{authState, codeVerifier, from}`. In the older tree
  it holds `authState` only.

The model is a state machine over these two cookies (`SessionManager.Cookies`,
`LegacySessionManager.LegacyCookies`). Parse is an oracle `IdentityProvider`.
It maps each call (`signUp`, `logIn`, `logInWith`, `linkWith`, `Cloud.run`) to
a user or to a thrown error. An error is either a `Parse.Error` (message and
code) or something else. Because the oracle is a pure function, a result that
does not depend on it means no call was made.

Each operation that changes cookies comes in two forms:

- a pure `...Outcome` function from the cookies before to the result and the
  cookies after, about which the properties are proved;
- a method that performs the source's steps in the source's order on a
  `SessionService` object. The method's postcondition ties it to the function.

Modules:

- `Types`: JSON values and their truthiness, thrown errors, cookie records,
  URLs, responses, the provider configuration and the constants.
- `Text`: the global single-character `replace` and `Number.prototype.toString`.
- `Encoding`: the PKCE code challenge. This covers UTF-8, the padded Base64
  that `btoa` produces, and the three replacements that make it unpadded
  base64url (section 5 of RFC 4648, Appendix A of RFC 7636). SHA-256 is a
  parameter.
- `Urls`: the `URLSearchParams` operations used (`append`, `set`, reading into
  an object) and `redirectFromAuthHandler`.
- `Lib`: `parseAuthRequest` and the two payload guards.
- `SessionManager`, `Auth`, `Handlers`, `Middleware`: the newer tree.
- `LegacySessionManager`, `LegacyAuth`, `LegacyMiddleware`: the older tree.
- `CloudCode`: the `logout` cloud function over the `_Session` table.

## Model

| member | source | states |
|---|---|---|
| Text.ReplaceAll | src/next/core/auth.ts:148-149 | every occurrence of the character is replaced, every other character is kept, the length is unchanged |
| Text.RemoveAllRemoves | src/next/core/auth.ts:150 | after `.replace(/=/g, "")` no `=` is left |
| Text.RemoveAllConcat | src/next/core/auth.ts:150 | removal distributes over concatenation |
| Text.NatToString | src/next/core/handlers.ts:50 | the decimal form is non-empty, all digits, and has no leading zero except for 0 |
| Text.IntToString | src/next/core/handlers.ts:50 | `code.toString()` starts with `-` exactly for negative codes |
| Text.NatToStringRoundTrip | src/next/core/handlers.ts:50 | reading the digits back gives the number, so the code sent in the query loses nothing |
| Encoding.Base64UrlNoPad | src/next/core/auth.ts:147-150 | the output uses only the URL-safe alphabet and has length ceil(4n/3) |
| Encoding.UrlSafeFromBase64IsBase64Url | src/next/core/auth.ts:147-150 | `btoa` followed by the three replacements equals unpadded base64url of the digest |
| Encoding.Base64UrlRoundTrip | src/next/core/auth.ts:147-150 | decoding the challenge gives back the digest bytes |
| Encoding.Base64UrlInjective | src/next/core/auth.ts:143-150 | equal challenges come only from equal digests |
| Encoding.DigitValue | src/next/core/auth.ts:147-150 | every URL-safe character is the digit of exactly one 6-bit value |
| Encoding.Utf8Char | src/next/core/auth.ts:143-144 | a character takes 1 to 4 bytes, and exactly 1 when it is ASCII |
| Encoding.Utf8OfAscii | src/next/core/auth.ts:143-144 | on ASCII text the encoder gives one byte per character, equal to its code |
| Encoding.VerifierShape | src/next/core/auth.ts:140 | a UUID with its dashes removed is 32 hex digits, below the 43-character minimum of section 4.1 of RFC 7636 |
| Encoding.CodeChallenge | src/next/core/auth.ts:143-150 | the challenge is base64url(SHA-256(UTF-8(verifier))): 43 URL-safe characters with no `+`, `/` or `=` |
| Urls.Append | src/next/core/auth.ts:136 | `append` adds the value after the key's existing values and leaves other keys alone |
| Urls.RemoveKey | src/next/core/middleware.ts:15 | removes every pair with the key and keeps the values of every other key |
| Urls.SetParam | src/next/core/middleware.ts:15 | after `set`, the key has exactly the one value, other keys are unchanged, and a new key is appended at the end |
| Urls.ParamsObjectLastWins | src/next/core/auth.ts:225-231 | the object built by `forEach` has exactly the query's keys, each with its last value |
| Urls.OrEmpty | src/next/core/lib.ts:36 | `value \|\| ""` keeps a non-empty value and turns a missing one into `""` |
| Urls.SetAllDistinct | src/next/core/lib.ts:34-38 | setting distinct keys on a cleared query lists each once, in order, with undefined written as `""` |
| Urls.AuthHandlerUrl | src/next/core/lib.ts:30-38 | the redirect keeps the request origin, takes the given path, and drops the old query |
| Urls.RedirectFromAuthHandler | src/next/core/lib.ts:25-41 | the loop of `set` calls builds exactly `AuthHandlerUrl` |
| Urls.ErrorRedirectQuery | src/next/core/handlers.ts:45-52 | the error redirect's query is exactly `message`, then `code` |
| Lib.Member | src/next/core/lib.ts:11-13 | reading a property throws only on `null`; on an object it yields the member or undefined |
| Lib.OrElse | src/next/core/lib.ts:11-13 | `v \|\| d` keeps a truthy value and otherwise gives the default |
| Lib.ParseAuthRequest | src/next/core/lib.ts:5-15 | fails only for a `null` body; otherwise each of `action`, `authType` and `data` is the body's member when that member is truthy, and otherwise its default `""`, `"credentials"` or `{}` |
| Lib.UnparsableBodyIsEmptyObject | src/next/core/lib.ts:8 | an unparsable body is treated as `{}`, giving `""`, `"credentials"` and `{}` |
| Lib.ParseAuthRequestKeepsTruthy | src/next/core/lib.ts:12-13 | truthy `authType` and `data` pass through unchanged |
| Lib.HasBothKeys | src/next/core/lib.ts:17-23 | true exactly for an object with both keys; throws exactly for a truthy value that is neither an object nor an array |
| Lib.IsCredentialsAuth | src/next/core/lib.ts:17-19 | true exactly when the data is an object with `email` and `password` keys, whatever their values |
| Lib.IsThirdPartyAuth | src/next/core/lib.ts:21-23 | true exactly when the data is an object with `providerName` and `authData` keys |
| Lib.GuardsOverlap | src/next/core/lib.ts:17-23 | a payload with all four keys passes both guards, and `{}` passes neither |
| Lib.DefaultDataPassesNoGuard | src/next/core/lib.ts:13 | the default `data` of `{}` passes no guard and does not throw |
| SessionManager.Stored | src/next/core/session.ts:8-13 | `setSession` writes both fields |
| SessionManager.SessionOf | src/next/core/session.ts:15-21 | `getSession` is non-null exactly when both fields are non-empty, and then it is the stored pair |
| SessionManager.WithOAuth | src/next/core/session.ts:45-62 | `authState` is always written; `codeVerifier` and `from` are written only when truthy and otherwise keep their old values |
| SessionManager.SetThenGet | src/next/core/session.ts:8-21 | after `setSession(s)` with both fields non-empty, `getSession` returns `s` |
| SessionManager.HalfFilledReadsAsNull | src/next/core/session.ts:15-21 | a session stored with an empty field reads back as `null` |
| SessionManager.SessionService.SetSession | src/next/core/session.ts:8-13 | writes the primary cookie and leaves the handshake alone |
| SessionManager.SessionService.GetSession | src/next/core/session.ts:15-21 | returns `SessionOf` of the primary cookie |
| SessionManager.SessionService.DeleteSession | src/next/core/session.ts:23-26 | empties only the primary cookie |
| SessionManager.SessionService.GetSessionMiddleware | src/next/core/session.ts:32-35 | returns the raw primary cookie, unfiltered |
| SessionManager.SessionService.GetOAuthSession | src/next/core/session.ts:37-43 | returns the raw handshake cookie |
| SessionManager.SessionService.SetOAuthSession | src/next/core/session.ts:45-62 | the handshake becomes `WithOAuth` of its old value; the primary cookie is untouched |
| SessionManager.SessionService.DeleteOAuthSession | src/next/core/session.ts:64-70 | empties only the handshake cookie |
| Auth.Dispatch | src/next/core/auth.ts:74-82 | credentials path iff `authType` is "credentials" and `isCredentialsAuth`; third-party path iff "third-party" and `isThirdPartyAuth`; otherwise "Invalid auth type"/400 or the guard's own throw |
| Auth.Rewrap | src/next/core/auth.ts:83-87 | a `Parse.Error` keeps its message and code; anything else becomes the fallback message with 500 |
| Auth.SessionFromUser | src/next/core/auth.ts:233-238 | the session is the user's id and token |
| Auth.AuthResult | src/next/core/auth.ts:72-107 | succeeds iff the dispatch and the Parse call both succeed, and then returns that user's pair; a Parse failure is re-wrapped with the operation's fallback; every failure is an `AuthServiceError` |
| Auth.AuthOutcome | src/next/core/auth.ts:193-223 | only a success writes the primary cookie, with exactly the returned session; the handshake is never touched |
| Auth.MismatchNeverSucceeds | src/next/core/auth.ts:82-87 | a type/shape mismatch ends as "Unknown signup/login error"/500, and Parse is not called |
| Auth.ThirdPartySignupIsSignin | src/next/core/auth.ts:206-208 | third-party sign-up gives the same session and cookies as sign-in; only the fallback message differs |
| Auth.SigninThenGetSession | src/next/core/auth.ts:210-215 | after a successful sign-in with non-empty fields, `getSession` returns that session |
| Auth.SignoutOutcome | src/next/core/auth.ts:109-128 | no session gives "No session found"/400 with nothing changed; otherwise `logout` is called with the stored token and only its success clears the primary cookie |
| Auth.SignoutWithoutSession | src/next/core/auth.ts:110-113 | with no session the outcome is the same whatever Parse does, so no call is made |
| Auth.SignoutThenGetSession | src/next/core/auth.ts:114-122 | after a successful sign-out, `getSession` returns `null` |
| Auth.AppendPkce | src/next/core/auth.ts:153-154 | `code_challenge` gains the challenge and `code_challenge_method` gains `S256`; every other key keeps its values |
| Auth.AuthorizeQuery | src/next/core/auth.ts:135-155 | `state` gains exactly the new state; without PKCE that is the only change; with PKCE the two PKCE keys gain one value each; every other key keeps its values |
| Auth.AuthorizeUrl | src/next/core/auth.ts:135-155 | keeps the origin and path of `authorizeUrl`; its query is `AuthorizeQuery` of the configured one, with the challenge of the verifier |
| Auth.AuthorizeOutcome | src/next/core/auth.ts:131-160 | the state sent is the state stored; a verifier is stored only with PKCE; `from` only when given; the primary cookie is untouched |
| Auth.AuthorizeStoresVerifier | src/next/core/auth.ts:138-159 | with PKCE and a UUID, the stored verifier is the 32-character one whose challenge was sent |
| Auth.CallbackArgs | src/next/core/auth.ts:171-179 | the transform receives every query value except `state`, plus the stored verifier under `codeVerifier` |
| Auth.PostLoginTarget | src/next/core/auth.ts:183-185 | the target is `from`, else `afterLoginRedirect`, else "/" |
| Auth.AcceptedCallback | src/next/core/auth.ts:175-185 | once accepted, the handshake is deleted before the transform runs; a transform failure or a sign-in failure is returned with only the handshake cleared; a success returns the post-login target with the signed-in session stored |
| Auth.CallbackOutcome | src/next/core/auth.ts:163-186 | a state mismatch throws "Invalid state"/400 with nothing changed; a match is `AcceptedCallback`: transform failure, sign-in failure or success, each with its result and cookies |
| Auth.ReplayRejected | src/next/core/auth.ts:172-175 | after an accepted callback, any callback carrying a `state` is rejected and changes nothing |
| Auth.MismatchKeepsHandshake | src/next/core/auth.ts:172-174 | a mismatching callback leaves both cookies as they were |
| Auth.StateParamIsLast | src/next/core/auth.ts:171 | the compared `state` is the last one in the query |
| Auth.HandshakeCompletes | src/next/core/auth.ts:131-186 | authorize then a callback carrying the sent state, whose transform and sign-in succeed, redirects to the post-login target with the new session stored and the handshake cleared |
| Auth.HandshakeBindsVerifier | src/next/core/auth.ts:132-179 | authorize then callback with the state sent back passes the check, and the transform gets the verifier whose challenge is the URL's only `code_challenge` |
| Auth.AbsentStateAccepted | src/next/core/auth.ts:168-175 | as written, with no handshake cookie a callback without `state` passes the check |
| Auth.StrictStateCheck | src/next/core/auth.ts:172-174 | the intended check rejects every callback without a handshake and agrees with the written one when a state is stored |
| Auth.StrictCallbackOutcome | src/next/core/auth.ts:168-175 | with the intended check, a callback with no stored state fails "Invalid state"/400 and changes nothing; with a stored state it is the written callback |
| Auth.StrictReplayRejected | src/next/core/auth.ts:172-175 | with the intended check, a consumed handshake rejects every later callback, even one without `state` |
| Auth.ChallengeResult | src/next/core/auth.ts:50-70 | a failed challenge request becomes "Unknown challenge error"/500 unless it was a `Parse.Error` |
| Auth.SearchParamsToObject | src/next/core/auth.ts:225-231 | the `forEach` loop builds `ParamsObject`, whose keys are exactly the query's |
| Auth.Authenticate | src/next/core/auth.ts:72-107 | performs the dispatch, the Parse call and `setSession` as `AuthOutcome` says |
| Auth.Signup | src/next/core/auth.ts:72-89 | ends as `AuthOutcome` for sign-up |
| Auth.Signin | src/next/core/auth.ts:91-107 | ends as `AuthOutcome` for sign-in |
| Auth.Signout | src/next/core/auth.ts:109-129 | ends as `SignoutOutcome` |
| Auth.RedirectToOAuth | src/next/core/auth.ts:131-161 | ends as `AuthorizeOutcome` |
| Auth.HandleOAuthCallback | src/next/core/auth.ts:163-186 | ends as `CallbackOutcome`, checking, then deleting, then signing in |
| Auth.GetSession | src/next/core/auth.ts:188-191 | returns `SessionOf` of the primary cookie |
| Handlers.SplitSegments | src/next/core/handlers.ts:134-135 | `action` and `provider` are the first and second catch-all segments, or undefined |
| Handlers.CallbackRedirect | src/next/core/handlers.ts:36-58 | an `AuthServiceError` goes to `loginPage ?? "/login"` with `message` and `code`; anything else goes to `afterLoginRedirect ?? "/"` with no query |
| Handlers.GetOutcome | src/next/core/handlers.ts:7-62 | "oauth"/"callback" with an invalid provider fail first; a valid "oauth" redirects to the authorize URL with the new handshake stored; a valid "callback" redirects as `CallbackRedirect` says with the callback's cookies; "session" returns the filtered session; other actions fail "Unknown action"; only "callback" can change the primary cookie |
| Handlers.PostOutcome | src/next/core/handlers.ts:64-90 | "challenge" answers 200 with the challenge's body or its error, cookies unchanged; "signup"/"signin" answer 200 with the new session or the service's error; "logout" answers `session: null` or its error; unknown actions fail "Unknown action" and change nothing; the handshake is never touched |
| Handlers.Envelope | src/next/core/handlers.ts:110-122 | an `AuthServiceError` becomes 422 with message and code; anything else becomes 500 "Unknown auth error" |
| Handlers.RouteOutcome | src/next/core/handlers.ts:94-123 | methods other than GET and POST fail with 405 inside a 422; a `null` POST body gives 500 |
| Handlers.InvalidProviderRejected | src/next/core/handlers.ts:13-21 | an invalid provider for "oauth"/"callback" answers 422 "Invalid provider"/400 with nothing changed |
| Handlers.UnsupportedMethodRejected | src/next/core/handlers.ts:109-115 | another method answers 422 with code 405 |
| Handlers.SessionRoute | src/next/core/handlers.ts:24-30 | GET "session" answers `{success: true, session}` whatever the provider segment |
| Handlers.UnknownGetAction | src/next/core/handlers.ts:59-60 | any other GET action answers 422 "Unknown action"/400 |
| Handlers.UnknownPostAction | src/next/core/handlers.ts:87-88 | an unknown POST action answers 422 "Unknown action"/400 and changes nothing |
| Handlers.OAuthRouteKeepsFrom | src/next/core/handlers.ts:32-34 | the "oauth" route redirects to the authorize URL built from the fresh state and verifier, stores that state, and never writes `from` |
| Handlers.CallbackAlwaysRedirects | src/next/core/handlers.ts:36-58 | a callback always answers a redirect chosen only by the service's error, never by the stored `from` |
| Handlers.CallbackMismatchRedirect | src/next/core/handlers.ts:44-52 | a state mismatch lands on the login page with `message=Invalid state&code=400`, cookies unchanged |
| Handlers.SignupThenSession | src/next/core/handlers.ts:75-77 | a successful sign-up answers the session, and a following GET "session" returns it |
| Handlers.LogoutThenSession | src/next/core/handlers.ts:83-85 | a successful logout answers `session: null`, and a following GET "session" returns `null` |
| Handlers.NonServiceErrorsHidden | src/next/core/handlers.ts:116-121 | a `Parse.Error` or other error reaches the client only as 500 with no detail |
| Handlers.HandleGet | src/next/core/handlers.ts:7-62 | ends as `GetOutcome` |
| Handlers.CallbackRedirectResponse | src/next/core/handlers.ts:44-58 | builds `CallbackRedirect` with `redirectFromAuthHandler` |
| Handlers.HandlePost | src/next/core/handlers.ts:64-90 | ends as `PostOutcome` |
| Handlers.HandleAuthRoute | src/next/core/handlers.ts:94-123 | ends as `RouteOutcome` |
| Handlers.HttpHandler | src/next/core/handlers.ts:130-137 | splits the segments and ends as `RouteOutcome` |
| Middleware.Resolve | src/next/core/middleware.ts:13 | the target path and query are resolved against the request's origin |
| Middleware.AuthMiddleware | src/next/core/middleware.ts:5-19 | passes iff `userId` is non-empty; otherwise redirects to the target with `from` set to the single value pathname + search and the other keys kept |
| Middleware.TokenNotChecked | src/next/core/middleware.ts:12 | a record with a user id passes whatever its token |
| Middleware.DefaultsToLoginPage | src/next/core/middleware.ts:8 | with no target the redirect goes to "/login" |
| Middleware.FromReplaced | src/next/core/middleware.ts:14-15 | a `from` already in the target is replaced, not duplicated |
| LegacyMiddleware.AuthMiddleware | src/middleware.ts:5-18 | passes iff `userId` is non-empty; otherwise redirects with `from` set to the pathname only |
| LegacyMiddleware.SearchDropped | src/middleware.ts:10-14 | the query string of the page asked for never reaches `from`; without one it agrees with the newer guard |
| LegacyMiddleware.TokenNotChecked | src/middleware.ts:12 | only `userId` is checked, never the token |
| LegacyMiddleware.DefaultsToLoginPage | src/middleware.ts:8 | the default target is "/login" |
| LegacySessionManager.LegacySessionService.SetSession | src/session.ts:8-13 | writes both fields and leaves the handshake alone |
| LegacySessionManager.LegacySessionService.GetSession | src/session.ts:15-18 | returns the record as it is, with no presence check |
| LegacySessionManager.LegacySessionService.DeleteSession | src/session.ts:20-23 | empties only the primary cookie |
| LegacySessionManager.LegacySessionService.GetSessionMiddleware | src/session.ts:29-32 | returns the raw record |
| LegacySessionManager.LegacySessionService.GetOAuthSession | src/session.ts:34-40 | returns the raw handshake |
| LegacySessionManager.LegacySessionService.SetOAuthSession | src/session.ts:42-49 | overwrites only `authState` |
| LegacySessionManager.LegacySessionService.DeleteOAuthSession | src/session.ts:51-57 | empties only the handshake |
| LegacyAuth.TruthyOnly | src/auth.ts:187-192 | a field is sent only when it is truthy |
| LegacyAuth.AuthResult | src/auth.ts:68-103 | same dispatch as the newer tree; a Parse failure is re-wrapped with the operation's fallback; a Parse success returns the user's pair |
| LegacyAuth.AuthOutcome | src/auth.ts:160-199 | only a success writes the primary cookie, with the returned session |
| LegacyAuth.CredentialsAgree | src/auth.ts:160-182 | the credentials paths of the two trees give identical results |
| LegacyAuth.MismatchNeverSucceeds | src/auth.ts:78-84 | a mismatch becomes "Unknown signup/login error"/500 here too |
| LegacyAuth.ThirdPartyLinksTruthyFields | src/auth.ts:184-193 | third-party sign-in calls `linkWith` with `email` and `username` exactly when they are truthy |
| LegacyAuth.GetSessionResult | src/auth.ts:152-158 | as written, returns the stored record, whatever it holds |
| LegacyAuth.GetSessionNeverThrows | src/auth.ts:154-156 | with no cookie, the written guard returns the empty record instead of "No session found" |
| LegacyAuth.GuardedGetSessionResult | src/auth.ts:152-158 | the intended guard fails "No session found"/400 exactly when no complete session is stored |
| LegacyAuth.SignoutOutcome | src/auth.ts:105-125 | `logout` is called with the stored token; only its success clears the primary cookie; failures are re-wrapped |
| LegacyAuth.SignoutWithoutSessionCallsLogout | src/auth.ts:106-109 | with no session the written sign-out still calls Parse and can succeed |
| LegacyAuth.AuthorizeOutcome | src/auth.ts:127-134 | a fresh state is stored and appended as the only new parameter |
| LegacyAuth.CallbackArgs | src/auth.ts:143 | the transform receives every query value except `state` |
| LegacyAuth.CallbackOutcome | src/auth.ts:136-150 | a mismatch throws "Invalid state"/400 before deletion; a match deletes the handshake, then returns the transform's failure or ends as `AuthOutcome` of sign-in on its data |
| LegacyAuth.ReplayRejected | src/auth.ts:144-147 | after an accepted callback, any callback with a `state` is rejected |
| LegacyAuth.HandshakeCompletes | src/auth.ts:127-150 | authorize then a callback carrying the sent state ends as the third-party sign-in of the transform's data, with the handshake cleared |
| LegacyAuth.AuthorizeThenCallback | src/auth.ts:127-146 | a callback that sends back the authorized state passes the check |
| LegacyAuth.Authenticate | src/auth.ts:68-103 | performs dispatch, Parse call and `setSession` as `AuthOutcome` says |
| LegacyAuth.Signup | src/auth.ts:68-85 | ends as `AuthOutcome` for sign-up |
| LegacyAuth.Signin | src/auth.ts:87-103 | ends as `AuthOutcome` for sign-in |
| LegacyAuth.Signout | src/auth.ts:105-125 | ends as `SignoutOutcome` |
| LegacyAuth.RedirectToOAuth | src/auth.ts:127-134 | ends as `AuthorizeOutcome` |
| LegacyAuth.HandleOAuthCallback | src/auth.ts:136-150 | ends as `CallbackOutcome` |
| LegacyAuth.GetSession | src/auth.ts:152-158 | ends as `GetSessionResult` |
| CloudCode.FirstWithToken | src/parse-server/cloud-code.ts:3-5 | finds the first row holding the caller's token, or reports that none does |
| CloudCode.LogoutOutcome | src/parse-server/cloud-code.ts:1-13 | a missing row and a foreign row both fail with `OBJECT_NOT_FOUND` "Session not found" and leave the table unchanged; otherwise exactly that row is removed |
| CloudCode.RemovedAt | src/parse-server/cloud-code.ts:12 | destroying one row keeps every other row, in order, as a multiset difference of one |
| CloudCode.LogoutRemovesOnlyOwnSession | src/parse-server/cloud-code.ts:6-12 | logout succeeds iff the caller owns the row with its token, and then removes only that row |
| CloudCode.OthersSessionsSurvive | src/parse-server/cloud-code.ts:9-11 | a row owned by someone else is never removed, and every failure is the same "Session not found" |
| CloudCode.SessionTable.ParseAuthLogout | src/parse-server/cloud-code.ts:1-13 | query, two checks, then destroy, ending as `LogoutOutcome` |

## Left out

- `challenge` posts to the Parse server with `fetch`. That request is the parameter `challenge` of `Handlers.Env`; only its error re-wrapping is modelled.
- The Parse SDK calls are the oracle `IdentityProvider`. src/parse.ts only configures the SDK.
- iron-session sealing, encryption, cookie flags and expiry are not modelled. A cookie is present or absent; the two lifetimes are only declared as constants. An asynchronous failure of `save()` or `destroy()` is not modelled.
- The environment-reading configuration (`process.env`, `parseInt`) is not modelled. The provider configuration is an input.
- `uuidv4`, `crypto.randomUUID` and `crypto.subtle.digest` are inputs: two strings and an arbitrary function from bytes to 32 bytes.
- WHATWG URL parsing, serialisation and percent-encoding are not modelled. A URL is an origin, a path and an ordered list of pairs; `url.toString()` is the URL value itself. Three consequences: the `pathname` setter is taken literally; an absolute `redirectTo` in the middleware is not modelled, only a path with a query; an `authorizeUrl` that does not parse is not modelled.
- JSON numbers are integers. Property reads and `in` look only at own keys, so keys inherited from `Object.prototype` are not modelled.
- Two requests racing on the same cookies are not modelled: the code has no coordination to check.
- `SessionService.destroy(session)` (src/next/core/session.ts:28-30, src/session.ts:25-27) is not called by the core and is not modelled.
- The React hook, the session provider, and the re-export barrels are not modelled.
- src/next/core/constants.ts is not part of this model. Its two paths are taken to be those of src/constants.ts:12-13.
- The module that exports `LOGOUT_FUNCTION_NAME` is not part of this model. The name is taken to be "logout", the name the older tree uses.
- src/lib.ts, where the older tree imports its guards from, is not part of this model. `LegacyAuth` uses the guards of src/next/core/lib.ts.
- `Parse.Query.first` returns the first matching row in table order. The master-key option of `destroy` is not modelled.
- Encoding.VerifierShape: the verifier is proved to be 32 characters, so the model does not claim the 43-character minimum of section 4.1 of RFC 7636.
- The callback of both trees keeps the state check as written (`state !== authState`). The corrected callback of the findings (`Auth.StrictCallbackOutcome`) is defined and proved beside it rather than substituted, so that the handlers model the code as it runs.

## Findings

| source | as written | input that shows it | evidently intended | confidence | as-written member | corrected member |
|---|---|---|---|---|---|---|
| src/next/core/auth.ts:172 | `state !== authState` accepts when both are undefined | no handshake cookie (never started or expired after 120 s) and a callback URL with `code` but no `state`: the transform runs and the user is signed in (the same check is at src/auth.ts:144) | reject unless a handshake exists and its state equals the received one (section 10.12 of RFC 6749) | medium, not executed | Auth.AbsentStateAccepted | Auth.StrictCallbackOutcome |
| src/auth.ts:154 | `if (!session)` tests the session object, which `getSession` always returns | no session cookie: `getSession` returns the empty record instead of throwing "No session found" | throw "No session found"/400 when no user id and token are stored | high, not executed | LegacyAuth.GetSessionNeverThrows | LegacyAuth.GuardedGetSessionResult |
| src/auth.ts:107 | the same always-false guard in `signout` | no session cookie: `Cloud.run("logout")` is called with no token, and its result is reported | fail "No session found"/400 before calling Parse, as the newer tree does | high, not executed | LegacyAuth.SignoutWithoutSessionCallsLogout | Auth.SignoutWithoutSession |
