# OIDC authenticator: a Dafny model of the per-session login state machine

This project models the core of an HTTP authentication layer written in Go on top of the gin web framework. The layer drives a browser session through the OpenID Connect Authorization Code flow. Section 4.1 of RFC 6749 defines that grant, and section 10.12 of RFC 6749 defines its `state` CSRF defence. The session moves through three states:

- **anonymous → pending.** `LoginHandler` resolves where the browser should return, stores that target as `redirect` and a nonce as `state`, and redirects to the provider's authorization endpoint.
- **pending → authenticated.** `RedirectHandler` is the callback. It checks the query's `state` against the stored one, exchanges the code and verifies the ID token. It then stores `access_token`, `refresh_token` and `id_token`, and stores `user` when user info answers. Finally it saves the session and redirects to the stored target.
- **authenticated → cleared.** `LogoutHandler` revokes the access and refresh tokens (section 2.1 of RFC 7009), clears every session key, saves, and redirects to the end-session endpoint.

`IsAuthenticated` holds exactly when the session has an `access_token` entry. A small layer of request handlers dispatches `/login`, `/logout` and `/check` and serves the gated user routes. A middleware gate redirects anonymous sessions to `/login`, and another middleware binds the one authenticator to every request.

Modules:

- `Web` (web.dfy) holds the two framework collaborators. The request context is a class. Its response is a log of writes (status, redirect, header, JSON, pass-on), plus the errors attached to it, an abort flag and a flag for a panic that the recovery middleware turned into a 500. The session is a class too: `values` is what `Get`/`Set`/`Clear` see during the request, `stored` is what the store holds, and a successful `Save` copies `values` into `stored`.
- `Paths` (paths.dfy) is Go's `path.Base`.
- `GinOidc` (gin_oidc.dfy) holds `pkg/gin-oidc/oidc.go`. The handlers are methods of the `Authenticator` class. Each is proved to change the observed world exactly as a step function says. The world is the session's values, the stored session, the response and the log of calls to the identity provider. Every remote or library answer comes in as an `Oracle`: the URL parser, the nonce, the exchange, verification, user info, each revocation and the store's answer to `Save`.
- `GinOidcFacts` (gin_oidc_facts.dfy) holds the properties of one handler call.
- `Handler` (handler.dfy) holds `internal/handler/oidc.go`.
- `Middleware` (middleware.dfy) holds `internal/middleware/oidc.go`.
- `Flow` (flow.dfy) covers sequences of requests. Each request starts from the stored session. Its lemmas are invariants of the stored session and the end-to-end scenario.

A Go panic is modelled as its effect once the recovery middleware has caught it: status 500, chain aborted, `panicked` set. Four panics are modelled:

- the type assertion on a missing stored `state` (`pkg/gin-oidc/oidc.go:131`);
- the type assertion on a missing `redirect` after a successful save (`pkg/gin-oidc/oidc.go:170`);
- the type assertion on a missing `user` in `Check` and `GetUserData` (`internal/handler/oidc.go:32-34`, `internal/handler/oidc.go:60`);
- the nil `Authenticator` dereference in `SetContext` when discovery failed at start-up (`internal/middleware/oidc.go:28`).

The model follows the code where the code departs from the usual shape of this flow:

- The usual flow consumes `state` once the callback has used it. The code never removes it, so the nonce can be replayed (`Flow.StateReplayable`).
- The code means to keep scheme and host when the referer points at the login page. Its branch for that (`pkg/gin-oidc/oidc.go:83-84`) tests the URL just parsed from `"/"` and can never run, so the target is `"/"` (`GinOidcFacts.ResolveCollapsesLogin`).
- The code means to fall back to the request's host when there is no referer. But a missing `Referer` header reads as `""`, which `url.Parse` accepts as the empty URL, so the host is never consulted: the handler redirects to, or stores as `redirect`, the empty URL (`GinOidcFacts.ResolveWithoutReferer`). The framework then resolves that empty location against the request path, which is `/` for a request served at `/login`.
- A missing stored `state` is a client error in the usual flow (400). The code panics, which gives a 500.
- The usual flow stops a login whose session could not be saved. The code records a 500 error and still issues the 307 redirect.
- The usual flow persists the cleared session at logout. The code ignores the save error, so a failed save leaves the stored session authenticated (`Flow.OnlyLogoutEndsAuthentication`).

## Model

| member | source | states |
|---|---|---|
| `Paths.TrimTrailingSlashes` | pkg/gin-oidc/oidc.go:81 | The result is a prefix of the path that does not end in `/`, and everything cut off is `/`. |
| `Paths.AfterLastSlash` | pkg/gin-oidc/oidc.go:81 | The result is a suffix of the path with no `/`, and it is maximal: the character just before it is `/`. |
| `Paths.Base` | pkg/gin-oidc/oidc.go:81 | `path.Base` is never empty. It contains no `/` unless it is `"/"` itself, and a slash-free non-empty path is its own base. The empty path gives `"."` and a path of slashes only gives `"/"`. |
| `Paths.BaseOfTrailing` | pkg/gin-oidc/oidc.go:81 | The base of a slash-free `name` followed by any number of `/` is `name`. |
| `Paths.BaseOfJoin` | pkg/gin-oidc/oidc.go:81 | The base of `dir/name` followed by any number of `/` is `name`. |
| `GinOidc.Resolve` | pkg/gin-oidc/oidc.go:73-86 | The resolved target never has base `"login"`. It is either `"/"` or the first URL that parses among referer, host and `"/"`. |
| `GinOidc.ResolveRedirect` | pkg/gin-oidc/oidc.go:73-86 | The branching resolution reads and changes nothing. It equals `Resolve`, which shows the scheme/host branch at 83-84 has no effect. |
| `GinOidc.Authenticator.New` | pkg/gin-oidc/oidc.go:47-69 | A discovery failure yields no authenticator and a provider error. Otherwise it yields a fresh authenticator holding the configuration and the discovered endpoints. |
| `GinOidc.Authenticator.IsAuthenticated` | pkg/gin-oidc/oidc.go:174-178 | It is a pure read of the session. It is true exactly when an `access_token` entry exists, even an empty one. |
| `GinOidc.Authenticator.LoginHandler` | pkg/gin-oidc/oidc.go:71-102 | Session, store, response and provider log change exactly as `LoginStep` says. |
| `GinOidc.Authenticator.RedirectHandler` | pkg/gin-oidc/oidc.go:129-172 | Session, store, response and provider log change exactly as `CallbackStep` says. |
| `GinOidc.Authenticator.LogoutHandler` | pkg/gin-oidc/oidc.go:104-127 | Session, store, response and provider log change exactly as `LogoutStep` says. |
| `GinOidcFacts.ResolvePrefersReferer` | pkg/gin-oidc/oidc.go:73-75 | When the referer parses, the host has no influence. The target is the referer unless that points at the login page. |
| `GinOidcFacts.ResolveFallsBack` | pkg/gin-oidc/oidc.go:74-78 | When the referer fails to parse, the host is used. `"/"` is used when both fail. |
| `GinOidcFacts.ResolveWithoutReferer` | pkg/gin-oidc/oidc.go:73-75 | A request without a referer resolves to the empty URL whatever its host, because the empty referer parses. |
| `GinOidcFacts.ResolveCollapsesLogin` | pkg/gin-oidc/oidc.go:81-85 | A referer whose path ends in a `login` element resolves to `"/"` with no scheme or host, whatever its own scheme and host. |
| `GinOidcFacts.ResolveCollapsesRelativeLogin` | pkg/gin-oidc/oidc.go:81-85 | A referer whose path is the relative `login`, with any number of trailing slashes, also resolves to `"/"`. |
| `GinOidcFacts.LoginWhenAuthenticated` | pkg/gin-oidc/oidc.go:88-91 | An authenticated session gets a 303 to the target. No nonce is issued, the session and store are untouched and the provider is not contacted. |
| `GinOidcFacts.LoginStartsFlow` | pkg/gin-oidc/oidc.go:93-101 | An anonymous session stores `redirect` and `state` (the nonce) and is saved. It always gets a 307 to the authorization endpoint with that same nonce. A failed save adds a 500 error and an abort first. |
| `GinOidcFacts.LoginLeavesPending` | pkg/gin-oidc/oidc.go:93-97 | After a saved login the stored session holds the nonce and is not authenticated. |
| `GinOidcFacts.CallbackChecksStateFirst` | pkg/gin-oidc/oidc.go:130-136 | The provider is contacted if and only if the query state equals the stored one, and then the code exchange comes first. A missing state panics (500) and a different state gets a 400. Neither changes the session. |
| `GinOidcFacts.CallbackFailuresPersistNothing` | pkg/gin-oidc/oidc.go:136-154 | An exchange failure (401), a missing ID token (500) or a failed verification (401) aborts with the store unchanged. |
| `GinOidcFacts.CallbackSuccess` | pkg/gin-oidc/oidc.go:141-171 | A verified callback sets the three tokens, and `user` only if user info answers. A user-info failure records a 500 error but the session is still saved. `state` stays. The store is updated only if the save succeeds, and then the response gets exactly the 303 to the stored `redirect` (after the user-info 500, if any), and is aborted only after a user-info failure. Without a stored `redirect` a successful save panics. A failed save adds exactly one more 500 status. The cookie store's loss of a save after an abort is not modelled (see "Left out"). |
| `GinOidcFacts.CallbackPersistsOnlyVerifiedTokens` | pkg/gin-oidc/oidc.go:130-168 | The store changes only after a matching state, an exchange, a present and verified ID token and a successful save. It then holds exactly those tokens. |
| `GinOidcFacts.LogoutWhenAnonymous` | pkg/gin-oidc/oidc.go:105-108 | Logging out an anonymous session writes 200 and changes nothing else. |
| `GinOidcFacts.LogoutClearsEverything` | pkg/gin-oidc/oidc.go:109-126 | Logout revokes the access token, then the refresh token if present, and records each failure without aborting. It clears all keys whatever the revocations answered, and the store is emptied only if the unchecked save succeeds. It then redirects (307) to the end-session endpoint. |
| `Handler.Login` | internal/handler/oidc.go:11-18 | It runs the callback step exactly when a `code` parameter is present (even empty), and the login step otherwise. |
| `Handler.Logout` | internal/handler/oidc.go:20-23 | It always runs the logout step, whatever the session. |
| `Handler.Check` | internal/handler/oidc.go:25-36 | It writes the response that `CheckStep` gives and never changes the session. |
| `Handler.GetTokens` | internal/handler/oidc.go:38-50 | It writes the response that `TokensStep` gives and never changes the session. |
| `Handler.GetUserData` | internal/handler/oidc.go:52-62 | It writes the response that `UserDataStep` gives and never changes the session. |
| `Handler.CheckReportsUser` | internal/handler/oidc.go:27-35 | The response is a bare 401 if and only if the session is unauthenticated. Otherwise the `User` header and the JSON `userId` both equal the session's `user`, and a missing `user` panics. |
| `Handler.GatedReadsAnswer` | internal/handler/oidc.go:40-61 | An anonymous session only passes on and writes nothing. An authenticated one gets a single 200 JSON write with the session's tokens (null when missing) or its `user`, and user data without a `user` entry panics. |
| `Middleware.CheckOIDC` | internal/middleware/oidc.go:32-39 | An anonymous session gets a 303 to `/login` and an authenticated one gets nothing. The session is only read. |
| `Middleware.GateOnlyRedirects` | internal/middleware/oidc.go:35-37 | The gate never aborts and never records an error. It adds the one redirect exactly when the session is anonymous. |
| `Middleware.OidcMiddleware.constructor` | internal/middleware/oidc.go:17-26 | One authenticator is built at setup. A discovery error is only logged and leaves no authenticator. |
| `Middleware.OidcMiddleware.Bind` | internal/middleware/oidc.go:27-29 | Every request is bound to that same authenticator. When there is none, the nil dereference panics (500). |
| `Flow.Serve` | internal/router/user.go:9-15 | The user routes pass through the `CheckOIDC` gate first: an anonymous request gets the gate's 303 to `/login` and then the handler's pass-on, an authenticated one exactly the handler's response. Only `/login` and `/logout` change the session, the store or the provider log. |
| `Flow.RoutesDispatch` | internal/router/oidc.go:11-13 | `/login` is served by the callback step when a `code` parameter is present and by the login step otherwise; `/logout` by the logout step and `/check` by the check step. |
| `Flow.ServeKeepsConsistent` | pkg/gin-oidc/oidc.go:136-168 | No request leaves a stored access token without refresh and ID tokens, or a stored `state` without `redirect`. |
| `Flow.RunKeepsConsistent` | pkg/gin-oidc/oidc.go:136-168 | The same holds after any sequence of requests. |
| `Flow.CallbackPanicsOnlyWithoutState` | pkg/gin-oidc/oidc.go:165-171 | In a consistent session the missing-`redirect` panic after the save cannot happen. The callback panics only when no login is pending. |
| `Flow.OnlyCallbackAuthenticates` | internal/handler/oidc.go:11-18 | No request other than a callback authenticates an anonymous stored session. |
| `Flow.RunWithoutCallbackStaysAnonymous` | internal/handler/oidc.go:11-18 | A sequence of requests with no callback among them leaves an anonymous session anonymous. |
| `Flow.OnlyLogoutEndsAuthentication` | pkg/gin-oidc/oidc.go:104-127 | A stored authentication ends if and only if a logout's save succeeds. A logout whose save fails leaves the store as it was. |
| `Flow.ReadRoutesOnlyRead` | internal/handler/oidc.go:25-62 | `/check` and the gated user routes leave the session, the store and the provider untouched. |
| `Flow.UserRoutesRedirectAnonymous` | internal/router/user.go:11-15 | An anonymous request to a user route gets the gate's 303 to `/login` and then the handler's pass-on, nothing else. |
| `Flow.LogoutTwice` | pkg/gin-oidc/oidc.go:104-108 | After a saved logout the store is empty, and a second logout answers 200 as a no-op. |
| `Flow.StateReplayable` | pkg/gin-oidc/oidc.go:129-171 | `state` is never consumed. After a saved successful callback, a second callback with the same `state` passes the check and reaches the exchange. |
| `Flow.ScenarioLogin` | pkg/gin-oidc/oidc.go:93-101 | A login from `/dashboard` stores `redirect="/dashboard"` and the nonce, and redirects to the authorization endpoint. |
| `Flow.ScenarioCallback` | pkg/gin-oidc/oidc.go:136-171 | The callback with that nonce and code `abc` stores T1/R1/J1 and `u123`, calls exchange, verify and user info in that order, and redirects to `/dashboard`. |
| `Flow.EndToEnd` | internal/handler/oidc.go:11-18 | The two requests take an anonymous session to one authenticated as `u123`, with `redirect="/dashboard"`. |

## Left out

- Revocation requests (`pkg/gin-oidc/oidc.go:180-200`) are not built. The HTTP request, basic auth and query encoding are not modelled. Each revocation is an oracle answer. A reply with an error status still counts as a success, since the code only checks that the request could be sent.
- `generateState` (`pkg/gin-oidc/oidc.go:202-209`) is not modelled. Its nonce is an input. Its freshness, its randomness, its base64 form (32 bytes give 44 characters) and its panic when the entropy source fails are all left out.
- `url.Parse` and `URL.String` are taken as given. The parser is a function parameter that returns `None` on a parse error. A parsed URL carries its scheme, host, path and rendered text. Only the parses of `""` (the empty URL) and `"/"` (`RootUrl`) are fixed.
- `AuthCodeURL` is not encoded. The redirect to the authorization endpoint is a structured location with client id, redirect URI, scopes and state. The library's `response_type=code` and the query encoding are not modelled.
- OIDC discovery, the token exchange, ID-token verification and user info belong to external libraries. Each is one oracle answer. What verification checks is not modelled.
- `SetContext` and the authenticator's shared `context` field (`pkg/gin-oidc/oidc.go:42-45`) are not modelled, and neither is the lookup by `oidc.Get`. Handlers receive the authenticator, the request and the session explicitly. So the race between concurrent requests on the one shared field is not modelled.
- The framework flushes the headers as soon as `AbortWithError` writes its status, and drops anything written to the headers afterwards: a later status, a redirect's `Location` header, and the `Set-Cookie` header of a cookie-store `Save`. The response here is the ordered log of what the handlers write, so what the client finally sees is not computed. For example, a failed login save writes 500 and then the 307, and the 307's `Location` never reaches the browser.
- `Session.Save` always copies the values into the store when the backend answers success. With the cookie backend, a save after an abort returns success but its cookie never reaches the browser. This happens in the callback after a user-info failure (`pkg/gin-oidc/oidc.go:158-167`), so with that backend the tokens are in fact not kept. The Redis backend keeps them, which is what the model describes.
- The session store skips `Save` when nothing was written. That case is not modelled, because every `Save` in these handlers follows a write. The cookie and Redis backends are not modelled.
- A query parameter given several times is modelled by its first value only.
- The recovery middleware's logging and its broken-pipe case are not modelled. Only its abort with 500 is.
- Configuration loading, server start and stop, flags, logging, CORS, the root route and the admin endpoints (`internal/handler/server.go`) are not part of this model. They are setup and plumbing around the core.
