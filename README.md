# OAuth2 client, login/consent provider and scope middleware — a Dafny model

This project models the decision logic of a small OAuth2 demo deployment built
around Ory Hydra (authorization server) and Ory Kratos (identity provider):

- the Express application `docker/hydra/index.js`, which is at once
  - an OAuth2 client running the Authorization Code flow with PKCE
    (`/start-oauth`, `/callback`, `/`, `/logout`), and
  - Hydra's login and consent provider (`/login`, `/auth/login`, `/consent`);
- the users service `cmd/users/main.go`, whose `AuthMiddleware` checks the
  scopes of the token-introspection result forwarded in `X-Userinfo`.

Modules:

| file | module | contents |
|---|---|---|
| js_values.dfy | JsValues | optional values and JavaScript truthiness |
| encoding.dfy | Encoding | Node's `hex` and `base64url` encodings, their decoders and round-trip proofs |
| pkce.dfy | Pkce | a new flow (state, verifier, S256 challenge), the authorization query, the token form, the configuration |
| web.dfy | Web | the session record, responses, the `/` view rule, the `/login` redirect, logout |
| client_flow.dfy | ClientFlow | `/start-oauth` and `/callback` as steps of a state machine over the session, and their properties |
| provider.dfy | Provider | the login error-message chain, `/auth/login`, `/consent`, and their properties |
| session.dfy | HydraSession | the `Session` class: each handler updates the session fields in place and is proved equal to its step |
| users.dfy | UsersService | `strings.Split`, `hasRequiredScopes`, the `AuthMiddleware` decision and header updates, `getUserInfo` |

Every outbound HTTP call is a parameter: a function from what is sent (the token
form, the Kratos submission, the accept-login or accept-consent body) to an
abstract outcome (`Exchanged`/`ExchangeFailed`, `Ok`/`Failed`). The model can
therefore say which request a handler sends, and that it sends none on a
rejecting path. SHA-256 is a parameter `sha256: string -> Digest` (32 bytes);
`crypto.randomBytes` becomes the byte sequences given to `/start-oauth`.
Go's base64 and JSON decoding are the partial-function parameters
`decodeBase64` and `parseUserInfo`. The environment settings are a `Config`
value.

Where the code and the intended design disagree, the model follows the code:

- The design says a pending flow is discarded on every callback outcome.
  The code deletes `session.oauth` only after a successful exchange
  (docker/hydra/index.js:277). The error, missing-flow, mismatch and
  exchange-failure paths leave the session unchanged (`ClientFlow.CallbackRejections`,
  `ClientFlow.CallbackExchange`).
- The callback's `error` page is sent with status 200, not as an error status
  (docker/hydra/index.js:220).
- The design orders login error sources as: structured message, first UI
  message, generic description, raw body. The code uses a different order:
  a non-empty text body, then `error.message`, then `message`, then all
  `ui.messages` texts joined by spaces (`Provider.LoginErrorMessageIsFirstCandidate`).
- The design binds the subject to the identity provider's verified identity.
  The code uses the raw form `email` (docker/hydra/index.js:317;
  `Provider.Login`, `Provider.AcceptLoginBody`).
- The design leaves no partial login state on failure. The code stores
  `userTraits` before the accept-login call, which can still fail
  (`Provider.TraitsStoredBeforeAccept`).

## Model

| member | source | states |
|---|---|---|
| Encoding.Hex | docker/hydra/index.js:173 | the state text has two lower-case hex digits per random byte |
| Encoding.HexRoundTrip | docker/hydra/index.js:173 | hex decoding of the hex of any byte string gives the bytes back |
| Encoding.HexDecodeInverse | docker/hydra/index.js:173 | any text the hex decoder accepts is exactly the hex of its result, so encoder and decoder are inverse |
| Encoding.Base64Url | docker/hydra/index.js:174-178 | unpadded base64url text has 4 characters per 3 bytes plus 2 or 3 for a tail, all from the alphabet of section 5 of RFC 4648 |
| Encoding.Base64UrlRoundTrip | docker/hydra/index.js:174 | base64url decoding of the encoding of any byte string gives the bytes back |
| Pkce.S256 | docker/hydra/index.js:175-178 | the code challenge is BASE64URL(SHA256(verifier)): 43 base64url characters |
| Pkce.NewFlow | docker/hydra/index.js:173-178 | state is 32 lower-case hex digits, verifier 43 unreserved characters (inside 43..128), each decodes back to its random bytes, and the challenge is S256 of the verifier |
| Pkce.AuthorizationQueryFields | docker/hydra/index.js:195-203 | the redirect query has exactly client_id, redirect_uri, response_type=code, scope, state, code_challenge, code_challenge_method=S256, and the scope falls back to "openid offline" when none or an empty one was submitted |
| Pkce.TokenFormFields | docker/hydra/index.js:261-268 | the token form is an authorization_code grant with the code, the configured redirect_uri, client credentials and the given verifier |
| ClientFlow.StartOAuth | docker/hydra/index.js:171-209 | the new flow replaces any pending one, token and traits are kept, and the redirect's query is the authorization query with the new state, the S256 challenge of the new verifier, the configured redirect_uri, response_type=code, code_challenge_method=S256 and the scope fallback |
| ClientFlow.Callback | docker/hydra/index.js:212-290 | a token request is sent iff there is no error and the state equals the pending flow's; the token changes only to a set the exchange returned; the flow is deleted iff the exchange succeeded |
| ClientFlow.CallbackRejections | docker/hydra/index.js:219-255 | error, then missing flow (400), then state mismatch (400), each answered without a token request and with the session unchanged |
| ClientFlow.CallbackExchange | docker/hydra/index.js:257-289 | on a matching state the form carries the stored verifier; success stores the token set, deletes the flow and redirects to /; failure gives 500 and keeps the whole session |
| ClientFlow.ReplayRejected | docker/hydra/index.js:230-277 | a callback replayed after a successful one finds no flow: 400, no second token request |
| ClientFlow.StaleStateRejected | docker/hydra/index.js:181-255 | after /start-oauth, a callback with any state but the new one gets 400 and sends nothing |
| ClientFlow.StartThenCallbackBindsPkce | docker/hydra/index.js:195-267 | the callback for the state just issued posts a verifier whose S256 challenge is the code_challenge sent, with the same redirect_uri and client_id |
| ClientFlow.LoginRunShowsToken | docker/hydra/index.js:171-279 | start, callback with the issued state, token returned: the session holds that token and no flow, and / shows it |
| Web.HomeView | docker/hydra/index.js:54-160 | login form iff a non-empty login_challenge is given; else the token view iff the session has a token; else the welcome page |
| Web.LoginRedirect | docker/hydra/index.js:357-367 | /login forwards a non-empty login_challenge to the login form and otherwise redirects to / |
| Web.LogoutIdempotent | docker/hydra/index.js:422-425 | logout leaves an empty session, and logging out again changes nothing |
| Provider.LoginErrorMessageIsFirstCandidate | docker/hydra/index.js:339-350 | the message is the first non-empty field by precedence (text body, error.message, message, joined ui.messages), and "Login failed" when there is none |
| Provider.ErrorMessageWins | docker/hydra/index.js:343-344 | a non-empty error.message wins over message and the UI messages |
| Provider.UiMessagesFallback | docker/hydra/index.js:347-349 | with no other field, an empty ui.messages list gives "Login failed" and a non-empty one the joined texts |
| Provider.AcceptLoginBody | docker/hydra/index.js:317-334 | the accepted subject is the raw form email, remember true for 3600 s, acr "0" |
| Provider.Login | docker/hydra/index.js:295-354 | accept-login is called iff both identity-provider calls succeed, and then userTraits becomes the identity's traits (or `{ email }`); each failure redirects to the login form with the original challenge and the message extracted from that call's error, leaving the session unchanged when an identity-provider call failed; success redirects to the redirect_to accept-login returned |
| Provider.TraitsStoredBeforeAccept | docker/hydra/index.js:319-337 | when accept-login fails after the credentials were accepted, the traits are still stored |
| Provider.ConsentTraits | docker/hydra/index.js:384-388 | consent uses the session's traits, else the fixed default identity |
| Provider.Consent | docker/hydra/index.js:370-417 | missing challenge gives 400; otherwise the grant is exactly the requested scope and audience, both tokens carry the traits' email, and upstream failure gives 500 |
| Provider.ConsentUsesLoginTraits | docker/hydra/index.js:319-402 | after a login, consent is granted with the traits that login stored |
| HydraSession.Session.Index | docker/hydra/index.js:54-168 | GET / chooses its view from the query and the session token only |
| HydraSession.Session.StartOAuth | docker/hydra/index.js:171-209 | writes session.oauth in place exactly as ClientFlow.StartOAuth and keeps the other fields |
| HydraSession.Session.Callback | docker/hydra/index.js:212-290 | updates token and oauth in place exactly as ClientFlow.Callback; nothing changes when no request is sent |
| HydraSession.Session.AuthLogin | docker/hydra/index.js:295-354 | updates userTraits in place exactly as Provider.Login; oauth and token are kept |
| HydraSession.Session.Consent | docker/hydra/index.js:370-417 | answers as Provider.Consent and modifies nothing |
| HydraSession.Session.Logout | docker/hydra/index.js:422-425 | empties every field and redirects to / |
| UsersService.Split | cmd/users/main.go:48 | strings.Split on " " yields at least one piece, none containing a space |
| UsersService.JoinSplit | cmd/users/main.go:48 | joining the pieces with single spaces gives the scope text back |
| UsersService.SplitJoin | cmd/users/main.go:48 | splitting a space-joined list of space-free scopes gives the list back |
| UsersService.HasRequiredScopes | cmd/users/main.go:64-76 | true iff every required scope equals some user scope |
| UsersService.NothingRequired | cmd/users/main.go:70-75 | an empty required list is always satisfied |
| UsersService.CoversIgnoresOrderAndDuplicates | cmd/users/main.go:65-68 | the result depends only on which user scopes occur |
| UsersService.CoversMonotone | cmd/users/main.go:65-68 | adding user scopes never turns an allowed request into a refused one |
| UsersService.Authorize | cmd/users/main.go:25-53 | 401 iff the header is empty, base64 or JSON fails, or the token is inactive; 403 iff otherwise a required scope is missing; a pass carries an active, fully scoped user info |
| UsersService.UnauthorizedOrder | cmd/users/main.go:25-46 | the 401 message names the first failing check in the chain's order |
| UsersService.AuthMiddleware | cmd/users/main.go:22-62 | a rejection writes the error, leaves headers alone and never calls next; a pass sets X-User-Id, X-User-Scopes, X-Client-Id and calls next exactly once |
| UsersService.UserInfoSeenByHandler | cmd/users/main.go:55-82 | behind a pass, getUserInfo returns the token's subject and the same split scope list that was checked |
| UsersService.SingleScopeGrantsOnlyItself | cmd/users/main.go:64-76 | matching is exact: a scope without spaces grants exactly itself, so users:read does not grant users |
| UsersService.AdminStatsNeedsBoth | cmd/users/main.go:120 | /admin/stats passes the scope check iff both admin:read and users:read are present |
| UsersService.AdminStatsGranted | cmd/users/main.go:120 | "openid admin:read users:read" opens /admin/stats |

## Left out

- HTML rendering and templating of every page: a response names the page and its status only.
- Configuration loading and logging (`process.env`, `console.log`): the settings are a `Config` parameter.
- Transport of the outbound calls (axios, URLs, headers): each call is an abstract outcome; the URL of the admin endpoints is not modelled.
- `crypto.randomBytes` and SHA-256: random bytes and the hash are parameters, so nothing is claimed about entropy, uniqueness of states or collisions.
- URL encoding: `URLSearchParams` and `encodeURIComponent` are not modelled; a location keeps its raw values.
- express-session internals: the cookie, the one-hour `maxAge`, the asynchronous `save` callback and the store's persistence.
- JWT display decoding on `/` (base64 plus `JSON.parse` for display only).
- Go base64 and JSON decoding: partial functions given as parameters.
- Routing and server startup in both programs, and the handlers behind the Go middleware except for the headers they see.
- cmd/orders/main.go: it has no decision logic.
- Concurrent requests on one session: each handler is one sequential step.
- Query or form fields sent as arrays, and non-string JSON values, are not modelled: fields are optional strings.
- The token set, identity traits and consent request are fixed records (`TokenSet`, `Traits` with email, name and roles, `ConsentRequest` with two lists). The code stores and echoes arbitrary JSON there.
- Go `http.Header` name canonicalisation: the model uses the canonical names (`X-Userinfo`, `X-User-Id`, `X-User-Scopes`, `X-Client-Id`) directly.
