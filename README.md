# Authentication gateway: verified model

This project models the decision logic of a small authentication gateway and proves properties about it. The gateway has two parts:

- **The API server** (`api/src/index.ts`) has three routes. `GET /` lists the endpoints. `GET /auth` checks a session cookie or a bearer token against the identity provider. `POST /session` exchanges a bearer token for a two-week session cookie.
- **The front-end request hook** (`app/src/hooks.ts`) does four things. It gives each browser an anonymous `userid` cookie. It copies a bearer token into the request's locals. It applies the `_method` override. It wraps the page render.

The identity provider (firebase-admin's `verifySessionCookie`, `verifyIdToken` and `createSessionCookie`) is modelled as a fake, `Api.Provider`. Its answers are fixed functions of the call's arguments: `Ok(value)` or `Err(error)`, where `Err` stands for a thrown error. It records every call in `calls`, so the properties can say which verifications were consulted. The framework's reply object is `Api.Reply`: `Code` sets the status, and `Send` appends a `(status, body)` response to `sent`.

The `/auth` and `/session` handlers are imperative methods that follow the source step by step. Each one is proved against a pure specification function, `AuthExchange` or `SessionExchange`. The method's contract says that it makes exactly that function's provider calls and sends exactly its one response. The properties the source promises are stated as the contracts of those functions, and as lemmas about them.

Files:

- `wrappers.dfy`: `Option` for JavaScript's `undefined`, and `Result` for a call that may throw.
- `text.dfy`: ASCII `toLowerCase`/`toUpperCase`, `includes`, and `split` on one character (with its inverse `Join`). Also `IndexOf` and array indexing.
- `http.dfy`: header lookup (`|| ""`) and cookie lookup.
- `bearer.dfy`: the bearer-token extraction. The repository writes it out three times, at `api/src/index.ts:53-57`, `api/src/index.ts:91-94` and `app/src/hooks.ts:8-11`.
- `api.dfy`: the three routes, the provider fake and the reply.
- `hooks.dfy`: the hook, the request it changes, the renderer and its page.

Four points of the code's behaviour, as the model keeps them:

- **Splitting.** The code splits the header on every space and takes index 1. So `"Bearer  x"` gives the empty piece, which counts as no token, and `"Bearer a b"` gives `"a"`.
- **Precedence.** A truthy `session` cookie is checked first. The bearer token is never tried after it, not even when the session check fails.
- **Truthiness.** Presence means JavaScript truthiness. An empty `session` or `userid` cookie counts as absent, and an empty `userid` cookie is replaced by a fresh id.
- **Raw piece in the hook.** The hook stores the raw piece at index 1 in `locals.idToken`. That piece may be `undefined` or `""`. The API routes go on only with a truthy piece.

## Model

| member | source | states |
|---|---|---|
| Text.Split | api/src/index.ts:56 | `split(" ")` always gives at least one piece. No piece contains the separator. Joining the pieces with the separator gives the input back. |
| Text.SplitJoin | api/src/index.ts:56 | The converse: splitting a join of separator-free pieces gives those pieces. So `Split` is the only such decomposition. |
| Text.SplitAfterPiece | api/src/index.ts:56 | A separator-free prefix followed by a separator (or by nothing) is the first piece. The remainder is split on its own. |
| Text.IndexOf | api/src/index.ts:56 | The first position of a character: absent exactly when the character does not occur. It points at that character, with no earlier occurrence. |
| Text.Lower | api/src/index.ts:55 | Definition of `toLowerCase()` (also at api/src/index.ts:92 and app/src/hooks.ts:9) on ASCII: each character mapped through `LowerChar`. |
| Text.Upper | app/src/hooks.ts:15 | Definition of `toUpperCase()` on ASCII: each character mapped through `UpperChar`. |
| Text.PieceAt | api/src/index.ts:56 | Definition of the array index `[1]` (also at api/src/index.ts:93 and app/src/hooks.ts:10): the element when in range, else `undefined`. |
| Text.LowerHasNoCapitals | api/src/index.ts:55 | After `toLowerCase` no ASCII capital letter is left. |
| Text.LowerIdempotent | api/src/index.ts:55 | Lower-casing an already lower-cased header changes nothing. |
| Text.LowerOfUpper | api/src/index.ts:55 | Upper-casing first makes no difference to the lower-cased text, so the "bearer" test ignores case completely. |
| Text.UpperHasNoSmallLetters | app/src/hooks.ts:15 | After `toUpperCase` no ASCII small letter is left in the override method. |
| Text.UpperIdempotent | app/src/hooks.ts:15 | Upper-casing an already upper-cased method changes nothing. |
| Text.UpperOfLower | app/src/hooks.ts:15 | Lower-casing first makes no difference to the upper-cased method: `_method=put` and `_method=PUT` give the same verb. |
| Text.Contains | api/src/index.ts:55 | `includes`: the text occurs at some position. It can only occur in a string at least as long as itself. |
| Text.SplitIsSingleIff | api/src/index.ts:56 | The split is a single piece exactly when the header has no space. |
| Text.Truthy | api/src/index.ts:61-64 | The truthiness tests `if (session)`, `if (idToken)`, `!idToken` and `!cookies.userid` (also at api/src/index.ts:95, app/src/hooks.ts:7 and 20): the value is present and is not the empty string. |
| Http.Header | api/src/index.ts:53 | `request.headers.authorization \|\| ""` (also at api/src/index.ts:91 and app/src/hooks.ts:8): a missing header reads as the empty string. |
| Http.Cookie | api/src/index.ts:60 | `cookies.session` and `cookies.userid`: the parsed value, or `undefined` when there is no such cookie. |
| Bearer.MentionsBearer | api/src/index.ts:55 | `authHeader.toLowerCase().includes("bearer")` (also at api/src/index.ts:92 and app/src/hooks.ts:9). It can only hold for a header of at least six characters. |
| Bearer.SecondPiece | api/src/index.ts:56 | `authHeader.split(" ")[1]` (also at api/src/index.ts:93 and app/src/hooks.ts:10). It is `undefined` exactly when the header has no space, and it never contains a space. |
| Api.HostText | api/src/index.ts:31 | `${host}` in the template literals: an unset `VIRTUAL_HOST` prints as `undefined`. |
| Api.Origin | api/src/index.ts:31-44 | The shared start `https://${host}/` of every listed URL. |
| Hooks.SetCookieValue | app/src/hooks.ts:23 | The exact `set-cookie` value `userid=<id>; Path=/; HttpOnly`. |
| Bearer.TokenSlot | api/src/index.ts:56 | The reference reading of the token, by positions: the text between the first and the second space. It never contains a space. |
| Bearer.SecondPieceIsTokenSlot | api/src/index.ts:56 | For every header, index 1 of the split equals the text between the first and the second space, and is `undefined` when there is no space. |
| Bearer.ExtractBearer | api/src/index.ts:53-57 | A token is extracted exactly when the lower-cased header contains "bearer" and the second space-separated piece exists and is non-empty. The token is then that piece, non-empty and space-free. |
| Bearer.MentionsBearerIff | api/src/index.ts:55 | The lower-cased header contains "bearer" exactly when some six-character window of the header spells it in any ASCII case. |
| Bearer.MentionsAnywhere | api/src/index.ts:55 | "bearer" in any case counts at any position, not only as a prefix. |
| Bearer.BearerFromShape | api/src/index.ts:55-56 | A header `<scheme> <token>[ ...]` that mentions bearer yields exactly `<token>`. |
| Bearer.NoSpaceNoToken | api/src/index.ts:56-64 | A header without a space (such as `Bearer`) has no index 1, so no token is extracted. |
| Bearer.DoubledSpaceNoToken | api/src/index.ts:56-64 | After two spaces in a row (such as `Bearer  x`), index 1 is `""`, so no token is extracted. |
| Api.Endpoints | api/src/index.ts:29-47 | Five entries, one per route (`/`, `/docker`, `/auth`, `/logout`, `/session`). Each URL is `https://<host>/<route>`, and an unset host prints as `undefined`. The post marker is on exactly logout and session. |
| Api.EndpointUrlsDistinct | api/src/index.ts:29-47 | No two listed endpoints share a URL. |
| Api.Index | api/src/index.ts:27-48 | `/` answers 200 with status "ok" and exactly the five endpoints of `Endpoints`. |
| Api.AuthExchange | api/src/index.ts:49-86 | A truthy session cookie is the only credential verified. Otherwise an extracted bearer token is the only one. With neither, nothing is called and the answer is 401 with no user. At most one call is made. A throw gives 401 with the error, with no fallback. Success gives 200 with `{user, cookies, headers}`. 200 happens exactly when the single verification succeeds. |
| Api.SessionCookieMasksHeader | api/src/index.ts:60-67 | With a truthy session cookie, the authorization header changes neither the provider calls nor the status. |
| Api.SessionExchange | api/src/index.ts:88-114 | No token gives exactly 400 and `{code: 400, message: "Bad Request: missing Authorization header"}`, with no call. Otherwise the token is verified first. `createSessionCookie` is called only after that succeeds, with the same token and `expiresIn` 1209600000. A throw from either call gives 401 with the error. 200 happens exactly when both succeed, with `{user, customToken: undefined, idToken: token, session}`. |
| Api.AuthAgreesWithSession | api/src/index.ts:91-94 | Without a session cookie, `/auth` consults exactly the verification `/session` starts with. It answers 200 exactly when that verification succeeds. |
| Api.Provider.VerifySessionCookie | api/src/index.ts:62 | Records the call and returns the provider's answer for that cookie. |
| Api.Provider.VerifyIdToken | api/src/index.ts:65 | Records the call and returns the provider's answer for that token. |
| Api.Provider.CreateSessionCookie | api/src/index.ts:104-106 | Records the call with its token and expiry, and returns the provider's answer. |
| Api.Reply.Code | api/src/index.ts:70 | Sets the status and sends nothing. |
| Api.Reply.Send | api/src/index.ts:74-78 | Sends one response with the current status and the given body. |
| Api.HandleAuth | api/src/index.ts:49-86 | The imperative handler makes exactly the provider calls of `AuthExchange` and sends exactly its one response. |
| Api.HandleSession | api/src/index.ts:88-114 | The imperative handler makes exactly the provider calls of `SessionExchange` and sends exactly its one response. |
| Hooks.AssignVisitor | app/src/hooks.ts:6-24 | The visitor id is the incoming `userid` cookie when truthy, else the fresh id. `set-cookie` is produced exactly when no truthy `userid` cookie came in, and is then `userid=<id>; Path=/; HttpOnly`. |
| Hooks.ReturningVisitor | app/src/hooks.ts:20-24 | A first visit hands out the fresh id in a cookie. The next request that presents it reuses the same id and gets no `set-cookie`. |
| Hooks.SetCookieAttributes | app/src/hooks.ts:23 | The cookie value, split on `;`, is the `userid=<id>` pair followed by exactly `Path=/` and `HttpOnly`: no Secure flag and no expiry. |
| Hooks.Renderer.Render | app/src/hooks.ts:18 | Records the request as rendered and returns the renderer's page. |
| Hooks.Handle | app/src/hooks.ts:5-27 | `locals.userid` is set to the assigned visitor id. `locals.idToken` is set to the raw index-1 piece exactly when the header mentions bearer, and is otherwise untouched. The method becomes the upper-cased `_method` query value when present, and is otherwise unchanged. Render is called once, with the updated request. Its page is returned with status and body unchanged. Its headers are unchanged except that `set-cookie` is added exactly on a first visit. |

## Left out

- Server construction, TLS key and certificate reads, HTTP/2 settings, CORS registration and logging (`api/src/index.ts:9-20`, `69`). These are I/O and framework set-up.
- Firebase initialisation and the internals of the three provider calls (`api/src/index.ts:22-23`). These are foreign calls. The fake answers with fixed functions of the arguments, so expiry over time and revocation are not modelled.
- `cookie.parse`: the parsed cookie map is an input.
- `uuid()`: the fresh id is a parameter. The model takes it even on a path where the source would not call `uuid()`.
- The page render itself: the renderer answers with a given page. The model assumes render does not change the request.
- `start`, `server.listen`, `process.env` and `process.exit` (`api/src/index.ts:117-127`). These are process I/O. The host is an input of `Api.Endpoints`.
- The `./routes/docker` module and the `/logout` route. They are not part of this model. Only their entries in the listing are.
- async/await scheduling: each handler runs sequentially.
- Unicode case mapping: lowering and upper-casing act on ASCII letters only.
- `authorized = user !== undefined` (`api/src/index.ts:63`, `66`): a successful verification always carries an identity, so the check is always true in the model.
- Header values that are string arrays, and the JSON serialisation of a thrown error.
- Repeated query parameters: `request.query` maps each name to the first value, which is what `get` returns.
