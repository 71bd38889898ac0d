# CSRF middleware — a Dafny model

This project models `CSRFMiddleware`, an ASGI middleware that enforces the
double-submit-cookie defence against cross-site request forgery. The model
covers three parts:

- the **request gate** of `__call__`:
  - scopes other than `http`/`websocket` pass straight through;
  - a `websocket` scope passes that first test, but building Starlette's
    `Request` on it fails that class's `http`-only assertion. The call raises
    before the gate, so the application never runs and nothing is sent;
  - the safe methods `GET`, `HEAD`, `OPTIONS` and `TRACE` always reach the application;
  - any other method needs a non-empty cookie and a non-empty header whose signed
    tokens decode to the same secret. Otherwise it gets the fixed 403
    `CSRF verification failed` response.
- **token matching** (`_matching_tokens`) over an abstract signer.
- **cookie injection** by the wrapped `send` (`send`, `_build_cookie`,
  `_generate_csrf_token`). When the request has no cookie, every forwarded
  message gets one `set-cookie` entry appended. Otherwise the message is
  forwarded unchanged.

Modules, one per concern:

- `Wrappers` (`wrappers.dfy`): `Option` and `dict.get`.
- `Signing` (`signing.dfy`): the `URLSafeSerializer`, abstracted as a `Signer`
  record of two total functions. `sign` is `dumps`. `verify` is `loads`, with
  `None` standing for `BadSignature`. The only law assumed of a signer is the
  round trip `verify(sign(s)) == Some(s)` (`RoundTrip`). Lemmas that need it
  take it as a precondition.
- `Asgi` (`asgi.dfy`): the scope, as seen through Starlette's `Request`, and
  ASGI messages. A cookie issued by the middleware is kept as a `Morsel`
  record of attributes inside the header value. It is not rendered text.
- `Cookies` (`cookies.dfy`): the constructor configuration and `_build_cookie`.
- `Middleware` (`middleware.dfy`): the gate `Decide`, the wrapped send
  `WrappedSend`, the stream `ForwardAll`, and one whole call `Handle`.
- `Properties` (`properties.dfy`): lemmas about whole requests.

The downstream application is the sequence of messages it would send.
`Handle` returns either `Raised` or `Completed`. A `Completed` result says
whether the application was invoked and which messages reached the server's
own `send`. The randomness of `secrets.token_urlsafe` is
a parameter `draw: nat -> string`: `draw(i)` is the secret drawn by the i-th
call to the wrapped `send`. The source builds a fresh token on every call.

## Model

| member | source | states |
|---|---|---|
| `Wrappers.Get` | csrf_middleware/middleware.py:46-47 | a lookup yields a value exactly when the key is present, and then the stored value |
| `Signing.GenerateToken` | csrf_middleware/middleware.py:90-91 | under the round-trip law a generated token verifies to the secret it was drawn from |
| `Signing.MatchingTokens` | csrf_middleware/middleware.py:93-99 | two tokens match iff some secret is what both of them verify to; a failed verification on either side gives false rather than an error |
| `Signing.MatchingSymmetric` | csrf_middleware/middleware.py:93-97 | matching does not depend on the order of the two tokens |
| `Signing.MatchingSelf` | csrf_middleware/middleware.py:93-97 | a token matches itself exactly when its signature verifies |
| `Signing.BadSignatureNeverMatches` | csrf_middleware/middleware.py:94-99 | a token that fails verification matches no other token |
| `Signing.DistinctSecretsNeverMatch` | csrf_middleware/middleware.py:95-97 | valid tokens over different secrets do not match |
| `Signing.FreshTokenMatchesItself` | csrf_middleware/middleware.py:90-97 | under the round-trip law a freshly issued token, sent as both cookie and header, matches |
| `Cookies.BuildCookie` | csrf_middleware/middleware.py:77-88 | the cookie has the configured name, and its value verifies to the drawn secret; path, secure, httponly and samesite are the configured ones; a domain is present iff one is configured, and it is that domain |
| `Cookies.DistinctSecretsDistinctCookies` | csrf_middleware/middleware.py:80-91 | under the round-trip law, different drawn secrets give different cookie values |
| `Middleware.Decide` | csrf_middleware/middleware.py:38-58 | only non-`http`/`websocket` scopes bypass the gate; a websocket scope raises when its `Request` is built; an `http` request is rejected iff its method is not one of the four safe methods (exact case) and it lacks a non-empty cookie and a non-empty header that verify to the same secret |
| `Middleware.RejectResponseShape` | csrf_middleware/middleware.py:54-57 | the rejection is a 403 with the fixed body, a `content-length` equal to that body's length, and no `set-cookie` entry |
| `Middleware.WrappedSend` | csrf_middleware/middleware.py:63-75 | only the header list of a message ever changes; with a cookie on the request the message is forwarded unchanged; without one, the original headers are kept in order and exactly one `set-cookie` entry with the built cookie follows them |
| `Middleware.ForwardAll` | csrf_middleware/middleware.py:60-75 | every message sent by the application is forwarded once and in order; the k-th is wrapped with the k-th fresh secret |
| `Middleware.Handle` | csrf_middleware/middleware.py:38-61 | the call raises exactly on websocket scopes; otherwise the application runs iff the scope is unguarded, the method is safe, or the request carries a matching pair. When it does not run, exactly the fixed 403 response is sent; when it runs, as many messages are sent as the application produced |
| `Properties.NonHttpScopeBypasses` | csrf_middleware/middleware.py:39-41 | a non-HTTP scope reaches the application with the original send: the output is the application's messages, untouched |
| `Properties.WebsocketScopeRaises` | csrf_middleware/middleware.py:39-43 | a websocket scope gets past the type test, then raises while its `Request` is built: the application never runs and nothing is sent |
| `Properties.SafeMethodReachesApp` | csrf_middleware/middleware.py:45-61 | an `http` request with a safe method always reaches the application, whatever its cookie and header; each message changes at most in its headers |
| `Properties.MissingCookieIsIssued` | csrf_middleware/middleware.py:60-75 | without a cookie, every sent message ends with one `set-cookie` entry named after the configured cookie; it verifies to that call's fresh secret |
| `Properties.MissingTokenRejected` | csrf_middleware/middleware.py:45-58 | an unsafe method with a missing or empty cookie or header gets the 403, and the application never runs |
| `Properties.UnsafeAllowedIffMatching` | csrf_middleware/middleware.py:49-53 | with both values present, an unsafe method runs the application iff both verify and the decoded secrets are equal |
| `Properties.TamperedTokenRejected` | csrf_middleware/middleware.py:49-58 | a cookie or header that fails verification gets the 403 |
| `Properties.RejectionSetsNoCookie` | csrf_middleware/middleware.py:54-58 | when the application does not run (a rejection or a raise), no `set-cookie` entry is sent |
| `Properties.ForwardedStreamCount` | csrf_middleware/middleware.py:63-75 | over a whole stream, the number of `set-cookie` entries grows by one per message when the request has no cookie, and by none when it has one |
| `Properties.ExistingCookieNeverOverwritten` | csrf_middleware/middleware.py:67-75 | an admitted request that holds a cookie gets back exactly what the application sent: the cookie is never rotated |
| `Properties.IssuedTokenIsAccepted` | tests/test_middleware.py:65-72 | the cookie issued on a GET, stored by the client and echoed in the header, admits a following POST; that response is the application's, unchanged |

## Left out

- Signing internals: the HMAC, base64 encoding and cookie-name salt of
  itsdangerous' `URLSafeSerializer` belong to a library outside this model. A
  signer is any pair of functions. The round-trip law is the only assumption, and
  lemmas that need it state it as a precondition. So the model does not show
  that a token signed for one cookie name fails under another.
- Signer tokens are non-empty: the round-trip law does not imply this.
  Serializer output always contains a separator, so it is never empty. The
  `Properties.IssuedTokenIsAccepted` lemma asks for it of the one token it uses.
- Randomness and entropy of `secrets.token_urlsafe(128)`: the drawn secrets
  are the parameter `draw`. Uniqueness across requests is a probability claim,
  so the model only shows that distinct secrets give distinct tokens.
- Signing.MatchingTokens: models `secrets.compare_digest` as plain equality. Its
  constant-time behaviour is a timing claim. Its `TypeError` on non-ASCII strings
  would need a validly signed non-ASCII payload, which only the key holder can make.
- `SimpleCookie.output` rendering and quoting: the issued cookie stays a
  record of attributes.
- Starlette's `Request`, its case-insensitive header lookup, cookie parsing and
  `MutableHeaders`: the scope carries already-parsed cookie and header maps.
  Header values are read as text; the latin-1 byte encoding is not modelled.
- Websocket scopes: the source raises on every websocket scope before the gate.
  Line 43 builds Starlette's `Request`, which asserts an `http` scope, so the
  `"websocket"` entry of the type test at line 39 never leads to the gate or
  to cookie injection. The model records this as the `Raised` outcome. The
  kind of exception and how the server reports it are not modelled. Starlette
  itself is not part of this model.
- The async plumbing, `receive`, and the byte encoding of the `PlainTextResponse`
  body: the application is the sequence of messages it sends. The rejection's
  headers are fixed values.
- The test harness (httpx, asgi_lifespan, Starlette routing) is not modelled;
  `Properties.IssuedTokenIsAccepted` follows `test_valid_post`.
