/**
 `CSRFMiddleware.__call__` and the wrapped `send`: the request gate and the
 injection of the CSRF cookie into outbound messages. The downstream
 application is modelled by the sequence of messages it would send, and the
 fresh secrets `secrets.token_urlsafe` would draw by `draw(i)`, the secret of
 the i-th call to the wrapped `send`.
 */
module Middleware {
  import opened Wrappers
  import opened Asgi
  import opened Signing
  import opened Cookies

  /** What `__call__` does with a connection: hand it on with the original
      `send`, hand it on with the wrapped `send`, answer 403 itself, or raise
      while building Starlette's `Request` (which accepts only `http` scopes). */
  datatype Decision = PassThrough | AllowWrapped | Reject | Raise

  /** The observable result of one `__call__`: either it completed, telling
      whether the downstream application ran and which messages reached the
      server's `send`, or it raised before sending anything. */
  datatype Exchange = Completed(invoked: bool, sent: seq<Message>) | Raised {

    /** Whether the downstream application ran. */
    predicate AppRan() {
      Completed? && invoked
    }

    /** The messages that reached the server's `send`; none when it raised. */
    function Sent(): seq<Message> {
      if Completed? then sent else []
    }
  }

  /** Scope types the first test of `__call__` lets into the middleware. */
  predicate IsGuardedScope(t: string) {
    t == "http" || t == "websocket"
  }

  /** Scope types Starlette's `Request` constructor accepts; any other guarded
      scope (a websocket) fails its assertion before the gate is reached. */
  predicate IsRequestScope(t: string) {
    t == "http"
  }

  /** The exempt methods, matched case-sensitively. */
  predicate IsSafeMethod(m: string) {
    m == "GET" || m == "HEAD" || m == "OPTIONS" || m == "TRACE"
  }

  /** Python truthiness of a looked-up string: present and not empty. */
  predicate Truthy(o: Option<string>) {
    o.Some? && o.value != ""
  }

  /** `request.cookies.get(self.cookie_name)`. */
  function CsrfCookie(cfg: Config, scope: Scope): Option<string> {
    Get(scope.cookies, cfg.cookieName)
  }

  /** `request.headers.get(self.header_name)`. */
  function SubmittedToken(cfg: Config, scope: Scope): Option<string> {
    Get(scope.headers, cfg.headerName)
  }

  /** Reference statement of the double-submit check: a non-empty cookie and a
      non-empty header that both verify to one and the same secret. */
  ghost predicate CarriesMatchingPair(cfg: Config, sg: Signer, scope: Scope) {
    && Truthy(CsrfCookie(cfg, scope))
    && Truthy(SubmittedToken(cfg, scope))
    && SameSecret(sg, CsrfCookie(cfg, scope).value, SubmittedToken(cfg, scope).value)
  }

  /** The gate of `__call__`. Unguarded scopes pass through; a websocket scope
      raises when `Request(scope)` is built; an `http` request is rejected
      exactly when its method is unsafe and it does not carry a matching
      cookie/header pair. */
  function Decide(cfg: Config, sg: Signer, scope: Scope): (d: Decision)
    ensures d == PassThrough <==> !IsGuardedScope(scope.scopeType)
    ensures d == Raise <==> IsGuardedScope(scope.scopeType) && !IsRequestScope(scope.scopeType)
    ensures d == Reject <==>
      IsRequestScope(scope.scopeType) && !IsSafeMethod(scope.verb)
      && !CarriesMatchingPair(cfg, sg, scope)
  {
    if !IsGuardedScope(scope.scopeType) then PassThrough
    else if !IsRequestScope(scope.scopeType) then Raise
    else if IsSafeMethod(scope.verb) then AllowWrapped
    else
      var cookie := CsrfCookie(cfg, scope);
      var submitted := SubmittedToken(cfg, scope);
      if !Truthy(cookie) || !Truthy(submitted) || !MatchingTokens(sg, cookie.value, submitted.value)
      then Reject
      else AllowWrapped
  }

  const RejectBody: string := "CSRF verification failed"

  /** The messages `PlainTextResponse("CSRF verification failed", status_code=403)`
      sends: a start message with status 403 and plain-text headers, then the body. */
  const RejectResponse: seq<Message> := [
    Message("http.response.start", Some(403),
            Some([Header("content-length", Raw("24")),
                  Header("content-type", Raw("text/plain; charset=utf-8"))]),
            "", false),
    Message("http.response.body", None, None, RejectBody, false)
  ]

  /** The fixed rejection is a 403 carrying the fixed body, a content length
      that agrees with that body, and no cookie. */
  lemma RejectResponseShape()
    ensures |RejectResponse| == 2
    ensures RejectResponse[0].status == Some(403)
    ensures RejectResponse[1].body == RejectBody
    ensures HeaderList(RejectResponse[0])[0] == Header("content-length", Raw("24"))
    ensures |RejectResponse[1].body| == 24
    ensures StreamSetCookieCount(RejectResponse) == 0
  {
    var hs := HeaderList(RejectResponse[0]);
    assert hs[1..][1..] == [];
    assert SetCookieCount(hs) == 0;
    assert RejectResponse[1..][1..] == [];
    assert StreamSetCookieCount(RejectResponse[1..]) == 0;
  }

  /** The header the wrapped `send` appends: a cookie built over `secret`. */
  function CookieHeader(cfg: Config, sg: Signer, secret: string): Header {
    Header(SetCookieName, Issued(BuildCookie(cfg, sg, secret)))
  }

  /** The wrapped `send`, applied to one message. Without a (non-empty)
      request cookie the message leaves with exactly one `set-cookie` entry
      appended after its original headers; with one it leaves untouched.
      Apart from the header list nothing in the message ever changes. */
  function WrappedSend(cfg: Config, sg: Signer, scope: Scope, msg: Message, secret: string): (out: Message)
    ensures out.(headers := msg.headers) == msg
    ensures Truthy(CsrfCookie(cfg, scope)) ==> out == msg
    ensures !Truthy(CsrfCookie(cfg, scope)) ==>
      && out.headers.Some?
      && |HeaderList(out)| == |HeaderList(msg)| + 1
      && HeaderList(out)[..|HeaderList(msg)|] == HeaderList(msg)
      && HeaderList(out)[|HeaderList(msg)|] == CookieHeader(cfg, sg, secret)
      && SetCookieCount(HeaderList(out)) == SetCookieCount(HeaderList(msg)) + 1
  {
    if Truthy(CsrfCookie(cfg, scope)) then msg
    else
      var appended := [CookieHeader(cfg, sg, secret)];
      SetCookieCountAppend(HeaderList(msg), appended);
      assert SetCookieCount(appended) == 1 by {
        assert appended[1..] == [];
      }
      msg.(headers := Some(HeaderList(msg) + appended))
  }

  /** Every message the application sends through the wrapped `send`, in order;
      `calls` counts the calls made before `msgs[0]`. Each message is forwarded
      exactly once, the k-th with the k-th fresh secret. */
  function ForwardAll(cfg: Config, sg: Signer, scope: Scope, msgs: seq<Message>,
                      draw: nat -> string, calls: nat): (out: seq<Message>)
    ensures |out| == |msgs|
    ensures forall k :: 0 <= k < |msgs| ==>
      out[k] == WrappedSend(cfg, sg, scope, msgs[k], draw(calls + k))
    decreases |msgs|
  {
    if msgs == [] then []
    else [WrappedSend(cfg, sg, scope, msgs[0], draw(calls))]
         + ForwardAll(cfg, sg, scope, msgs[1..], draw, calls + 1)
  }

  /** One whole `__call__`. It raises exactly on websocket scopes. Otherwise
      the application runs exactly when the scope is unguarded, the method is
      safe or the request carries a matching pair; a request that does not
      run it gets the fixed 403 and nothing else. */
  function Handle(cfg: Config, sg: Signer, scope: Scope, app: seq<Message>,
                  draw: nat -> string): (x: Exchange)
    ensures x.Raised? <==> IsGuardedScope(scope.scopeType) && !IsRequestScope(scope.scopeType)
    ensures x.Completed? ==> (x.invoked <==>
      !IsGuardedScope(scope.scopeType) || IsSafeMethod(scope.verb)
      || CarriesMatchingPair(cfg, sg, scope))
    ensures x.Completed? && !x.invoked ==> x.sent == RejectResponse
    ensures x.Completed? && x.invoked ==> |x.sent| == |app|
  {
    match Decide(cfg, sg, scope)
    case PassThrough => Completed(true, app)
    case Raise => Raised
    case Reject => Completed(false, RejectResponse)
    case AllowWrapped => Completed(true, ForwardAll(cfg, sg, scope, app, draw, 0))
  }
}
