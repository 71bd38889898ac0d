/**
 Properties of the whole middleware: the gate's exemptions and rejections,
 the cookie it issues across a response stream, and the issue-then-submit
 round trip of the double-submit pattern.
 */
module Properties {
  import opened Wrappers
  import opened Asgi
  import opened Signing
  import opened Cookies
  import opened Middleware

  /** Lifespan and other non-HTTP scopes reach the application with the
      original `send`: nothing is checked and nothing is injected. */
  lemma NonHttpScopeBypasses(cfg: Config, sg: Signer, scope: Scope, app: seq<Message>, draw: nat -> string)
    requires !IsGuardedScope(scope.scopeType)
    ensures Handle(cfg, sg, scope, app, draw) == Completed(true, app)
  {
  }

  /** A websocket scope passes the first test of `__call__` but fails the
      `http`-only assertion of Starlette's `Request`: the call raises, the
      application never runs and nothing is sent. */
  lemma WebsocketScopeRaises(cfg: Config, sg: Signer, scope: Scope, app: seq<Message>, draw: nat -> string)
    requires scope.scopeType == "websocket"
    ensures Handle(cfg, sg, scope, app, draw) == Raised
    ensures !Handle(cfg, sg, scope, app, draw).AppRan()
    ensures Handle(cfg, sg, scope, app, draw).Sent() == []
  {
  }

  /** An `http` request with a safe method always reaches the application,
      whatever cookie and header it carries; each message it sends is
      forwarded once, in order, changed at most in its header list. */
  lemma SafeMethodReachesApp(cfg: Config, sg: Signer, scope: Scope, app: seq<Message>, draw: nat -> string)
    requires IsRequestScope(scope.scopeType) && IsSafeMethod(scope.verb)
    ensures var x := Handle(cfg, sg, scope, app, draw);
      && x.Completed? && x.invoked
      && |x.sent| == |app|
      && forall k :: 0 <= k < |app| ==> x.sent[k].(headers := app[k].headers) == app[k]
  {
  }

  /** An `http` request without a cookie gets, on every message it sends, one
      `set-cookie` entry under the configured name, signed over that call's
      fresh secret. */
  lemma MissingCookieIsIssued(cfg: Config, sg: Signer, scope: Scope, app: seq<Message>, draw: nat -> string, k: nat)
    requires IsRequestScope(scope.scopeType) && IsSafeMethod(scope.verb)
    requires !Truthy(CsrfCookie(cfg, scope))
    requires RoundTrip(sg)
    requires k < |app|
    ensures var hs := HeaderList(Handle(cfg, sg, scope, app, draw).sent[k]);
      && |hs| == |HeaderList(app[k])| + 1
      && hs[|hs| - 1].name == "set-cookie"
      && hs[|hs| - 1].value.Issued?
      && hs[|hs| - 1].value.morsel.name == cfg.cookieName
      && DecodesTo(sg, hs[|hs| - 1].value.morsel.value, draw(k))
  {
  }

  /** An unsafe method without a non-empty cookie and a non-empty header is
      refused before the application runs. */
  lemma MissingTokenRejected(cfg: Config, sg: Signer, scope: Scope, app: seq<Message>, draw: nat -> string)
    requires IsRequestScope(scope.scopeType) && !IsSafeMethod(scope.verb)
    requires !Truthy(CsrfCookie(cfg, scope)) || !Truthy(SubmittedToken(cfg, scope))
    ensures Handle(cfg, sg, scope, app, draw) == Completed(false, RejectResponse)
  {
  }

  /** With both values present, an unsafe method passes exactly when both
      verify and decode to equal secrets. */
  lemma UnsafeAllowedIffMatching(cfg: Config, sg: Signer, scope: Scope, app: seq<Message>, draw: nat -> string)
    requires IsRequestScope(scope.scopeType) && !IsSafeMethod(scope.verb)
    requires Truthy(CsrfCookie(cfg, scope)) && Truthy(SubmittedToken(cfg, scope))
    ensures var c := sg.verify(CsrfCookie(cfg, scope).value);
      var h := sg.verify(SubmittedToken(cfg, scope).value);
      var x := Handle(cfg, sg, scope, app, draw);
      x.Completed? && (x.invoked <==> c.Some? && c == h)
  {
  }

  /** A tampered cookie or header (one that fails verification) is refused. */
  lemma TamperedTokenRejected(cfg: Config, sg: Signer, scope: Scope, app: seq<Message>, draw: nat -> string)
    requires IsRequestScope(scope.scopeType) && !IsSafeMethod(scope.verb)
    requires
      || (Truthy(CsrfCookie(cfg, scope)) && sg.verify(CsrfCookie(cfg, scope).value) == None)
      || (Truthy(SubmittedToken(cfg, scope)) && sg.verify(SubmittedToken(cfg, scope).value) == None)
    ensures Handle(cfg, sg, scope, app, draw) == Completed(false, RejectResponse)
  {
  }

  /** A rejected request's response goes out through the original `send`:
      it never carries a cookie. */
  lemma RejectionSetsNoCookie(cfg: Config, sg: Signer, scope: Scope, app: seq<Message>, draw: nat -> string)
    requires !Handle(cfg, sg, scope, app, draw).AppRan()
    ensures StreamSetCookieCount(Handle(cfg, sg, scope, app, draw).Sent()) == 0
  {
    RejectResponseShape();
  }

  /** Across a whole stream, the wrapped `send` adds one `set-cookie` entry per
      message when the request has no cookie, and none when it has one. */
  lemma {:induction false} ForwardedStreamCount(cfg: Config, sg: Signer, scope: Scope, msgs: seq<Message>,
                                                draw: nat -> string, calls: nat)
    ensures StreamSetCookieCount(ForwardAll(cfg, sg, scope, msgs, draw, calls))
         == StreamSetCookieCount(msgs) + (if Truthy(CsrfCookie(cfg, scope)) then 0 else |msgs|)
    decreases |msgs|
  {
    if msgs != [] {
      var out := ForwardAll(cfg, sg, scope, msgs, draw, calls);
      assert out[1..] == ForwardAll(cfg, sg, scope, msgs[1..], draw, calls + 1);
      ForwardedStreamCount(cfg, sg, scope, msgs[1..], draw, calls + 1);
    }
  }

  /** An accepted request that already holds a cookie gets back exactly what
      the application sent: the cookie is never overwritten or rotated. */
  lemma ExistingCookieNeverOverwritten(cfg: Config, sg: Signer, scope: Scope, app: seq<Message>, draw: nat -> string)
    requires Truthy(CsrfCookie(cfg, scope))
    requires Handle(cfg, sg, scope, app, draw).AppRan()
    ensures Handle(cfg, sg, scope, app, draw).Sent() == app
  {
  }

  /** The double-submit round trip. A GET without a cookie is answered with a
      cookie; a browser that stores it and echoes its value in the configured
      header then passes the gate on an unsafe method, and that response
      carries no new cookie. */
  lemma IssuedTokenIsAccepted(cfg: Config, sg: Signer, get: Scope, app: seq<Message>, draw: nat -> string,
                              post: Scope, app': seq<Message>, draw': nat -> string)
    requires RoundTrip(sg)
    requires IsRequestScope(get.scopeType) && get.verb == "GET" && !Truthy(CsrfCookie(cfg, get))
    requires |app| > 0 && sg.sign(draw(0)) != ""
    requires IsRequestScope(post.scopeType) && post.verb == "POST"
    requires var hs := HeaderList(Handle(cfg, sg, get, app, draw).sent[0]);
      var issued := hs[|hs| - 1].value.morsel;
      && post.cookies == get.cookies[cfg.cookieName := issued.value]
      && post.headers == get.headers[cfg.headerName := issued.value]
    ensures Handle(cfg, sg, post, app', draw') == Completed(true, app')
  {
  }
}
