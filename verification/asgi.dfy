/**
 The slice of the ASGI protocol the middleware touches: the connection scope
 as seen through Starlette's `Request`, and the messages an application sends.
 */
module Asgi {
  import opened Wrappers

  /** The attributes of one `Set-Cookie` entry (a `SimpleCookie` morsel),
      kept as a record rather than rendered text. */
  datatype Morsel = Morsel(
    name: string,
    value: string,
    path: string,
    secure: bool,
    httponly: bool,
    samesite: string,
    domain: Option<string>)

  /** A header value is either raw text or a cookie issued by the middleware. */
  datatype HeaderValue = Raw(text: string) | Issued(morsel: Morsel)

  datatype Header = Header(name: string, value: HeaderValue)

  /** One ASGI message. `headers` is `None` when the message dict has no
      `"headers"` key (body messages usually have none). */
  datatype Message = Message(
    kind: string,
    status: Option<int>,
    headers: Option<seq<Header>>,
    body: string,
    moreBody: bool)

  /** The connection scope: its `"type"`, the request method (`verb`), and the cookie
      and header lookups Starlette's `Request` provides. */
  datatype Scope = Scope(
    scopeType: string,
    verb: string,
    cookies: map<string, string>,
    headers: map<string, string>)

  /** The header name `MutableHeaders.append` uses for cookies (lower-cased). */
  const SetCookieName: string := "set-cookie"

  /** The header list of a message, an absent list read as empty. */
  function HeaderList(m: Message): seq<Header> {
    if m.headers.Some? then m.headers.value else []
  }

  /** Number of `set-cookie` entries in a header list. */
  function SetCookieCount(hs: seq<Header>): nat {
    if hs == [] then 0
    else (if hs[0].name == SetCookieName then 1 else 0) + SetCookieCount(hs[1..])
  }

  /** Number of `set-cookie` entries over a whole stream of messages. */
  function StreamSetCookieCount(ms: seq<Message>): nat {
    if ms == [] then 0
    else SetCookieCount(HeaderList(ms[0])) + StreamSetCookieCount(ms[1..])
  }

  /** Counting distributes over concatenation of header lists. */
  lemma {:induction false} SetCookieCountAppend(a: seq<Header>, b: seq<Header>)
    ensures SetCookieCount(a + b) == SetCookieCount(a) + SetCookieCount(b)
  {
    if a == [] {
      assert a + b == b;
    } else {
      assert (a + b)[1..] == a[1..] + b;
      SetCookieCountAppend(a[1..], b);
    }
  }
}
