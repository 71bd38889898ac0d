/**
 Construction-time configuration of the middleware and the cookie it issues
 (`__init__` and `_build_cookie`).
 */
module Cookies {
  import opened Wrappers
  import opened Asgi
  import opened Signing

  /** The keyword arguments of `CSRFMiddleware.__init__`, less the signing
      key, which lives inside the `Signer`. */
  datatype Config = Config(
    cookieName: string,
    cookieDomain: Option<string>,
    cookiePath: string,
    cookieSecure: bool,
    cookieHttponly: bool,
    cookieSamesite: string,
    headerName: string)

  /** `_build_cookie`: one morsel under the configured name, carrying a token
      signed over `secret`, with every attribute copied from the configuration
      and a domain only when one is configured. */
  function BuildCookie(cfg: Config, sg: Signer, secret: string): (c: Morsel)
    ensures c.name == cfg.cookieName
    ensures RoundTrip(sg) ==> DecodesTo(sg, c.value, secret)
    ensures c.path == cfg.cookiePath && c.secure == cfg.cookieSecure
    ensures c.httponly == cfg.cookieHttponly && c.samesite == cfg.cookieSamesite
    ensures c.domain.Some? <==> cfg.cookieDomain.Some?
    ensures c.domain.Some? ==> c.domain.value == cfg.cookieDomain.value
  {
    var base := Morsel(cfg.cookieName, GenerateToken(sg, secret), cfg.cookiePath,
                       cfg.cookieSecure, cfg.cookieHttponly, cfg.cookieSamesite, None);
    if cfg.cookieDomain.Some? then base.(domain := Some(cfg.cookieDomain.value)) else base
  }

  /** Two calls with different fresh secrets issue cookies whose values differ
      under the round-trip law: tokens are never reused across calls. */
  lemma DistinctSecretsDistinctCookies(cfg: Config, sg: Signer, s1: string, s2: string)
    requires RoundTrip(sg) && s1 != s2
    ensures BuildCookie(cfg, sg, s1).value != BuildCookie(cfg, sg, s2).value
  {
  }
}
