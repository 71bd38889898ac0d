/**
 The token codec of the middleware: an `URLSafeSerializer` keyed by the
 server secret and salted with the cookie name. Its cryptography is not part
 of this model; a `Signer` is any pair of total functions, and the only law a
 well-behaved signer is assumed to satisfy is the round trip
 `verify(sign(s)) == Some(s)`.
 */
module Signing {
  import opened Wrappers

  /** `sign` is `serializer.dumps`; `verify` is `serializer.loads`, with
      `None` standing for a raised `BadSignature`. */
  datatype Signer = Signer(sign: string -> string, verify: string -> Option<string>)

  /** The round-trip law of the serializer: every signed secret decodes back to itself. */
  ghost predicate RoundTrip(sg: Signer) {
    forall s :: sg.verify(sg.sign(s)) == Some(s)
  }

  /** Token `t` carries a valid signature over the secret `s`. */
  ghost predicate DecodesTo(sg: Signer, t: string, s: string) {
    sg.verify(t) == Some(s)
  }

  /** Reference reading of "matching": both tokens verify, to one and the same secret. */
  ghost predicate SameSecret(sg: Signer, t1: string, t2: string) {
    exists s :: DecodesTo(sg, t1, s) && DecodesTo(sg, t2, s)
  }

  /** `_generate_csrf_token`: sign a freshly drawn secret. The randomness of
      `secrets.token_urlsafe` is the parameter `secret`. */
  function GenerateToken(sg: Signer, secret: string): (t: string)
    ensures RoundTrip(sg) ==> DecodesTo(sg, t, secret)
  {
    sg.sign(secret)
  }

  /** `_matching_tokens`: decode both tokens and compare the secrets.
      A bad signature on either side yields `false`, never a failure.
      `compare_digest` is modelled as equality. */
  function MatchingTokens(sg: Signer, t1: string, t2: string): (r: bool)
    ensures r <==> SameSecret(sg, t1, t2)
  {
    match sg.verify(t1)
    case None => false
    case Some(d1) =>
      match sg.verify(t2)
      case None => false
      case Some(d2) =>
        assert DecodesTo(sg, t1, d1) && DecodesTo(sg, t2, d2);
        d1 == d2
  }

  /** Matching does not depend on which token came from the cookie. */
  lemma MatchingSymmetric(sg: Signer, t1: string, t2: string)
    ensures MatchingTokens(sg, t1, t2) == MatchingTokens(sg, t2, t1)
  {
  }

  /** A token matches itself exactly when its signature verifies. */
  lemma MatchingSelf(sg: Signer, t: string)
    ensures MatchingTokens(sg, t, t) <==> sg.verify(t).Some?
  {
  }

  /** A token that fails verification matches nothing, whatever the other token is. */
  lemma BadSignatureNeverMatches(sg: Signer, t1: string, t2: string)
    requires sg.verify(t1) == None || sg.verify(t2) == None
    ensures !MatchingTokens(sg, t1, t2)
  {
  }

  /** Two valid tokens over different secrets do not match. */
  lemma DistinctSecretsNeverMatch(sg: Signer, t1: string, t2: string, s1: string, s2: string)
    requires DecodesTo(sg, t1, s1) && DecodesTo(sg, t2, s2) && s1 != s2
    ensures !MatchingTokens(sg, t1, t2)
  {
  }

  /** Under the round-trip law a freshly issued token matches itself. */
  lemma FreshTokenMatchesItself(sg: Signer, secret: string)
    requires RoundTrip(sg)
    ensures MatchingTokens(sg, GenerateToken(sg, secret), GenerateToken(sg, secret))
  {
  }
}
