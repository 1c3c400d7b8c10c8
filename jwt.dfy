/**
 * Signed tokens and the cookies that carry them.
 *
 * Signing and verification are idealised: a token minted by `Sign` remembers
 * the secret it was signed with, and `Verify` accepts it exactly when the
 * secret matches and the token has not expired. Any other cookie string is
 * `Opaque` and never verifies. Clocks are read as milliseconds (`Date.now()`);
 * token times are whole seconds, as jsonwebtoken stores them.
 */
module Jwt {
  import opened Wrappers

  /** The payload the server signs: `{ id, name }`. */
  datatype Identity = Identity(id: string, name: string)

  /** What verification hands back: the signed payload plus the `iat` and `exp` claims (seconds). */
  datatype Claims = Claims(id: string, name: string, iat: int, exp: int)

  /** A cookie value as the server receives it. */
  datatype Token = Signed(claims: Claims, key: string) | Opaque(raw: string)

  /** The two signing secrets the server is configured with. */
  datatype Secrets = Secrets(access: string, refresh: string)

  /** `expiresIn: "15m"` and `expiresIn: "7d"`, in seconds. */
  const ACCESS_TTL_SECONDS: nat := 15 * 60
  const REFRESH_TTL_SECONDS: nat := 7 * 24 * 60 * 60

  /** jsonwebtoken's clock: `Math.floor(Date.now() / 1000)`. */
  function Seconds(nowMs: nat): nat {
    nowMs / 1000
  }

  /** `jwt.sign(who, secret, { expiresIn: ttl })` at time `nowMs`. */
  function Sign(who: Identity, secret: string, ttlSeconds: nat, nowMs: nat): Token {
    Signed(Claims(who.id, who.name, Seconds(nowMs), Seconds(nowMs) + ttlSeconds), secret)
  }

  /**
   * `jwt.verify(token, secret)`: the decoded claims, or `None` for a bad
   * signature, a malformed token or an expired one (expired once the clock in
   * seconds reaches `exp`).
   */
  function Verify(token: Token, secret: string, nowMs: nat): (r: Option<Claims>)
    ensures r.Some? ==> token.Signed? && r.value == token.claims
  {
    match token
    case Signed(claims, key) =>
      if key == secret && Seconds(nowMs) < claims.exp then Some(claims) else None
    case Opaque(_) => None
  }

  /** A freshly signed token verifies under its own secret, with the signer's id and name, until its lifetime runs out. */
  lemma SignThenVerify(who: Identity, secret: string, ttlSeconds: nat, signedAt: nat, nowMs: nat)
    ensures var r := Verify(Sign(who, secret, ttlSeconds, signedAt), secret, nowMs);
            && (r.Some? <==> Seconds(nowMs) < Seconds(signedAt) + ttlSeconds)
            && (r.Some? ==> r.value.id == who.id && r.value.name == who.name
                            && r.value.exp - r.value.iat == ttlSeconds)
  {
  }

  /** A token never verifies under a secret other than the one that signed it. */
  lemma WrongSecretFails(who: Identity, signer: string, verifier: string, ttlSeconds: nat, signedAt: nat, nowMs: nat)
    requires signer != verifier
    ensures Verify(Sign(who, signer, ttlSeconds, signedAt), verifier, nowMs) == None
  {
  }

  /** A cookie string that is present and non-empty (JavaScript truthiness). */
  predicate Present(t: Token) {
    !(t.Opaque? && t.raw == "")
  }

  /** The value of cookie `name` in a parsed cookie jar, `None` when absent or empty. */
  function CookieValue(jar: map<string, Token>, name: string): (r: Option<Token>)
    ensures r.Some? <==> name in jar && Present(jar[name])
    ensures r.Some? ==> r.value == jar[name]
  {
    if name in jar && Present(jar[name]) then Some(jar[name]) else None
  }

  const ACCESS_COOKIE: string := "accessToken"
  const REFRESH_COOKIE: string := "refreshToken"
}
