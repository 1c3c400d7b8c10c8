/** The HTTP gate in front of the protected routes (`verifyToken`). */
module AuthMiddleware {
  import opened Wrappers
  import opened Jwt

  /**
   * What the gate does with a request: answer it with an error status and
   * message, or attach the decoded claims as `req.user` and call `next()`.
   * One value per request, so a request is never both answered and passed on.
   */
  datatype GateOutcome = Reject(status: int, message: string) | Next(user: Claims)

  /**
   * `verifyToken`: no access-token cookie is 401 "Unauthorized"; a token that
   * fails verification under the access secret is 403 "Token Expired";
   * otherwise the request continues with the token's claims.
   */
  function VerifyToken(cookies: map<string, Token>, accessSecret: string, nowMs: nat): (o: GateOutcome)
    ensures o == Reject(401, "Unauthorized") <==> CookieValue(cookies, ACCESS_COOKIE).None?
    ensures o == Reject(403, "Token Expired")
        <==> CookieValue(cookies, ACCESS_COOKIE).Some?
             && Verify(cookies[ACCESS_COOKIE], accessSecret, nowMs).None?
    ensures o.Next? ==> CookieValue(cookies, ACCESS_COOKIE).Some?
                        && Verify(cookies[ACCESS_COOKIE], accessSecret, nowMs) == Some(o.user)
    ensures o.Reject? ==> o == Reject(401, "Unauthorized") || o == Reject(403, "Token Expired")
  {
    match CookieValue(cookies, ACCESS_COOKIE)
    case None => Reject(401, "Unauthorized")
    case Some(token) =>
      match Verify(token, accessSecret, nowMs)
      case None => Reject(403, "Token Expired")
      case Some(user) => Next(user)
  }

  /**
   * A refresh token presented as the access cookie is refused with 403
   * whenever the two secrets differ: it was never signed with the access secret.
   */
  lemma RefreshTokenIsNotAnAccessToken(who: Identity, secrets: Secrets, signedAt: nat, nowMs: nat,
                                       cookies: map<string, Token>)
    requires secrets.access != secrets.refresh
    requires ACCESS_COOKIE in cookies
    requires cookies[ACCESS_COOKIE] == Sign(who, secrets.refresh, REFRESH_TTL_SECONDS, signedAt)
    ensures VerifyToken(cookies, secrets.access, nowMs) == Reject(403, "Token Expired")
  {
    WrongSecretFails(who, secrets.refresh, secrets.access, REFRESH_TTL_SECONDS, signedAt, nowMs);
  }
}
