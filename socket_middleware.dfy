/** The handshake gate of the real-time connection (`socketAuth`). */
module SocketMiddleware {
  import opened Wrappers
  import opened Jwt
  import AuthMiddleware

  /** The connection is refused with an error message, or admitted with `socket.user` set to the claims. */
  datatype HandshakeOutcome = Refuse(reason: string) | Admit(user: Claims)

  /**
   * `cookie.parse`: the name/value pairs of a `Cookie` header, in order. When
   * a name occurs more than once the first occurrence is kept.
   */
  function ParseCookies(pairs: seq<(string, Token)>): (jar: map<string, Token>)
    ensures jar.Keys == set i | 0 <= i < |pairs| :: pairs[i].0
  {
    if pairs == [] then map[] else ParseCookies(pairs[1..])[pairs[0].0 := pairs[0].1]
  }

  /** `cookie.parse` keeps the first occurrence of each name. */
  lemma {:induction false} ParseKeepsFirst(pairs: seq<(string, Token)>, i: nat)
    requires i < |pairs|
    requires forall j :: 0 <= j < i ==> pairs[j].0 != pairs[i].0
    ensures pairs[i].0 in ParseCookies(pairs) && ParseCookies(pairs)[pairs[i].0] == pairs[i].1
  {
    if i > 0 {
      ParseKeepsFirst(pairs[1..], i - 1);
    }
  }

  /**
   * `socketAuth`: `header` is the handshake's `Cookie` header as name/value
   * pairs, `None` when the header is missing or empty. A missing header or a
   * missing `accessToken` refuses with "Authentication error"; a token failing
   * verification refuses with "Token expired"; otherwise the connection is
   * admitted with the decoded claims, and only then.
   */
  function SocketAuth(header: Option<seq<(string, Token)>>, accessSecret: string, nowMs: nat): (o: HandshakeOutcome)
    ensures header.None? ==> o == Refuse("Authentication error")
    ensures header.Some? ==>
      var jar := ParseCookies(header.value);
      && (o == Refuse("Authentication error") <==> CookieValue(jar, ACCESS_COOKIE).None?)
      && (o == Refuse("Token expired") <==>
            CookieValue(jar, ACCESS_COOKIE).Some? && Verify(jar[ACCESS_COOKIE], accessSecret, nowMs).None?)
      && (o.Admit? ==> CookieValue(jar, ACCESS_COOKIE).Some?
                       && Verify(jar[ACCESS_COOKIE], accessSecret, nowMs) == Some(o.user))
    ensures o.Refuse? ==> o.reason == "Authentication error" || o.reason == "Token expired"
  {
    match header
    case None => Refuse("Authentication error")
    case Some(pairs) =>
      var cookies := ParseCookies(pairs);
      match CookieValue(cookies, ACCESS_COOKIE)
      case None => Refuse("Authentication error")
      case Some(token) =>
        match Verify(token, accessSecret, nowMs)
        case None => Refuse("Token expired")
        case Some(decoded) => Admit(decoded)
  }

  /**
   * The two gates agree on the same cookies: the handshake admits exactly
   * when the HTTP gate passes (with the same claims); "Authentication error"
   * is the HTTP 401 and "Token expired" the HTTP 403.
   */
  lemma GatesAgree(pairs: seq<(string, Token)>, accessSecret: string, nowMs: nat)
    ensures var http := AuthMiddleware.VerifyToken(ParseCookies(pairs), accessSecret, nowMs);
            var ws := SocketAuth(Some(pairs), accessSecret, nowMs);
            && (ws.Admit? <==> http.Next?)
            && (ws.Admit? ==> ws.user == http.user)
            && (ws == Refuse("Authentication error") <==> http.Reject? && http.status == 401)
            && (ws == Refuse("Token expired") <==> http.Reject? && http.status == 403)
  {
  }
}
