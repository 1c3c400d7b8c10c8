/**
 * The `/auth` routes: login, refresh and logout write status, cookies and a
 * JSON body into the response one step at a time; `/me`, `/users` and
 * `/messages/:room` sit behind the access-token gate.
 *
 * Password checking is the parameter `passwordMatches` (bcrypt's compare);
 * the user collection is a sequence searched in order.
 */
module AuthRoutes {
  import opened Wrappers
  import opened Jwt
  import opened MessageModel
  import AuthMiddleware
  import HistoryQuery

  datatype User = User(id: string, username: string, passwordHash: string)

  /** A user as `/users` projects it: `select("username _id")`. */
  datatype PublicUser = PublicUser(id: string, username: string)

  /** JSON response bodies. */
  datatype Body =
    | Text(text: string)                     // a JSON string
    | Profile(id: string, username: string)  // `{ id, username }`
    | Notice(message: string)                // `{ message }`
    | UserList(users: seq<PublicUser>)
    | MessageList(messages: seq<Message>)

  datatype CookieOptions = CookieOptions(httpOnly: bool, secure: bool, sameSite: string)

  /** The options every token cookie is set with. */
  const COOKIE_OPTIONS: CookieOptions := CookieOptions(true, false, "Lax")

  /** Cookie lifetimes, in milliseconds. */
  const ACCESS_COOKIE_MAX_AGE_MS: nat := 15 * 60 * 1000
  const REFRESH_COOKIE_MAX_AGE_MS: nat := 7 * 24 * 60 * 60 * 1000

  /** One `Set-Cookie` the response carries. */
  datatype CookieOp =
    | SetCookie(name: string, value: Token, maxAgeMs: nat, options: CookieOptions)
    | ClearCookie(name: string)

  /** A finished response. */
  datatype Reply = Reply(status: int, cookies: seq<CookieOp>, body: Body)

  const INVALID_CREDENTIALS: Reply := Reply(400, [], Text("Invalid Credentials"))

  /** The Express response object as the login, refresh and logout handlers drive it. */
  class Response {
    var status: int
    var cookieOps: seq<CookieOp>
    var body: Option<Body>

    constructor ()
      ensures Fresh()
    {
      status, cookieOps, body := 200, [], None;
    }

    /** Nothing written yet. */
    predicate Fresh()
      reads this
    {
      status == 200 && cookieOps == [] && body.None?
    }

    /** What was sent, once a body has been written. */
    function Sent(): Option<Reply>
      reads this
    {
      if body.Some? then Some(Reply(status, cookieOps, body.value)) else None
    }

    /** `res.status(code)`. */
    method Status(code: int)
      modifies this
      ensures status == code && cookieOps == old(cookieOps) && body == old(body)
    {
      status := code;
    }

    /** `res.cookie(name, value, { ...options, maxAge })`. */
    method Cookie(name: string, value: Token, options: CookieOptions, maxAgeMs: nat)
      modifies this
      ensures cookieOps == old(cookieOps) + [SetCookie(name, value, maxAgeMs, options)]
      ensures status == old(status) && body == old(body)
    {
      cookieOps := cookieOps + [SetCookie(name, value, maxAgeMs, options)];
    }

    /** `res.clearCookie(name)`. */
    method Clear(name: string)
      modifies this
      ensures cookieOps == old(cookieOps) + [ClearCookie(name)]
      ensures status == old(status) && body == old(body)
    {
      cookieOps := cookieOps + [ClearCookie(name)];
    }

    /** `res.json(b)`. */
    method Json(b: Body)
      modifies this
      ensures body == Some(b)
      ensures status == old(status) && cookieOps == old(cookieOps)
    {
      body := Some(b);
    }
  }

  /** `User.findOne({ username })`: the first user with that name. */
  function FindByUsername(users: seq<User>, username: string): (r: Option<User>)
    ensures r.None? <==> forall i :: 0 <= i < |users| ==> users[i].username != username
    ensures r.Some? ==> r.value in users && r.value.username == username
  {
    if users == [] then None
    else if users[0].username == username then Some(users[0])
    else FindByUsername(users[1..], username)
  }

  /** The cookie `/login` and `/refresh` set for a new access token. */
  function AccessCookie(who: Identity, secrets: Secrets, nowMs: nat): CookieOp {
    SetCookie(ACCESS_COOKIE, Sign(who, secrets.access, ACCESS_TTL_SECONDS, nowMs),
              ACCESS_COOKIE_MAX_AGE_MS, COOKIE_OPTIONS)
  }

  /** What `POST /login` answers. */
  function LoginReply(users: seq<User>, username: string, password: string,
                      passwordMatches: (string, string) -> bool, secrets: Secrets, nowMs: nat): Reply
  {
    match FindByUsername(users, username)
    case None => INVALID_CREDENTIALS
    case Some(user) =>
      if !passwordMatches(password, user.passwordHash) then INVALID_CREDENTIALS
      else
        var who := Identity(user.id, user.username);
        Reply(200,
              [AccessCookie(who, secrets, nowMs),
               SetCookie(REFRESH_COOKIE, Sign(who, secrets.refresh, REFRESH_TTL_SECONDS, nowMs),
                         REFRESH_COOKIE_MAX_AGE_MS, COOKIE_OPTIONS)],
              Profile(user.id, user.username))
  }

  /** `POST /login`. */
  method Login(res: Response, users: seq<User>, username: string, password: string,
               passwordMatches: (string, string) -> bool, secrets: Secrets, nowMs: nat)
    requires res.Fresh()
    modifies res
    ensures res.Sent() == Some(LoginReply(users, username, password, passwordMatches, secrets, nowMs))
  {
    var found := FindByUsername(users, username);
    if found.None? || !passwordMatches(password, found.value.passwordHash) {
      res.Status(400);
      res.Json(Text("Invalid Credentials"));
      return;
    }
    var user := found.value;
    var who := Identity(user.id, user.username);
    var accessToken := Sign(who, secrets.access, ACCESS_TTL_SECONDS, nowMs);
    var refreshToken := Sign(who, secrets.refresh, REFRESH_TTL_SECONDS, nowMs);
    res.Cookie(ACCESS_COOKIE, accessToken, COOKIE_OPTIONS, ACCESS_COOKIE_MAX_AGE_MS);
    res.Cookie(REFRESH_COOKIE, refreshToken, COOKIE_OPTIONS, REFRESH_COOKIE_MAX_AGE_MS);
    res.Json(Profile(user.id, user.username));
    assert res.cookieOps == [SetCookie(ACCESS_COOKIE, accessToken, ACCESS_COOKIE_MAX_AGE_MS, COOKIE_OPTIONS),
                             SetCookie(REFRESH_COOKIE, refreshToken, REFRESH_COOKIE_MAX_AGE_MS, COOKIE_OPTIONS)];
  }

  /** Login fails with 400 "Invalid Credentials", setting no cookie, exactly when the name is unknown or the password does not match its first holder. */
  lemma LoginFailure(users: seq<User>, username: string, password: string,
                     passwordMatches: (string, string) -> bool, secrets: Secrets, nowMs: nat)
    ensures var reply := LoginReply(users, username, password, passwordMatches, secrets, nowMs);
            var found := FindByUsername(users, username);
            && (reply.status == 400 <==> found.None? || !passwordMatches(password, found.value.passwordHash))
            && (reply.status == 400 ==> reply == Reply(400, [], Text("Invalid Credentials")))
            && (reply.status != 400 ==> reply.status == 200)
  {
  }

  /**
   * A successful login answers with the found user's id and name and sets two
   * cookies: an access token that verifies under the access secret for 15
   * minutes and a refresh token that verifies under the refresh secret for 7
   * days, each cookie living exactly as long as its token. When the secrets
   * differ neither token passes for the other.
   */
  lemma LoginIssuesTokens(users: seq<User>, username: string, password: string,
                          passwordMatches: (string, string) -> bool, secrets: Secrets, nowMs: nat, laterMs: nat)
    requires LoginReply(users, username, password, passwordMatches, secrets, nowMs).status == 200
    ensures var reply := LoginReply(users, username, password, passwordMatches, secrets, nowMs);
            var user := FindByUsername(users, username).value;
            && reply.body == Profile(user.id, user.username)
            && |reply.cookies| == 2
            && reply.cookies[0].SetCookie? && reply.cookies[0].name == ACCESS_COOKIE
            && reply.cookies[1].SetCookie? && reply.cookies[1].name == REFRESH_COOKIE
            && reply.cookies[0].maxAgeMs == ACCESS_TTL_SECONDS * 1000 == 900000
            && reply.cookies[1].maxAgeMs == REFRESH_TTL_SECONDS * 1000 == 604800000
            && reply.cookies[0].options == reply.cookies[1].options == COOKIE_OPTIONS
            && var access := Verify(reply.cookies[0].value, secrets.access, laterMs);
               var refresh := Verify(reply.cookies[1].value, secrets.refresh, laterMs);
               && (access.Some? <==> Seconds(laterMs) < Seconds(nowMs) + ACCESS_TTL_SECONDS)
               && (refresh.Some? <==> Seconds(laterMs) < Seconds(nowMs) + REFRESH_TTL_SECONDS)
               && (access.Some? ==> access.value.id == user.id && access.value.name == user.username)
               && (refresh.Some? ==> refresh.value.id == user.id && refresh.value.name == user.username)
               && (secrets.access != secrets.refresh ==>
                     && Verify(reply.cookies[0].value, secrets.refresh, laterMs).None?
                     && Verify(reply.cookies[1].value, secrets.access, laterMs).None?)
  {
    var user := FindByUsername(users, username).value;
    var who := Identity(user.id, user.username);
    SignThenVerify(who, secrets.access, ACCESS_TTL_SECONDS, nowMs, laterMs);
    SignThenVerify(who, secrets.refresh, REFRESH_TTL_SECONDS, nowMs, laterMs);
  }

  /** What `POST /refresh` answers. */
  function RefreshReply(cookies: map<string, Token>, secrets: Secrets, nowMs: nat): Reply {
    match CookieValue(cookies, REFRESH_COOKIE)
    case None => Reply(401, [], Text("Expired"))
    case Some(token) =>
      match Verify(token, secrets.refresh, nowMs)
      case None => Reply(403, [], Text("Invalid"))
      case Some(user) => Reply(200, [AccessCookie(Identity(user.id, user.name), secrets, nowMs)], Text("Refreshed"))
  }

  /** `POST /refresh`. */
  method Refresh(res: Response, cookies: map<string, Token>, secrets: Secrets, nowMs: nat)
    requires res.Fresh()
    modifies res
    ensures res.Sent() == Some(RefreshReply(cookies, secrets, nowMs))
  {
    var token := CookieValue(cookies, REFRESH_COOKIE);
    if token.None? {
      res.Status(401);
      res.Json(Text("Expired"));
      return;
    }
    var user := Verify(token.value, secrets.refresh, nowMs);
    if user.None? {
      res.Status(403);
      res.Json(Text("Invalid"));
      return;
    }
    var newAccess := Sign(Identity(user.value.id, user.value.name), secrets.access, ACCESS_TTL_SECONDS, nowMs);
    res.Cookie(ACCESS_COOKIE, newAccess, COOKIE_OPTIONS, ACCESS_COOKIE_MAX_AGE_MS);
    res.Json(Text("Refreshed"));
    assert res.cookieOps == [SetCookie(ACCESS_COOKIE, newAccess, ACCESS_COOKIE_MAX_AGE_MS, COOKIE_OPTIONS)];
  }

  /**
   * Refresh decisions: no refresh cookie is 401, a cookie failing verification
   * under the refresh secret is 403, and neither touches a cookie; otherwise
   * only the access cookie is reset, to a 15-minute token carrying the same id
   * and name as the refresh token.
   */
  lemma RefreshOutcomes(cookies: map<string, Token>, secrets: Secrets, nowMs: nat, laterMs: nat)
    ensures var reply := RefreshReply(cookies, secrets, nowMs);
            var token := CookieValue(cookies, REFRESH_COOKIE);
            && (reply.status == 401 <==> token.None?)
            && (reply.status == 403 <==> token.Some? && Verify(token.value, secrets.refresh, nowMs).None?)
            && (reply.status == 401 ==> reply.body == Text("Expired"))
            && (reply.status == 403 ==> reply.body == Text("Invalid"))
            && (reply.status in {401, 403} ==> reply.cookies == [])
            && (reply.status !in {401, 403} ==>
                  && reply.status == 200
                  && reply.body == Text("Refreshed")
                  && var claims := Verify(token.value, secrets.refresh, nowMs).value;
                     && |reply.cookies| == 1
                     && reply.cookies[0].SetCookie? && reply.cookies[0].name == ACCESS_COOKIE
                     && reply.cookies[0].maxAgeMs == ACCESS_COOKIE_MAX_AGE_MS
                     && reply.cookies[0].options == COOKIE_OPTIONS
                     && var renewed := Verify(reply.cookies[0].value, secrets.access, laterMs);
                        && (renewed.Some? <==> Seconds(laterMs) < Seconds(nowMs) + ACCESS_TTL_SECONDS)
                        && (renewed.Some? ==> renewed.value.id == claims.id && renewed.value.name == claims.name))
  {
    var token := CookieValue(cookies, REFRESH_COOKIE);
    if token.Some? && Verify(token.value, secrets.refresh, nowMs).Some? {
      var claims := Verify(token.value, secrets.refresh, nowMs).value;
      SignThenVerify(Identity(claims.id, claims.name), secrets.access, ACCESS_TTL_SECONDS, nowMs, laterMs);
    }
  }

  /**
   * The refresh cookie a login sets renews the access token for the same user
   * for 7 days, and no longer.
   */
  lemma LoginThenRefresh(users: seq<User>, username: string, password: string,
                         passwordMatches: (string, string) -> bool, secrets: Secrets,
                         loginMs: nat, refreshMs: nat, cookies: map<string, Token>)
    requires LoginReply(users, username, password, passwordMatches, secrets, loginMs).status == 200
    requires REFRESH_COOKIE in cookies
    requires cookies[REFRESH_COOKIE] == LoginReply(users, username, password, passwordMatches, secrets, loginMs).cookies[1].value
    ensures RefreshReply(cookies, secrets, refreshMs).status == 200
            <==> Seconds(refreshMs) < Seconds(loginMs) + REFRESH_TTL_SECONDS
    ensures RefreshReply(cookies, secrets, refreshMs).status != 200
            ==> RefreshReply(cookies, secrets, refreshMs).status == 403
  {
    LoginIssuesTokens(users, username, password, passwordMatches, secrets, loginMs, refreshMs);
  }

  /** `POST /logout`: clears both cookies whatever the request carries. */
  method Logout(res: Response, cookies: map<string, Token>)
    requires res.Fresh()
    modifies res
    ensures res.Sent() == Some(Reply(200, [ClearCookie(ACCESS_COOKIE), ClearCookie(REFRESH_COOKIE)],
                                     Notice("Logged out")))
  {
    res.Clear(ACCESS_COOKIE);
    res.Clear(REFRESH_COOKIE);
    res.Json(Notice("Logged out"));
    assert res.cookieOps == [ClearCookie(ACCESS_COOKIE), ClearCookie(REFRESH_COOKIE)];
  }

  /** A rejection by the access-token gate, as a reply. */
  function GateReply(status: int, message: string): Reply {
    Reply(status, [], Text(message))
  }

  /** `GET /me`: the gate, then `{ id, username }` from the token's claims. */
  function MeReply(cookies: map<string, Token>, secrets: Secrets, nowMs: nat): (reply: Reply)
    ensures reply.status == 200 ==>
      ACCESS_COOKIE in cookies &&
      exists claims :: Verify(cookies[ACCESS_COOKIE], secrets.access, nowMs) == Some(claims)
                    && reply.body == Profile(claims.id, claims.name)
    ensures reply.status in {401, 403} ==> reply.cookies == [] && reply.body.Text?
    ensures var gate := AuthMiddleware.VerifyToken(cookies, secrets.access, nowMs);
            && (reply.status == 200 <==> gate.Next?)
            && (gate.Reject? ==> reply == GateReply(gate.status, gate.message))
  {
    match AuthMiddleware.VerifyToken(cookies, secrets.access, nowMs)
    case Reject(status, message) => GateReply(status, message)
    case Next(user) => Reply(200, [], Profile(user.id, user.name))
  }

  /** A user as `.select("username _id")` returns it. */
  function Public(u: User): PublicUser {
    PublicUser(u.id, u.username)
  }

  /** `User.find({ _id: { $ne: id } })` projected to id and name, in collection order. */
  function OtherUsers(users: seq<User>, id: string): (r: seq<PublicUser>)
    ensures |r| <= |users|
    ensures forall p :: p in r ==> p.id != id
    ensures forall u :: u in users && u.id != id ==> Public(u) in r
    ensures forall p :: p in r ==> exists u :: u in users && p == Public(u)
  {
    if users == [] then []
    else
      var rest := OtherUsers(users[1..], id);
      assert forall u :: u in users[1..] ==> u in users;
      assert users == [users[0]] + users[1..];
      (if users[0].id != id then [Public(users[0])] else []) + rest
  }

  /** `GET /users`: the gate, then every user but the requester. */
  function UsersReply(cookies: map<string, Token>, secrets: Secrets, nowMs: nat, users: seq<User>): Reply {
    match AuthMiddleware.VerifyToken(cookies, secrets.access, nowMs)
    case Reject(status, message) => GateReply(status, message)
    case Next(user) => Reply(200, [], UserList(OtherUsers(users, user.id)))
  }

  /** The requester never appears in the `/users` list, and every other user does. */
  lemma UsersExcludeRequester(cookies: map<string, Token>, secrets: Secrets, nowMs: nat, users: seq<User>)
    requires UsersReply(cookies, secrets, nowMs, users).status == 200
    ensures var claims := Verify(cookies[ACCESS_COOKIE], secrets.access, nowMs).value;
            var list := UsersReply(cookies, secrets, nowMs, users).body.users;
            && (forall p :: p in list ==> p.id != claims.id)
            && (forall u :: u in users && u.id != claims.id ==> Public(u) in list)
  {
  }

  const NOT_AUTHORIZED: string := "You are not authorized to view this chat."

  /** `GET /messages/:room`: the gate, the private-room guard, then the history query. */
  function HistoryReply(cookies: map<string, Token>, secrets: Secrets, nowMs: nat,
                        store: seq<Message>, room: string): Reply
  {
    match AuthMiddleware.VerifyToken(cookies, secrets.access, nowMs)
    case Reject(status, message) => GateReply(status, message)
    case Next(user) =>
      if HistoryQuery.Denied(room, user.id) then Reply(403, [], Text(NOT_AUTHORIZED))
      else Reply(200, [], MessageList(HistoryQuery.History(store, room)))
  }

  /**
   * The history route answers 200 exactly for an authenticated requester the
   * guard admits, and then with the query's result; a valid token for a
   * private room not naming the requester gets 403 like an expired token does.
   */
  lemma HistoryOutcomes(cookies: map<string, Token>, secrets: Secrets, nowMs: nat,
                        store: seq<Message>, room: string)
    ensures var reply := HistoryReply(cookies, secrets, nowMs, store, room);
            var gate := AuthMiddleware.VerifyToken(cookies, secrets.access, nowMs);
            && (reply.status == 200 <==> gate.Next? && !HistoryQuery.Denied(room, gate.user.id))
            && (reply.status == 200 ==> HistoryQuery.IsHistoryOf(store, room, reply.body.messages))
            && (gate.Next? && HistoryQuery.Denied(room, gate.user.id) ==> reply == Reply(403, [], Text(NOT_AUTHORIZED)))
            && (gate.Reject? ==> reply.status == gate.status && reply.status != 200)
  {
    HistoryQuery.HistoryMeetsSpec(store, room);
  }
}
