# chat-app: a Dafny model of the session and room-messaging core

This project models the real-time core of a small chat application. Its
server is Express with socket.io and MongoDB; its client is React with axios.

Users log in over HTTP. The server answers with two JWTs in cookies:
- an access token valid for 15 minutes;
- a refresh token valid for 7 days.

The access token is checked in two places: by the HTTP middleware on every
protected route, and at the socket.io handshake. Once connected, a socket
joins rooms:
- the global room `"Global"`;
- or a private room whose name is the two user ids, sorted and joined by `_`.

A socket can send a message to a room. The server saves it and broadcasts
it to everyone in the room, sender included. Typing notices go to the
room's other members. The client keeps:
- the transcript of the current room;
- unread counters per sender;
- a typing flag that drops after 2 seconds without a keystroke.

The client's axios interceptor answers a 403 with a single `/auth/refresh`
call and a single replay of the failed request.

Modules, one per source file (plus shared helpers):

| module | file | models |
|---|---|---|
| `Wrappers` | wrappers.dfy | `Option` and `Result` |
| `JsString` | js_string.dfy | JavaScript `includes`, `length` (UTF-16 code units), `trim`, and the order of the default `Array.prototype.sort` |
| `Jwt` | jwt.dfy | idealised `jwt.sign` / `jwt.verify`, and cookie lookup |
| `MessageModel` | message.dfy | the Mongoose `Message` schema: construction and validation |
| `AuthMiddleware` | auth_middleware.dfy | the HTTP gate `verifyToken` |
| `SocketMiddleware` | socket_middleware.dfy | the handshake gate, with `cookie.parse` |
| `SocketHandler` | socket_handler.dfy | the socket.io server as a class `ChatServer`: room memberships, the message store, and every emission in order |
| `HistoryQuery` | history_query.dfy | `Message.find({ room }).sort({ createdAt: 1 }).limit(50)` and the private-room guard |
| `AuthRoutes` | auth_routes.dfy | the `/auth` routes, as methods on an Express-like `Response` object and as pure reply functions |
| `RetryInterceptor` | retry_interceptor.dfy | the axios response interceptor; the server is an oracle of replies |
| `ChatClient` | chat_view.dfy | the `Chat` component's state and handlers as a class `ChatView`, plus the grouping of the transcript |
| `Scenarios` | scenarios.dfy | properties that span server and client, and concrete runs |

The server class keeps one invariant across every handler:
- every stored message is valid and numbered by position;
- the messages carried by `receive_msg` emissions are exactly the stored messages, in save order.

Behaviours of the code that a reader may not expect:
- `join_room` only adds the socket to a room, so a socket stays in every room it has joined (`SocketHandler.ChatServer.JoinRoom`, `Scenarios.JoinTwoRooms`).
- The server stores the client-supplied `senderId`, `senderName` and `createdAt` once they pass the schema's casts. `createdAt` takes the server clock only when it is missing (`SocketHandler.AcceptedFieldsComeFromPayload`).
- A blank text reaches the store: the blankness check lives in the client only (`SocketHandler.BlankTextIsAccepted`).
- The history route returns the 50 EARLIEST messages of the room, although the comment above the query at server/routes/authRoutes.js:97 speaks of the last 50 (`HistoryQuery.NewestIsLeftOutWhenFull`).
- The history guard is a substring test on the room name (`Scenarios.GuardAdmitsOutsiderWithUnevenIds`). It admits exactly the two participants only when ids have one fixed width and no `_` (`Scenarios.GuardExactForFixedWidthIds`).
- The handshake gate gives two reasons: "Authentication error" for a missing token, "Token expired" for a rejected one (`SocketMiddleware.SocketAuth`).
- A failed save emits nothing, to the sender or anyone else: the handler's promise rejects (`SocketHandler.ChatServer.SendMsg`).

## Model

| member | source | states |
|---|---|---|
| JsString.Utf16Length | server/socket/socketHandler.js:12 | The length JavaScript reports lies between the number of characters and twice that; it equals the number of characters exactly when no character lies beyond U+FFFF. |
| JsString.Utf16LengthAppend | server/socket/socketHandler.js:12 | The length of a concatenation is the sum of the lengths. |
| JsString.Utf16LengthCountsAstral | server/socket/socketHandler.js:12 | The length is the number of characters plus the number of positions holding a character beyond U+FFFF. |
| JsString.TrimEmptyIffBlank | client/src/components/Chat.jsx:110 | `msg.trim()` is empty if and only if every character of `msg` is ECMAScript white space or a line terminator. |
| JsString.LessIrreflexiveAsymmetric | client/src/components/Chat.jsx:100 | The default sort order is a strict order: never both `a < b` and `b < a`. |
| JsString.LessTrichotomous | client/src/components/Chat.jsx:100 | Any two distinct strings are ordered one way or the other. |
| Jwt.SignThenVerify | server/routes/authRoutes.js:30-39 | A token signed with a secret verifies under that secret exactly while the clock in seconds is below issue time plus lifetime. It then yields the signer's id and name, with `exp - iat` equal to the lifetime. |
| Jwt.WrongSecretFails | server/routes/authRoutes.js:30-39 | A token never verifies under a secret other than the one that signed it. |
| Jwt.CookieValue | server/middleware/authMiddleware.js:4-5 | A cookie is taken as present exactly when it is in the jar and non-empty (JavaScript truthiness), and its value is the jar's. |
| MessageModel.Create | server/models/Message.js:3-9 | A record fails validation exactly when `room` is missing or empty, or `senderId` is present and not a 24-digit hex ObjectId, or `createdAt` (after the `Date.now` default) lies outside the range a `Date` can hold. The error names exactly the failing paths. Otherwise the record carries the payload's room, sender, name and text, the store's id, and `createdAt` from the payload or the server clock. |
| MessageModel.OnlyRoomIsRequired | server/models/Message.js:3-9 | Any payload with a non-empty room, a castable sender id (or none) and a castable date saves, whatever its name and text are. |
| MessageModel.ShortSenderIdIsRefused | server/models/Message.js:4 | A sender id such as "A" fails the ObjectId cast, and the save fails on the `senderId` path. |
| AuthMiddleware.VerifyToken | server/middleware/authMiddleware.js:3-12 | 401 "Unauthorized" if and only if no access-token cookie. 403 "Token Expired" if and only if the cookie is there and fails verification. Otherwise the request continues with exactly the verified claims. |
| AuthMiddleware.RefreshTokenIsNotAnAccessToken | server/middleware/authMiddleware.js:7-8 | A refresh token presented as the access cookie is refused with 403 whenever the two secrets differ. |
| SocketMiddleware.ParseCookies | server/socket/socketMiddleware.js:9 | The parsed jar has exactly the names that occur in the header. |
| SocketMiddleware.ParseKeepsFirst | server/socket/socketMiddleware.js:9-10 | For a repeated cookie name, the first occurrence wins. |
| SocketMiddleware.SocketAuth | server/socket/socketMiddleware.js:5-18 | No header, or no access cookie, is "Authentication error". A cookie that fails verification is "Token expired". Otherwise the socket is admitted with the verified claims. |
| SocketMiddleware.GatesAgree | server/socket/socketMiddleware.js:5-18 | On the same cookies, the handshake admits exactly when the HTTP gate passes, with the same claims. Its two refusals are the HTTP 401 and 403. |
| SocketHandler.DecideSend | server/socket/socketHandler.js:11-16 | A text over 1000 UTF-16 code units is refused, and only such a text. A payload without text, or one that fails validation, is dropped. Otherwise the validated record is saved. |
| SocketHandler.LengthBoundIsStrict | server/socket/socketHandler.js:12 | For a payload the schema accepts, a text of exactly 1000 code units is saved; one of 1001 is refused. |
| SocketHandler.AcceptedFieldsComeFromPayload | server/socket/socketHandler.js:15-16 | A saved record carries the payload's room, text, sender id and sender name unchanged. |
| SocketHandler.BlankTextIsAccepted | server/socket/socketHandler.js:11-16 | A text of spaces, in a non-empty room with the server clock as date, is saved like any other. |
| SocketHandler.ChatServer.Connect | server/socket/socketHandler.js:4 | A new socket joins the room named by its own id; the store and the emissions are unchanged; the invariant holds. |
| SocketHandler.ChatServer.JoinRoom | server/socket/socketHandler.js:7-9 | The socket is added to the room. No membership shrinks, and every other room is unchanged. |
| SocketHandler.ChatServer.SendMsg | server/socket/socketHandler.js:11-18 | A refused text sends "Message too long" to the sender alone. A saved record is appended to the store and emitted once to every current member of its room, sender included. A dropped payload changes nothing. Memberships are unchanged and the save-then-broadcast invariant is kept. |
| SocketHandler.ChatServer.Typing | server/socket/socketHandler.js:20-22 | The payload goes as `display_typing` to the room's members except the sender; nothing else changes. |
| SocketHandler.ChatServer.StopTyping | server/socket/socketHandler.js:24-26 | The payload goes as `hide_typing` to the room's members except the sender; nothing else changes. |
| HistoryQuery.InRoom | server/routes/authRoutes.js:108 | `find({ room })` holds every stored record of that room, as many times as stored, and nothing else. |
| HistoryQuery.Insert | server/routes/authRoutes.js:109 | Inserting into a list sorted by `createdAt` keeps it sorted and adds exactly one copy of the message. |
| HistoryQuery.SortByCreatedAt | server/routes/authRoutes.js:109 | The result is sorted ascending by `createdAt` and is a permutation of the input. |
| HistoryQuery.HistoryIsSortedPrefix | server/routes/authRoutes.js:108-110 | The history is the first min(50, n) messages of the room's messages in `createdAt` order. |
| HistoryQuery.HistoryFromRoom | server/routes/authRoutes.js:108 | Every returned message belongs to the requested room and is one of its stored records. |
| HistoryQuery.HistoryEarliest | server/routes/authRoutes.js:108-110 | Every message of the room left out is no earlier than every message returned. |
| HistoryQuery.HistoryMeetsSpec | server/routes/authRoutes.js:108-110 | The history satisfies the order-independent description: the room's records only, sorted, min(50, n) of them, and the earliest ones. Mongo's order among equal timestamps is left open. |
| HistoryQuery.NewestIsLeftOutWhenFull | server/routes/authRoutes.js:108-110 | When the room holds more than 50 messages, a strictly newest message is not in the history. |
| AuthRoutes.FindByUsername | server/routes/authRoutes.js:25 | No user is found exactly when no user has that name; a found user is in the collection and has that name. |
| AuthRoutes.Login | server/routes/authRoutes.js:24-51 | The response sent is the login reply: status, cookies in order, and body. |
| AuthRoutes.LoginFailure | server/routes/authRoutes.js:25-28 | Login answers 400 "Invalid Credentials", with no cookies, exactly when the user is unknown or the password does not match. Otherwise it answers 200. |
| AuthRoutes.LoginIssuesTokens | server/routes/authRoutes.js:30-50 | A successful login sets the access cookie and then the refresh cookie, with the cookie options and the 15-minute and 7-day max ages. The tokens carry the user's id and name and verify under their own secrets until they expire. The body is the user's id and name. |
| AuthRoutes.Refresh | server/routes/authRoutes.js:53-70 | The response sent is the refresh reply. |
| AuthRoutes.RefreshOutcomes | server/routes/authRoutes.js:53-70 | 401 "Expired" if and only if there is no refresh cookie. 403 "Invalid" if and only if the cookie fails verification under the refresh secret. Otherwise 200 "Refreshed" with one new access cookie, with the shared cookie options, carrying the refresh token's id and name. |
| AuthRoutes.LoginThenRefresh | server/routes/authRoutes.js:35-58 | The refresh cookie issued at login refreshes successfully exactly during its 7 days. |
| AuthRoutes.Logout | server/routes/authRoutes.js:72-76 | Logout clears the access cookie and the refresh cookie, in that order, and answers `{ message: "Logged out" }` whatever the request carries. |
| AuthRoutes.MeReply | server/routes/authRoutes.js:79-81 | The answer is 200 if and only if the access-token gate lets the request through, and then holds the id and name of the verified token. A gate refusal is answered with exactly the gate's status and text and no cookies. |
| AuthRoutes.OtherUsers | server/routes/authRoutes.js:86-88 | The list holds every user except the requester (by id), with id and username only, and no one else. |
| AuthRoutes.UsersExcludeRequester | server/routes/authRoutes.js:83-89 | A 200 answer to `/users` lists exactly the users whose id differs from the verified requester's. |
| AuthRoutes.HistoryOutcomes | server/routes/authRoutes.js:99-112 | The history route answers 200 exactly when the gate passes and the guard allows the room. It then returns a history meeting the order-independent description. A denied room is 403 with the fixed text. A gate refusal passes its status through. |
| RetryInterceptor.ApiClient.Request | client/src/api/axios.js:8-31 | A call sends, settles and consumes replies exactly as the specification function `Attempt` says. It marks its config retried exactly when it met a first 403 outside the refresh URL. |
| RetryInterceptor.ApiClient.OnRejected | client/src/api/axios.js:10-30 | The rejection handler behaves as `Intercept`: refresh, then replay once, or reject with the original error. |
| RetryInterceptor.OnlyForbiddenRefreshes | client/src/api/axios.js:16-30 | Any first answer other than 403 settles the call after a single request: resolved on 2xx, rejected otherwise. |
| RetryInterceptor.NoSecondRound | client/src/api/axios.js:16-20 | A call already retried, or one to the refresh URL, is sent once and never triggers a refresh. |
| RetryInterceptor.AtMostOneRefreshOneReplay | client/src/api/axios.js:16-24 | One call sends one of: the request; the request and a refresh; the request, a refresh and one replay. |
| RetryInterceptor.RefreshFailureSurfaces | client/src/api/axios.js:25-27 | A failing refresh rejects the call with the refresh's error, and the request is not replayed. |
| RetryInterceptor.RefreshSuccessReplays | client/src/api/axios.js:21-24 | After a successful refresh, the request is replayed once, and the call settles as the replay does. |
| ChatClient.RoomKeySymmetric | client/src/components/Chat.jsx:100 | Both users of a private chat compute the same room name. |
| ChatClient.RoomKeyNamesBoth | client/src/components/Chat.jsx:100 | The private room name contains `_` and both user ids. |
| ChatClient.ChatView.constructor | client/src/components/Chat.jsx:14-19 | The component starts in the global room, with an empty transcript, no counters, no typing, an empty draft and no timer. |
| ChatClient.ChatView.EnterRoom | client/src/components/Chat.jsx:51 | Entering a room emits `join_room` for it and changes nothing else. |
| ChatClient.ChatView.LoadHistory | client/src/components/Chat.jsx:43-44 | The transcript becomes the fetched history. |
| ChatClient.ChatView.SelectGlobal | client/src/components/Chat.jsx:175 | The room becomes the global room. |
| ChatClient.ChatView.StartPersonalChat | client/src/components/Chat.jsx:98-107 | The room becomes the sorted pair key, and that peer's counter is reset to 0. All other counters are unchanged. |
| ChatClient.ChatView.HandleNewMessage | client/src/components/Chat.jsx:53-65 | A message for the current room is appended to the transcript. A message for another room adds one to its sender's counter (the key "undefined" when the sender is missing) and leaves the transcript alone. |
| ChatClient.ChatView.DisplayTyping | client/src/components/Chat.jsx:70-74 | The banner becomes "<name> is typing" only for the current room. |
| ChatClient.ChatView.HideTyping | client/src/components/Chat.jsx:76-80 | The banner is cleared only for the current room. |
| ChatClient.ChatView.Send | client/src/components/Chat.jsx:109-126 | A blank draft changes nothing. Otherwise the untrimmed draft goes out as `send_msg`, with this user's id and name and the current room, followed by `stop_typing`. The flag, the timer and the draft are then cleared. |
| ChatClient.ChatView.InputChange | client/src/components/Chat.jsx:128-143 | `typing` is emitted only when the flag goes from false to true. The timer is re-armed to 2000 ms after the keystroke, in the current room. |
| ChatClient.ChatView.Tick | client/src/components/Chat.jsx:139-142 | A due timer clears the flag and emits `stop_typing` for the room it was armed in. A timer not yet due changes nothing. |
| ChatClient.Groups | client/src/components/Chat.jsx:236-246 | The transcript splits into consecutive groups that concatenate back to it. Each group has one sender, and neighbouring groups have different senders. |
| ChatClient.GroupsCountUngrouped | client/src/components/Chat.jsx:236 | There are as many groups as messages for which `isSameSender` is false. |
| ChatClient.NamesOncePerOthersGroup | client/src/components/Chat.jsx:236-250 | The number of sender names shown (`!isSameSender && !isMe`) equals the number of groups whose sender is not the viewer: one name per such group and none over the viewer's own messages. |
| Scenarios.PrivateRoomPassesGuard | server/routes/authRoutes.js:104 | Both participants of a private chat may read its history. |
| Scenarios.GuardExactForFixedWidthIds | server/routes/authRoutes.js:104 | With ids of one width and no `_`, a user may read a private room's history if and only if they are one of its two participants. |
| Scenarios.GuardAdmitsOutsiderWithUnevenIds | server/routes/authRoutes.js:104 | With ids of different widths, user "1" passes the guard for the room of users "12" and "3". |
| Scenarios.DeniedHistoryCostsOneRefresh | client/src/api/axios.js:16-24 | A history request answered 403, then refresh 200, then 403 sends exactly the request, a refresh and one replay, and rejects with 403. |
| Scenarios.JoinTwoRooms | server/socket/socketHandler.js:7-9 | A socket that joins R and then S is in both. |
| Scenarios.PairRoom | client/src/components/Chat.jsx:100 | Two users with ObjectId-form ids `ID_A` < `ID_B` meet in room `ID_A + "_" + ID_B` whichever of them opens the chat. |
| Scenarios.PairMessageDelivery | server/socket/socketHandler.js:11-18 | With A's and B's sockets in their pair room and C's only in the global room, A's "hi" is stored once, with A's id as sender, and delivered to A's and B's sockets only. |
| Scenarios.PrivateMessageReachesPair | client/src/components/Chat.jsx:109-118 | A's client emits `send_msg` for the pair room. Once relayed, the message lands in B's transcript. |
| Scenarios.TypingStopsAfterIdle | client/src/components/Chat.jsx:128-143 | Keystrokes at 0 ms and 1500 ms emit one `typing`. `stop_typing` follows at 3500 ms, not at 2000 ms. |
| Scenarios.StopTypingKeepsArmedRoom | client/src/components/Chat.jsx:139-142 | After a room switch, the pending `stop_typing` still goes to the room where typing started. |

## Left out

- JWT cryptography is idealised. A token is its claims plus the secret that signed it, and any other string fails verification. Signature forgery, token encoding and algorithms are not modelled.
- bcrypt is left out: the password check is a function parameter.
- The clock is a parameter of every operation that reads it.
- `/register` is not modelled (user creation and password hashing).
- Database errors are not modelled: the 500 answers of `/users` and of the history route, including an id that Mongo cannot cast to an ObjectId.
- `ObjectId` values are modelled as strings. The `_id` of a user is its `id`.
- socket.io disconnection is not modelled, and neither is the room cleanup it triggers.
- Concurrency is not modelled: each handler runs to completion before the next.
- Unhandled promise rejections are not modelled beyond "nothing is emitted". This covers a `send_msg` without `text` and a failed save.
- `Array.prototype.sort` compares UTF-16 code units. `JsString.Less` compares code points, which orders characters beyond U+FFFF differently.
- React rendering is not modelled: auto-scroll, styles, sidebar highlighting and counter badges. Only the `isSameSender` grouping and the state the handlers change are modelled.
- The client's user-list fetch and the logout button are not modelled. Their server side is `AuthRoutes.UsersReply` and `AuthRoutes.Logout`.
- React state updates are modelled as immediate. Two keystrokes handled before a re-render could each emit `typing`, and the model does not show that.
- Listener registration and `socket.off` cleanup are folded into `ChatView`: its handlers always see the current room.
- MessageModel.Create: the ObjectId cast accepts exactly 24 hex digits, as current `bson` does; older `bson` also accepted any 12-character string. A client-supplied `_id` and the duplicate-key failure it can cause are not modelled: the store always assigns the id.
- Jwt.Verify: its own contract states only that accepted claims are the token's. The full condition for acceptance is stated by `Jwt.SignThenVerify` and `Jwt.WrongSecretFails`.
