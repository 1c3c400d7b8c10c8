/**
 * The chat component's state and handlers: the current room, the transcript,
 * per-sender unread counters, the typing flag with its 2-second inactivity
 * timer, the typing banner, and the events it emits on the socket. The timer
 * is explicit: `InputChange` arms it with a deadline and `Tick` fires it.
 */
module ChatClient {
  import opened Wrappers
  import opened JsString
  import opened MessageModel
  import opened SocketHandler

  const GLOBAL_ROOM: string := "Global"

  /** Inactivity after which typing stops on its own, in milliseconds. */
  const TYPING_IDLE_MS: nat := 2000

  /** `[a, b].sort().join("_")`: the private room of two users. */
  function RoomKey(a: string, b: string): string {
    SortedJoin(a, b, "_")
  }

  /** Both users compute the same private room. */
  lemma RoomKeySymmetric(a: string, b: string)
    ensures RoomKey(a, b) == RoomKey(b, a)
  {
    LessIrreflexiveAsymmetric(a, b);
    LessTrichotomous(a, b);
  }

  /** The private room name contains "_" and both user ids. */
  lemma RoomKeyNamesBoth(a: string, b: string)
    ensures Includes(RoomKey(a, b), "_")
    ensures Includes(RoomKey(a, b), a) && Includes(RoomKey(a, b), b)
  {
    var key := RoomKey(a, b);
    var (x, y) := if Less(b, a) then (b, a) else (a, b);
    assert key == x + "_" + y;
    assert OccursAt(key, x, 0);
    assert OccursAt(key, "_", |x|);
    assert OccursAt(key, y, |x| + 1);
  }

  /** The events the component emits on the socket. */
  datatype ClientEvent =
    | JoinRoom(room: string)
    | SendMsg(data: MessageData)
    | Typing(typing: TypingData)
    | StopTyping(typing: TypingData)

  /** A pending `window.typingTimeout`: when it fires and the room its callback captured. */
  datatype Timer = Timer(deadlineMs: int, room: string)

  /** The counter key `notifications[data.senderId]`; a missing id is the key "undefined". */
  function SenderKey(m: Message): string {
    m.senderId.GetOr("undefined")
  }

  /** `prev[key] || 0`. */
  function Unread(notifications: map<string, int>, key: string): int {
    if key in notifications then notifications[key] else 0
  }

  class ChatView {
    const userId: string
    const username: string
    var room: string
    var chat: seq<Message>
    var notifications: map<string, int>
    var isTyping: bool
    var whoIsTyping: string
    var msg: string
    var typingTimer: Option<Timer>
    var emitted: seq<ClientEvent>

    constructor (userId: string, username: string)
      ensures this.userId == userId && this.username == username
      ensures room == GLOBAL_ROOM && chat == [] && notifications == map[]
      ensures !isTyping && whoIsTyping == "" && msg == "" && typingTimer.None? && emitted == []
    {
      this.userId, this.username := userId, username;
      room, chat, notifications := GLOBAL_ROOM, [], map[];
      isTyping, whoIsTyping, msg := false, "", "";
      typingTimer, emitted := None, [];
    }

    /** The effect that runs when `room` changes: join it on the socket. */
    method EnterRoom()
      modifies this
      ensures emitted == old(emitted) + [JoinRoom(room)]
      ensures room == old(room) && chat == old(chat) && notifications == old(notifications)
      ensures isTyping == old(isTyping) && whoIsTyping == old(whoIsTyping) && msg == old(msg)
      ensures typingTimer == old(typingTimer)
    {
      emitted := emitted + [JoinRoom(room)];
    }

    /** The history request of that effect answered: the transcript becomes the fetched messages. */
    method LoadHistory(history: seq<Message>)
      modifies this
      ensures chat == history
      ensures room == old(room) && notifications == old(notifications) && emitted == old(emitted)
      ensures isTyping == old(isTyping) && whoIsTyping == old(whoIsTyping) && msg == old(msg)
      ensures typingTimer == old(typingTimer)
    {
      chat := history;
    }

    /** The "Global Group" button. */
    method SelectGlobal()
      modifies this
      ensures room == GLOBAL_ROOM
      ensures chat == old(chat) && notifications == old(notifications) && emitted == old(emitted)
      ensures isTyping == old(isTyping) && whoIsTyping == old(whoIsTyping) && msg == old(msg)
      ensures typingTimer == old(typingTimer)
    {
      room := GLOBAL_ROOM;
    }

    /** `startPersonalChat`: open the private room with `otherId` and reset that peer's counter. */
    method StartPersonalChat(otherId: string)
      modifies this
      ensures room == RoomKey(userId, otherId)
      ensures notifications == old(notifications)[otherId := 0]
      ensures chat == old(chat) && emitted == old(emitted)
      ensures isTyping == old(isTyping) && whoIsTyping == old(whoIsTyping) && msg == old(msg)
      ensures typingTimer == old(typingTimer)
    {
      room := RoomKey(userId, otherId);
      notifications := notifications[otherId := 0];
    }

    /**
     * `handleNewMessage`: a message for the current room is appended to the
     * transcript; one for another room bumps its sender's counter instead.
     */
    method HandleNewMessage(data: Message)
      modifies this
      ensures data.room == old(room) ==> chat == old(chat) + [data] && notifications == old(notifications)
      ensures data.room != old(room) ==>
        && chat == old(chat)
        && notifications == old(notifications)[SenderKey(data) := Unread(old(notifications), SenderKey(data)) + 1]
      ensures room == old(room) && emitted == old(emitted)
      ensures isTyping == old(isTyping) && whoIsTyping == old(whoIsTyping) && msg == old(msg)
      ensures typingTimer == old(typingTimer)
    {
      if data.room != room {
        var senderId := SenderKey(data);
        notifications := notifications[senderId := Unread(notifications, senderId) + 1];
      } else {
        chat := chat + [data];
      }
    }

    /** `display_typing`: shows "<name> is typing" when the event is for the current room. */
    method DisplayTyping(data: TypingData)
      modifies this
      ensures whoIsTyping == if data.room == old(room) then data.username.GetOr("undefined") + " is typing" else old(whoIsTyping)
      ensures room == old(room) && chat == old(chat) && notifications == old(notifications)
      ensures emitted == old(emitted) && isTyping == old(isTyping) && msg == old(msg)
      ensures typingTimer == old(typingTimer)
    {
      if data.room == room {
        whoIsTyping := data.username.GetOr("undefined") + " is typing";
      }
    }

    /** `hide_typing`: clears the banner when the event is for the current room. */
    method HideTyping(data: TypingData)
      modifies this
      ensures whoIsTyping == if data.room == old(room) then "" else old(whoIsTyping)
      ensures room == old(room) && chat == old(chat) && notifications == old(notifications)
      ensures emitted == old(emitted) && isTyping == old(isTyping) && msg == old(msg)
      ensures typingTimer == old(typingTimer)
    {
      if data.room == room {
        whoIsTyping := "";
      }
    }

    /**
     * `send`: a blank draft does nothing. Otherwise the untrimmed draft goes out
     * as `send_msg` with this user's id and name, followed by `stop_typing`;
     * the timer is cancelled, and the typing flag and the draft are cleared.
     */
    method Send()
      modifies this
      ensures Trim(old(msg)) == "" ==>
        && msg == old(msg) && emitted == old(emitted)
        && isTyping == old(isTyping) && typingTimer == old(typingTimer)
      ensures Trim(old(msg)) != "" ==>
        && emitted == old(emitted)
             + [SendMsg(MessageData(Some(userId), Some(username), Some(room), Some(old(msg)), None)),
                StopTyping(TypingData(room, None))]
        && !isTyping && typingTimer.None? && msg == ""
      ensures room == old(room) && chat == old(chat) && notifications == old(notifications)
      ensures whoIsTyping == old(whoIsTyping)
    {
      if Trim(msg) != "" {
        emitted := emitted
          + [SendMsg(MessageData(Some(userId), Some(username), Some(room), Some(msg), None)),
             StopTyping(TypingData(room, None))];
        isTyping, typingTimer, msg := false, None, "";
      }
    }

    /**
     * `handleInputChange` at clock `nowMs`: the draft becomes `value`; `typing`
     * is emitted only when the flag goes from false to true; the timer is
     * re-armed for 2000 ms later in the current room.
     */
    method InputChange(value: string, nowMs: int)
      modifies this
      ensures msg == value && isTyping
      ensures emitted == old(emitted) + (if old(isTyping) then [] else [Typing(TypingData(room, Some(username)))])
      ensures typingTimer == Some(Timer(nowMs + TYPING_IDLE_MS, room))
      ensures room == old(room) && chat == old(chat) && notifications == old(notifications)
      ensures whoIsTyping == old(whoIsTyping)
    {
      msg := value;
      if !isTyping {
        isTyping := true;
        emitted := emitted + [Typing(TypingData(room, Some(username)))];
      }
      typingTimer := Some(Timer(nowMs + TYPING_IDLE_MS, room));
    }

    /**
     * The clock reads `nowMs`: a pending timer whose deadline has come fires,
     * clearing the flag and emitting `stop_typing` for the room it captured.
     */
    method Tick(nowMs: int)
      modifies this
      ensures old(typingTimer).Some? && old(typingTimer).value.deadlineMs <= nowMs ==>
        && emitted == old(emitted) + [StopTyping(TypingData(old(typingTimer).value.room, None))]
        && !isTyping && typingTimer.None?
      ensures !(old(typingTimer).Some? && old(typingTimer).value.deadlineMs <= nowMs) ==>
        emitted == old(emitted) && isTyping == old(isTyping) && typingTimer == old(typingTimer)
      ensures room == old(room) && chat == old(chat) && notifications == old(notifications)
      ensures whoIsTyping == old(whoIsTyping) && msg == old(msg)
    {
      if typingTimer.Some? && typingTimer.value.deadlineMs <= nowMs {
        isTyping := false;
        emitted := emitted + [StopTyping(TypingData(typingTimer.value.room, None))];
        typingTimer := None;
      }
    }
  }

  /** `isSameSender`: message `i` continues the previous message's sender. */
  function IsSameSender(chat: seq<Message>, i: nat): bool
    requires i < |chat|
  {
    i > 0 && chat[i - 1].senderId == chat[i].senderId
  }

  /** `isMe`. */
  function IsMe(m: Message, userId: string): bool {
    m.senderId == Some(userId)
  }

  /** The sender's name is shown above message `i`: it starts a group and is not this user's. */
  function ShowsName(chat: seq<Message>, i: nat, userId: string): bool
    requires i < |chat|
  {
    !IsSameSender(chat, i) && !IsMe(chat[i], userId)
  }

  function Flatten(runs: seq<seq<Message>>): seq<Message> {
    if runs == [] then [] else runs[0] + Flatten(runs[1..])
  }

  predicate OneSender(run: seq<Message>) {
    forall k :: 0 <= k < |run| ==> run[k].senderId == run[0].senderId
  }

  /** Every group is non-empty and from one sender, and neighbouring groups have different senders. */
  predicate ProperGroups(runs: seq<seq<Message>>) {
    runs == [] ||
    (&& runs[0] != [] && OneSender(runs[0])
     && (|runs| > 1 ==> runs[1] != [] && runs[0][|runs[0]| - 1].senderId != runs[1][0].senderId)
     && ProperGroups(runs[1..]))
  }

  /**
   * The transcript cut into the groups it is displayed in: maximal stretches
   * of consecutive messages from one sender.
   */
  function Groups(chat: seq<Message>): (runs: seq<seq<Message>>)
    ensures Flatten(runs) == chat
    ensures chat != [] ==> runs != [] && runs[0] != [] && runs[0][0] == chat[0]
    ensures ProperGroups(runs)
  {
    if chat == [] then []
    else
      var rest := Groups(chat[1..]);
      if rest != [] && rest[0][0].senderId == chat[0].senderId then
        var first := [chat[0]] + rest[0];
        assert Flatten(rest) == rest[0] + Flatten(rest[1..]);
        assert first[|first| - 1] == rest[0][|rest[0]| - 1];
        assert ([first] + rest[1..])[1..] == rest[1..];
        [first] + rest[1..]
      else
        assert ([[chat[0]]] + rest)[1..] == rest;
        [[chat[0]]] + rest
  }

  /** How many messages start a group (`!isSameSender`), from position `i` on. */
  function CountUngrouped(chat: seq<Message>, i: nat): nat
    decreases |chat| - i
  {
    if i >= |chat| then 0
    else (if IsSameSender(chat, i) then 0 else 1) + CountUngrouped(chat, i + 1)
  }

  lemma {:induction false} CountUngroupedShift(chat: seq<Message>, i: nat)
    requires 1 <= i && chat != []
    ensures CountUngrouped(chat, i + 1) == CountUngrouped(chat[1..], i)
    decreases |chat| - i
  {
    if i + 1 < |chat| {
      CountUngroupedShift(chat, i + 1);
    }
  }

  /** Every group starts at a message that is not grouped with its predecessor, and only there. */
  lemma {:induction false} GroupsCountUngrouped(chat: seq<Message>)
    ensures |Groups(chat)| == CountUngrouped(chat, 0)
  {
    if chat != [] {
      GroupsCountUngrouped(chat[1..]);
      if |chat| > 1 {
        CountUngroupedShift(chat, 1);
        var rest := Groups(chat[1..]);
        assert rest[0][0] == chat[1];
      }
    }
  }

  /** How many groups in `runs` were sent by someone other than `userId`. */
  function OthersGroups(runs: seq<seq<Message>>, userId: string): nat {
    if runs == [] then 0
    else (if runs[0] != [] && !IsMe(runs[0][0], userId) then 1 else 0) + OthersGroups(runs[1..], userId)
  }

  /** How many sender names are shown above messages from position `i` on. */
  function CountNames(chat: seq<Message>, i: nat, userId: string): nat
    decreases |chat| - i
  {
    if i >= |chat| then 0
    else (if ShowsName(chat, i, userId) then 1 else 0) + CountNames(chat, i + 1, userId)
  }

  lemma {:induction false} CountNamesShift(chat: seq<Message>, i: nat, userId: string)
    requires 1 <= i && chat != []
    ensures CountNames(chat, i + 1, userId) == CountNames(chat[1..], i, userId)
    decreases |chat| - i
  {
    if i + 1 < |chat| {
      CountNamesShift(chat, i + 1, userId);
    }
  }

  /**
   * The transcript shows one sender name per group of messages from someone
   * else, and none over this user's own messages.
   */
  lemma {:induction false} NamesOncePerOthersGroup(chat: seq<Message>, userId: string)
    ensures CountNames(chat, 0, userId) == OthersGroups(Groups(chat), userId)
  {
    if chat != [] {
      NamesOncePerOthersGroup(chat[1..], userId);
      var rest := Groups(chat[1..]);
      if |chat| > 1 {
        CountNamesShift(chat, 1, userId);
        assert rest[0][0] == chat[1];
      }
      if rest != [] && rest[0][0].senderId == chat[0].senderId {
        var first := [chat[0]] + rest[0];
        assert Groups(chat) == [first] + rest[1..];
        assert ([first] + rest[1..])[1..] == rest[1..];
      } else {
        assert Groups(chat) == [[chat[0]]] + rest;
        assert ([[chat[0]]] + rest)[1..] == rest;
      }
    }
  }
}
