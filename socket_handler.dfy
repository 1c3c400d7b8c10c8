/**
 * The real-time room and message engine: one `ChatServer` holds the room
 * registry (room name to member sockets), the message store, and the outbox of
 * every event the server has emitted. Each handler invocation is one atomic
 * step on this state.
 */
module SocketHandler {
  import opened Wrappers
  import opened JsString
  import opened MessageModel

  type SocketId = string

  /** `send_msg` refuses texts longer than this many UTF-16 code units. */
  const MAX_TEXT_LENGTH: nat := 1000

  const TOO_LONG: string := "Message too long"

  /** The payload of `typing` / `stop_typing`, forwarded unchanged. */
  datatype TypingData = TypingData(room: string, username: Option<string>)

  /** The server-to-client events. */
  datatype ServerEvent =
    | Error(message: string)
    | ReceiveMsg(msg: Message)
    | DisplayTyping(typing: TypingData)
    | HideTyping(typing: TypingData)

  /** One `emit` call: an event and the sockets it reaches. */
  datatype Emission = Emission(recipients: set<SocketId>, event: ServerEvent)

  /** What `send_msg` does with a payload. */
  datatype SendDecision =
    | Dropped           // the handler throws or the save is rejected: nothing is stored or emitted
    | RejectTooLong     // an error goes back to the sender only
    | Save(msg: Message)  // the record is stored, then broadcast to the room

  /**
   * The `send_msg` decision for payload `data`, when the store would give the
   * new record identifier `nextId` and the clock reads `nowMs`. A payload
   * without `text` makes `data.text.length` throw; a text over the limit is
   * refused; otherwise the record is validated by the schema.
   */
  function DecideSend(data: MessageData, nextId: nat, nowMs: int): (d: SendDecision)
    ensures d == RejectTooLong <==> data.text.Some? && Utf16Length(data.text.value) > MAX_TEXT_LENGTH
    ensures d.Save? ==> Create(data, nextId, nowMs) == Success(d.msg)
    ensures d == Dropped <==>
      data.text.None? || (Utf16Length(data.text.value) <= MAX_TEXT_LENGTH && Create(data, nextId, nowMs).Failure?)
  {
    match data.text
    case None => Dropped
    case Some(text) =>
      if Utf16Length(text) > MAX_TEXT_LENGTH then RejectTooLong
      else
        match Create(data, nextId, nowMs)
        case Failure(_) => Dropped
        case Success(m) => Save(m)
  }

  /** The limit is strict: a text of exactly 1000 code units in an otherwise valid payload is saved, one more is refused. */
  lemma LengthBoundIsStrict(data: MessageData, nextId: nat, nowMs: int)
    requires InvalidPaths(data, nowMs) == {}
    requires data.text.Some?
    ensures Utf16Length(data.text.value) == MAX_TEXT_LENGTH ==> DecideSend(data, nextId, nowMs).Save?
    ensures Utf16Length(data.text.value) == MAX_TEXT_LENGTH + 1 ==> DecideSend(data, nextId, nowMs) == RejectTooLong
  {
  }

  /**
   * An accepted record carries the payload's room, text, sender id and sender
   * name unchanged, whatever they are: the server neither checks the sender
   * against the connection's user nor refuses a blank text.
   */
  lemma AcceptedFieldsComeFromPayload(data: MessageData, nextId: nat, nowMs: int)
    requires DecideSend(data, nextId, nowMs).Save?
    ensures var m := DecideSend(data, nextId, nowMs).msg;
            && data.room == Some(m.room) && m.text == data.text
            && m.senderId == data.senderId && m.senderName == data.senderName
            && m.createdAt == data.createdAt.GetOr(nowMs)
  {
  }

  /** A text made only of spaces is stored like any other. */
  lemma BlankTextIsAccepted(room: string, nextId: nat, nowMs: int)
    requires room != "" && DateCastable(nowMs)
    ensures DecideSend(MessageData(None, None, Some(room), Some("   "), None), nextId, nowMs).Save?
  {
  }

  /** The messages carried by the `receive_msg` emissions of an outbox, in emission order. */
  function Broadcasts(outbox: seq<Emission>): seq<Message> {
    if outbox == [] then []
    else Broadcasts(outbox[..|outbox| - 1])
         + (var e := outbox[|outbox| - 1]; if e.event.ReceiveMsg? then [e.event.msg] else [])
  }

  lemma BroadcastsAppend(outbox: seq<Emission>, e: Emission)
    ensures Broadcasts(outbox + [e]) == Broadcasts(outbox) + (if e.event.ReceiveMsg? then [e.event.msg] else [])
  {
    assert (outbox + [e])[..|outbox|] == outbox;
  }

  class ChatServer {
    /** Room name to the sockets joined to it (`socket.join`). */
    var rooms: map<string, set<SocketId>>
    /** The saved messages, in save order. */
    var store: seq<Message>
    /** Every emission, in order. */
    var outbox: seq<Emission>

    /**
     * Stored records are valid and numbered by position, and the `receive_msg`
     * broadcasts are exactly the stored records in save order: nothing is
     * broadcast unsaved, nothing saved goes unbroadcast, nothing is reordered.
     */
    ghost predicate Valid()
      reads this
    {
      && (forall i :: 0 <= i < |store| ==> store[i].id == i && MessageModel.Valid(store[i]))
      && Broadcasts(outbox) == store
    }

    /** The sockets currently in `room`. */
    function Members(room: string): set<SocketId>
      reads this
    {
      if room in rooms then rooms[room] else {}
    }

    constructor ()
      ensures Valid()
      ensures rooms == map[] && store == [] && outbox == []
    {
      rooms, store, outbox := map[], [], [];
    }

    /** A socket is placed, on connection, in the room named after its own id. */
    method Connect(sid: SocketId)
      requires Valid()
      modifies this
      ensures Valid()
      ensures rooms == old(rooms)[sid := old(Members(sid)) + {sid}]
      ensures store == old(store) && outbox == old(outbox)
    {
      rooms := rooms[sid := Members(sid) + {sid}];
    }

    /** `join_room`: adds the socket to `room` and leaves every other membership as it was. */
    method JoinRoom(sid: SocketId, room: string)
      requires Valid()
      modifies this
      ensures Valid()
      ensures rooms == old(rooms)[room := old(Members(room)) + {sid}]
      ensures store == old(store) && outbox == old(outbox)
      ensures sid in Members(room)
      ensures forall r :: old(Members(r)) <= Members(r)
      ensures forall r :: r != room ==> Members(r) == old(Members(r))
    {
      rooms := rooms[room := Members(room) + {sid}];
    }

    /**
     * `send_msg` from socket `sid` at clock `nowMs`: a too-long text sends one
     * error to the sender alone; an accepted record is appended to the store
     * first and then broadcast to every current member of its room, the
     * sender included when it is a member; otherwise nothing changes.
     */
    method SendMsg(sid: SocketId, data: MessageData, nowMs: int)
      requires Valid()
      modifies this
      ensures Valid()
      ensures rooms == old(rooms)
      ensures match DecideSend(data, |old(store)|, nowMs)
              case Dropped => store == old(store) && outbox == old(outbox)
              case RejectTooLong =>
                store == old(store) && outbox == old(outbox) + [Emission({sid}, Error(TOO_LONG))]
              case Save(m) =>
                && store == old(store) + [m]
                && outbox == old(outbox) + [Emission(old(Members(m.room)), ReceiveMsg(m))]
    {
      match data.text
      case None =>
      case Some(text) =>
        if Utf16Length(text) > MAX_TEXT_LENGTH {
          BroadcastsAppend(outbox, Emission({sid}, Error(TOO_LONG)));
          outbox := outbox + [Emission({sid}, Error(TOO_LONG))];
          return;
        }
        match Create(data, |store|, nowMs)
        case Failure(_) =>
        case Success(m) =>
          store := store + [m];
          var e := Emission(Members(m.room), ReceiveMsg(m));
          BroadcastsAppend(outbox, e);
          outbox := outbox + [e];
    }

    /** `typing`: the payload goes, as `display_typing`, to every member of its room except the sender. */
    method Typing(sid: SocketId, data: TypingData)
      requires Valid()
      modifies this
      ensures Valid()
      ensures rooms == old(rooms) && store == old(store)
      ensures outbox == old(outbox) + [Emission(old(Members(data.room)) - {sid}, DisplayTyping(data))]
    {
      var e := Emission(Members(data.room) - {sid}, DisplayTyping(data));
      BroadcastsAppend(outbox, e);
      outbox := outbox + [e];
    }

    /** `stop_typing`: the payload goes, as `hide_typing`, to every member of its room except the sender. */
    method StopTyping(sid: SocketId, data: TypingData)
      requires Valid()
      modifies this
      ensures Valid()
      ensures rooms == old(rooms) && store == old(store)
      ensures outbox == old(outbox) + [Emission(old(Members(data.room)) - {sid}, HideTyping(data))]
    {
      var e := Emission(Members(data.room) - {sid}, HideTyping(data));
      BroadcastsAppend(outbox, e);
      outbox := outbox + [e];
    }
  }
}
