/**
 * The stored message record and the schema validation a save goes through.
 * `room` is required; `senderId`, when present, must cast to an ObjectId;
 * `createdAt` defaults to the server clock and must cast to a Date;
 * `senderName` and `text` are optional and unbounded.
 */
module MessageModel {
  import opened Wrappers

  /** The schema fields of a client payload (anything else in it is dropped); each may be absent. */
  datatype MessageData = MessageData(
    senderId: Option<string>,
    senderName: Option<string>,
    room: Option<string>,
    text: Option<string>,
    createdAt: Option<int>)

  /** A saved record. `id` stands for the `_id` the store generates; `createdAt` is in milliseconds. */
  datatype Message = Message(
    id: nat,
    senderId: Option<string>,
    senderName: Option<string>,
    room: string,
    text: Option<string>,
    createdAt: int)

  /** Mongoose's ValidationError: the schema paths whose value was refused. */
  datatype ValidationError = ValidationError(paths: set<string>)

  predicate IsHexDigit(c: char) {
    '0' <= c <= '9' || 'a' <= c <= 'f' || 'A' <= c <= 'F'
  }

  /** A string the `ObjectId` type of `senderId` accepts: 24 hexadecimal digits. */
  predicate ObjectIdCastable(s: string) {
    |s| == 24 && forall i :: 0 <= i < |s| ==> IsHexDigit(s[i])
  }

  /** The largest distance from the epoch, in milliseconds, that a JavaScript `Date` can hold. */
  const MAX_TIME_MS: int := 8_640_000_000_000_000

  /** A number the `Date` type of `createdAt` accepts: one that makes a valid `Date`. */
  predicate DateCastable(t: int) {
    -MAX_TIME_MS <= t <= MAX_TIME_MS
  }

  /** A record the schema accepts: a non-empty room, a castable sender id if any, and a valid date. */
  predicate Valid(m: Message) {
    && m.room != ""
    && (m.senderId.Some? ==> ObjectIdCastable(m.senderId.value))
    && DateCastable(m.createdAt)
  }

  /** The paths of `data` that `save()` refuses; `createdAt` is checked after its default is applied. */
  function InvalidPaths(data: MessageData, nowMs: int): set<string> {
    (if data.room.None? || data.room == Some("") then {"room"} else {})
    + (if data.senderId.Some? && !ObjectIdCastable(data.senderId.value) then {"senderId"} else {})
    + (if !DateCastable(data.createdAt.GetOr(nowMs)) then {"createdAt"} else {})
  }

  /**
   * `new Message(data)` followed by validation at `save()`, with `id` the
   * identifier the store assigns and `nowMs` the server clock. The required
   * `room` must be a non-empty string; `senderId` and `createdAt` must cast
   * to their schema types.
   */
  function Create(data: MessageData, id: nat, nowMs: int): (r: Result<Message, ValidationError>)
    ensures r.Failure? <==>
      || data.room.None? || data.room == Some("")
      || (data.senderId.Some? && !ObjectIdCastable(data.senderId.value))
      || !DateCastable(data.createdAt.GetOr(nowMs))
    ensures r.Failure? ==>
      && r.error.paths <= {"room", "senderId", "createdAt"}
      && ("room" in r.error.paths <==> data.room.None? || data.room == Some(""))
      && ("senderId" in r.error.paths <==> data.senderId.Some? && !ObjectIdCastable(data.senderId.value))
      && ("createdAt" in r.error.paths <==> !DateCastable(data.createdAt.GetOr(nowMs)))
    ensures r.Success? ==> Valid(r.value) && r.value.id == id
    ensures r.Success? ==>
      && Some(r.value.room) == data.room
      && r.value.senderId == data.senderId
      && r.value.senderName == data.senderName
      && r.value.text == data.text
    ensures r.Success? && data.createdAt.None? ==> r.value.createdAt == nowMs
    ensures r.Success? && data.createdAt.Some? ==> r.value.createdAt == data.createdAt.value
  {
    var paths := InvalidPaths(data, nowMs);
    if paths != {} then Failure(ValidationError(paths))
    else Success(Message(id, data.senderId, data.senderName, data.room.value, data.text,
                         data.createdAt.GetOr(nowMs)))
  }

  /**
   * Only the room is required: a payload with a non-empty room whose sender
   * id and date cast saves with or without sender, name and text, and with a
   * text of any length.
   */
  lemma OnlyRoomIsRequired(room: string, senderId: Option<string>, senderName: Option<string>,
                           text: Option<string>, createdAt: Option<int>, id: nat, nowMs: int)
    requires room != ""
    requires senderId.Some? ==> ObjectIdCastable(senderId.value)
    requires DateCastable(createdAt.GetOr(nowMs))
    ensures Create(MessageData(senderId, senderName, Some(room), text, createdAt), id, nowMs).Success?
  {
  }

  /** A sender id that is not an ObjectId, such as "A", makes the save fail whatever else the payload holds. */
  lemma ShortSenderIdIsRefused(data: MessageData, id: nat, nowMs: int)
    requires data.senderId == Some("A")
    ensures Create(data, id, nowMs).Failure?
    ensures "senderId" in Create(data, id, nowMs).error.paths
  {
  }
}
