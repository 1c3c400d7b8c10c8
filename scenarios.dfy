/**
 * Properties that span the server and the client, and concrete call
 * sequences on the model with what they establish.
 */
module Scenarios {
  import opened Wrappers
  import opened JsString
  import opened MessageModel
  import opened SocketHandler
  import opened HistoryQuery
  import opened RetryInterceptor
  import opened ChatClient

  /** Both participants of a private chat pass the history guard for its room. */
  lemma PrivateRoomPassesGuard(a: string, b: string)
    ensures !Denied(RoomKey(a, b), a) && !Denied(RoomKey(a, b), b)
  {
    RoomKeyNamesBoth(a, b);
  }

  predicate NoUnderscore(id: string) {
    forall k :: 0 <= k < |id| ==> id[k] != '_'
  }

  /** A name without "_" never passes as a private room. */
  lemma NoUnderscoreNotPrivate(room: string)
    requires NoUnderscore(room)
    ensures !Includes(room, "_")
  {
    forall i | 0 <= i <= |room|
      ensures !OccursAt(room, "_", i)
    {
      if i < |room| {
        assert room[i..i + 1][0] == room[i];
      }
    }
  }

  /** An occurrence of `c` that starts inside `x` and is as long as `x` covers the "_" after it. */
  lemma StraddlesSeparator(x: string, y: string, c: string, i: int)
    requires |c| == |x| && 0 < i <= |x|
    requires OccursAt(x + "_" + y, c, i)
    ensures c[|x| - i] == '_'
  {
    assert c[|x| - i] == (x + "_" + y)[|x|];
  }

  /** In `x_y` with all three the same width, an id without "_" occurs only as `x` or as `y`. */
  lemma OccurrenceIsAnEnd(x: string, y: string, c: string)
    requires |x| == |y| == |c| && NoUnderscore(c)
    requires Includes(x + "_" + y, c)
    ensures c == x || c == y
  {
    var key := x + "_" + y;
    var i :| 0 <= i <= |key| && OccursAt(key, c, i);
    if 0 < i <= |x| {
      StraddlesSeparator(x, y, c, i);
    } else if i == 0 {
      assert c == key[..|x|] == x;
    } else {
      assert c == key[|x| + 1..] == y;
    }
  }

  /**
   * With ids of one fixed width that contain no "_" (as MongoDB ObjectIds in
   * hex do), the substring guard on a private room admits exactly its two
   * participants.
   */
  lemma GuardExactForFixedWidthIds(a: string, b: string, c: string)
    requires |a| == |b| == |c|
    requires NoUnderscore(a) && NoUnderscore(b) && NoUnderscore(c)
    ensures !Denied(RoomKey(a, b), c) <==> c == a || c == b
  {
    RoomKeyNamesBoth(a, b);
    if Includes(RoomKey(a, b), c) {
      if Less(b, a) {
        OccurrenceIsAnEnd(b, a, c);
      } else {
        OccurrenceIsAnEnd(a, b, c);
      }
    }
  }

  /** Without fixed-width ids the guard is looser: user "1" may read the history of users "12" and "3". */
  lemma GuardAdmitsOutsiderWithUnevenIds()
    ensures RoomKey("12", "3") == "12_3"
    ensures !Denied(RoomKey("12", "3"), "1")
  {
    assert Less("12", "3");
    assert !Less("3", "12");
    assert OccursAt("12_3", "_", 2);
    assert OccursAt("12_3", "1", 0);
  }

  /**
   * The client asking for a history it may not read: the 403 sends it
   * through one refresh and one replay, and the replay's 403 is final.
   */
  lemma DeniedHistoryCostsOneRefresh(url: string)
    requires !Includes(url, REFRESH_URL)
    ensures Attempt(url, false, [Some(403), Some(200), Some(403)])
         == Run(Rejected(Some(403)), [url, REFRESH_URL, url])
  {
    IncludesSelf(REFRESH_URL);
    var replies := [Some(403), Some(200), Some(403)];
    assert Drop(replies, 1) == [Some(200), Some(403)];
    assert Attempt(REFRESH_URL, false, Drop(replies, 1)) == Run(Resolved(200), [REFRESH_URL]);
    assert Drop(Drop(replies, 1), 1) == [Some(403)];
    assert Attempt(url, true, [Some(403)]) == Run(Rejected(Some(403)), [url]);
  }

  /** A socket that joins R and then S is a member of both: joining never leaves a room. */
  method JoinTwoRooms() returns (inR: bool, inS: bool)
    ensures inR && inS
  {
    var server := new ChatServer();
    server.Connect("s1");
    server.JoinRoom("s1", "R");
    server.JoinRoom("s1", "S");
    inR := "s1" in server.Members("R");
    inS := "s1" in server.Members("S");
  }

  /** Two user ids in ObjectId form: a hex digit followed by 23 zeros. */
  const ID_A: string := "a" + seq(23, _ => '0')
  const ID_B: string := "b" + seq(23, _ => '0')

  /** Their private room. */
  const PAIR_ROOM: string := ID_A + "_" + ID_B

  /** Users A and B meet in the same room whichever of them opens the chat. */
  lemma PairRoom()
    ensures RoomKey(ID_A, ID_B) == RoomKey(ID_B, ID_A) == PAIR_ROOM
  {
    assert Less(ID_A, ID_B);
    RoomKeySymmetric(ID_A, ID_B);
  }

  /**
   * Sockets sa and sb are in the pair room, sc only in the global room; sa
   * sends "hi" there. The message is stored once and goes to sa and sb only.
   */
  method PairMessageDelivery(data: MessageData) returns (recipients: set<SocketId>, stored: seq<Message>)
    requires data == MessageData(Some(ID_A), Some("alice"), Some(PAIR_ROOM), Some("hi"), None)
    ensures recipients == {"sa", "sb"}
    ensures |stored| == 1 && stored[0].text == Some("hi") && stored[0].room == PAIR_ROOM
    ensures stored[0].senderId == Some(ID_A)
  {
    var server := new ChatServer();
    server.Connect("sa");
    server.Connect("sb");
    server.Connect("sc");
    assert server.Members(PAIR_ROOM) == {};
    server.JoinRoom("sa", PAIR_ROOM);
    server.JoinRoom("sb", PAIR_ROOM);
    assert server.Members(PAIR_ROOM) == {"sa", "sb"};
    server.JoinRoom("sc", GLOBAL_ROOM);
    assert server.Members(PAIR_ROOM) == {"sa", "sb"};
    assert Utf16Length("hi") == 2;
    assert ObjectIdCastable(ID_A) by {
      forall i | 0 <= i < |ID_A|
        ensures IsHexDigit(ID_A[i])
      {
        assert ID_A[i] == if i == 0 then 'a' else '0';
      }
    }
    assert DecideSend(data, 0, 5) == Save(Message(0, Some(ID_A), Some("alice"), PAIR_ROOM, Some("hi"), 5));
    server.SendMsg("sa", data, 5);
    stored := server.store;
    recipients := server.outbox[|server.outbox| - 1].recipients;
  }

  /**
   * Users A and B open their private chat and both land in the pair room.
   * A's "hi" leaves A's client as `send_msg` for that room, and once the
   * server relays it, it lands in B's transcript.
   */
  method PrivateMessageReachesPair() returns (sent: ClientEvent, recipients: set<SocketId>, seenByB: seq<Message>)
    ensures sent == SendMsg(MessageData(Some(ID_A), Some("alice"), Some(PAIR_ROOM), Some("hi"), None))
    ensures recipients == {"sa", "sb"}
    ensures |seenByB| == 1 && seenByB[0].text == Some("hi") && seenByB[0].senderId == Some(ID_A)
  {
    PairRoom();
    var viewA := new ChatView(ID_A, "alice");
    var viewB := new ChatView(ID_B, "bob");
    viewA.StartPersonalChat(ID_B);
    viewB.StartPersonalChat(ID_A);

    viewA.InputChange("hi", 0);
    assert Trim("hi") != "" by {
      TrimEmptyIffBlank("hi");
    }
    viewA.Send();
    sent := viewA.emitted[|viewA.emitted| - 2];

    var stored;
    recipients, stored := PairMessageDelivery(sent.data);
    viewB.LoadHistory([]);
    viewB.HandleNewMessage(stored[0]);
    seenByB := viewB.chat;
  }

  /**
   * Keystrokes at 0 ms and 1500 ms emit one `typing`; the timer re-armed by
   * the second keystroke fires at 3500 ms, not at 2000 ms.
   */
  method TypingStopsAfterIdle() returns (at3000: seq<ClientEvent>, at3500: seq<ClientEvent>)
    ensures at3000 == [Typing(TypingData(GLOBAL_ROOM, Some("alice")))]
    ensures at3500 == at3000 + [StopTyping(TypingData(GLOBAL_ROOM, None))]
  {
    var view := new ChatView("A", "alice");
    view.InputChange("h", 0);
    view.InputChange("hi", 1500);
    view.Tick(3000);
    at3000 := view.emitted;
    view.Tick(3500);
    at3500 := view.emitted;
  }

  /** A pending stop fires for the room it was armed in, even after the user has switched rooms. */
  method StopTypingKeepsArmedRoom() returns (last: ClientEvent, now: string)
    ensures last == StopTyping(TypingData(GLOBAL_ROOM, None))
    ensures now == RoomKey("A", "B") && now != GLOBAL_ROOM
  {
    var view := new ChatView("A", "alice");
    view.InputChange("h", 0);
    view.StartPersonalChat("B");
    view.Tick(2000);
    last := view.emitted[|view.emitted| - 1];
    now := view.room;
    RoomKeyNamesBoth("A", "B");
    NoUnderscoreNotPrivate(GLOBAL_ROOM);
  }
}
