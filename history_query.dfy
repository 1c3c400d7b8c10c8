/**
 * The room-history read path of `GET /messages/:room`: the private-room guard
 * and the query "messages of this room, ascending by `createdAt`, at most 50".
 * The query keeps the 50 OLDEST messages of the room.
 */
module HistoryQuery {
  import opened JsString
  import opened MessageModel

  const HISTORY_LIMIT: nat := 50

  /**
   * The guard: a room whose name contains "_" is private, and a requester
   * whose id does not occur in the name is refused. Rooms without "_" are open
   * to every authenticated user.
   */
  predicate Denied(room: string, userId: string) {
    Includes(room, "_") && !Includes(room, userId)
  }

  /** `Message.find({ room })`: the stored records of exactly that room, in store order. */
  function InRoom(store: seq<Message>, room: string): (r: seq<Message>)
    ensures |r| <= |store|
    ensures forall m :: multiset(r)[m] == if m.room == room then multiset(store)[m] else 0
  {
    if store == [] then []
    else
      assert store == [store[0]] + store[1..];
      (if store[0].room == room then [store[0]] else []) + InRoom(store[1..], room)
  }

  /** Ascending by `createdAt`: each message is no earlier than the one before it. */
  predicate SortedByCreatedAt(s: seq<Message>) {
    |s| < 2 || (s[0].createdAt <= s[1].createdAt && SortedByCreatedAt(s[1..]))
  }

  lemma {:induction false} SortedAt(s: seq<Message>, i: nat, j: nat)
    requires SortedByCreatedAt(s) && i <= j < |s|
    ensures s[i].createdAt <= s[j].createdAt
  {
    if i < j {
      SortedAt(s[1..], if i == 0 then 0 else i - 1, j - 1);
    }
  }

  lemma {:induction false} SortedPrefix(s: seq<Message>, k: nat)
    requires SortedByCreatedAt(s) && k <= |s|
    ensures SortedByCreatedAt(s[..k])
  {
    if k >= 2 {
      SortedPrefix(s[1..], k - 1);
      assert s[..k][1..] == s[1..][..k - 1];
    }
  }

  /** `m` placed before the first element that is not earlier than it. */
  function Insert(m: Message, s: seq<Message>): (r: seq<Message>)
    requires SortedByCreatedAt(s)
    ensures SortedByCreatedAt(r)
    ensures multiset(r) == multiset(s) + multiset{m}
    ensures r[0] == m || (s != [] && r[0] == s[0])
  {
    if s == [] || m.createdAt <= s[0].createdAt then [m] + s
    else
      assert s == [s[0]] + s[1..];
      [s[0]] + Insert(m, s[1..])
  }

  /** `.sort({ createdAt: 1 })`: a stable insertion sort. */
  function SortByCreatedAt(s: seq<Message>): (r: seq<Message>)
    ensures SortedByCreatedAt(r)
    ensures multiset(r) == multiset(s)
  {
    if s == [] then []
    else
      assert s == [s[0]] + s[1..];
      Insert(s[0], SortByCreatedAt(s[1..]))
  }

  /** `.limit(50)`: the first 50 elements, or all of them when there are fewer. */
  function Limit(s: seq<Message>): (r: seq<Message>)
    ensures |r| == (if |s| <= HISTORY_LIMIT then |s| else HISTORY_LIMIT)
    ensures r == s[..|r|]
  {
    if |s| <= HISTORY_LIMIT then s else s[..HISTORY_LIMIT]
  }

  /** The query: filter by room, sort ascending, `.limit(50)`. */
  function History(store: seq<Message>, room: string): seq<Message> {
    Limit(SortByCreatedAt(InRoom(store, room)))
  }

  /**
   * What the query promises, independent of how ties are ordered: messages of
   * that room only, drawn from the store, ascending, as many as the room has up
   * to 50, and none of the room's messages left out is earlier than one
   * returned.
   */
  ghost predicate IsHistoryOf(store: seq<Message>, room: string, r: seq<Message>) {
    var all := InRoom(store, room);
    && (forall i :: 0 <= i < |r| ==> r[i].room == room)
    && multiset(r) <= multiset(all)
    && SortedByCreatedAt(r)
    && |r| == (if |all| <= HISTORY_LIMIT then |all| else HISTORY_LIMIT)
    && (forall m, i :: m in multiset(all) - multiset(r) && 0 <= i < |r| ==> r[i].createdAt <= m.createdAt)
  }

  /** What a prefix of a sequence leaves out is the rest of it. */
  lemma PrefixLeavesRest(s: seq<Message>, k: nat)
    requires k <= |s|
    ensures multiset(s) - multiset(s[..k]) == multiset(s[k..])
  {
    assert s == s[..k] + s[k..];
  }

  lemma PrefixIncluded(s: seq<Message>, k: nat)
    requires k <= |s|
    ensures multiset(s[..k]) <= multiset(s)
  {
    assert s == s[..k] + s[k..];
  }

  /** In a sorted sequence nothing after position `k` is earlier than anything before it. */
  lemma SortedPrefixIsEarliest(s: seq<Message>, k: nat)
    requires SortedByCreatedAt(s) && k <= |s|
    ensures forall m, i :: m in multiset(s[k..]) && 0 <= i < k ==> s[i].createdAt <= m.createdAt
  {
    forall m, i | m in multiset(s[k..]) && 0 <= i < k
      ensures s[i].createdAt <= m.createdAt
    {
      assert m in s[k..];
      var j :| 0 <= j < |s| - k && s[k..][j] == m;
      SortedAt(s, i, k + j);
    }
  }

  /** The history is a prefix of the sorted room messages, of the size `.limit(50)` allows. */
  lemma HistoryIsSortedPrefix(store: seq<Message>, room: string)
    ensures var sorted := SortByCreatedAt(InRoom(store, room));
            var r := History(store, room);
            && |r| <= |sorted| && r == sorted[..|r|]
            && |r| == (if |sorted| <= HISTORY_LIMIT then |sorted| else HISTORY_LIMIT)
  {
    var sorted := SortByCreatedAt(InRoom(store, room));
    assert History(store, room) == Limit(sorted);
  }

  lemma HistoryFromRoom(store: seq<Message>, room: string)
    ensures var r := History(store, room);
            && multiset(r) <= multiset(InRoom(store, room))
            && (forall i :: 0 <= i < |r| ==> r[i].room == room)
  {
    var all := InRoom(store, room);
    var sorted := SortByCreatedAt(all);
    var r := History(store, room);
    assert r == Limit(sorted);
    PrefixIncluded(sorted, |r|);
    forall i | 0 <= i < |r| ensures r[i].room == room {
      assert r[i] in multiset(all);
    }
  }

  lemma HistoryEarliest(store: seq<Message>, room: string)
    ensures var r := History(store, room);
            forall m, i :: m in multiset(InRoom(store, room)) - multiset(r) && 0 <= i < |r| ==> r[i].createdAt <= m.createdAt
  {
    var all := InRoom(store, room);
    var sorted := SortByCreatedAt(all);
    var r := History(store, room);
    assert r == Limit(sorted) == sorted[..|r|];
    PrefixLeavesRest(sorted, |r|);
    assert multiset(all) - multiset(r) == multiset(sorted[|r|..]);
    SortedPrefixIsEarliest(sorted, |r|);
  }

  lemma HistoryMeetsSpec(store: seq<Message>, room: string)
    ensures IsHistoryOf(store, room, History(store, room))
  {
    HistoryIsSortedPrefix(store, room);
    HistoryFromRoom(store, room);
    HistoryEarliest(store, room);
    var r := History(store, room);
    SortedPrefix(SortByCreatedAt(InRoom(store, room)), |r|);
  }

  /** An element found at two positions occurs at least twice. */
  lemma TwoPositionsTwoCopies(s: seq<Message>, i: nat, j: nat)
    requires i < j < |s| && s[i] == s[j]
    ensures multiset(s)[s[i]] >= 2
  {
    assert s == s[..j] + s[j..];
    assert s[i] == s[..j][i];
    assert s[j] == s[j..][0];
  }

  /** In a sorted sequence, an element that is alone and strictly latest sits after every proper prefix. */
  lemma LatestOutsidePrefix(sorted: seq<Message>, k: nat, newest: Message)
    requires SortedByCreatedAt(sorted) && k < |sorted|
    requires multiset(sorted)[newest] == 1
    requires forall x :: x in sorted && x != newest ==> x.createdAt < newest.createdAt
    ensures newest !in sorted[..k]
  {
    if newest in sorted[..k] {
      var i :| 0 <= i < k && sorted[..k][i] == newest;
      SortedAt(sorted, i, k);
      if sorted[k] == newest {
        TwoPositionsTwoCopies(sorted, i, k);
      }
    }
  }

  /**
   * The query does not return the newest messages: when a room holds more
   * than 50, its single newest message is not among those returned.
   */
  lemma NewestIsLeftOutWhenFull(store: seq<Message>, room: string, newest: Message)
    requires |InRoom(store, room)| > HISTORY_LIMIT
    requires multiset(InRoom(store, room))[newest] == 1
    requires forall x :: x in InRoom(store, room) && x != newest ==> x.createdAt < newest.createdAt
    ensures newest !in History(store, room)
  {
    var all := InRoom(store, room);
    var sorted := SortByCreatedAt(all);
    assert multiset(sorted) == multiset(all);
    forall x | x in sorted && x != newest ensures x.createdAt < newest.createdAt {
      assert x in multiset(all);
    }
    LatestOutsidePrefix(sorted, HISTORY_LIMIT, newest);
  }
}
