/** The REST controller for rooms and messages, over a store of rooms, room
    memberships and messages. Every handler answers with a status and a JSON
    body; a store call that rejects ends in the 500 `Server error` answer. */
module ChatController {
  import opened Wrappers
  import opened ClientModel
  import Seqs

  datatype Room = Room(id: RoomId, name: string, description: Option<string>, isPrivate: bool, updatedAt: int)

  datatype StoredMessage = StoredMessage(id: string, roomId: RoomId, userId: UserId, content: string, createdAt: int)

  /** A room of `GET /rooms`, with the ids of its members. */
  datatype Listing = Listing(room: Room, members: set<UserId>)

  datatype Body =
    | RoomsBody(rooms: seq<Listing>)
    | MessagesBody(messages: seq<StoredMessage>, totalPages: int, currentPage: int, totalMessages: nat)
    | RoomCreated(room: Room)
    | JoinedRoom
    | Failure(message: string)

  datatype Response = Response(status: int, body: Body)

  const ServerErrorResponse: Response := Response(500, Failure("Server error"))
  const DefaultPage: int := 1
  const DefaultLimit: int := 50

  // ------------------------------------------------------------- getRooms

  predicate NewestFirst(rooms: seq<Room>) {
    forall i, j :: 0 <= i < j < |rooms| ==> rooms[i].updatedAt >= rooms[j].updatedAt
  }

  /** Places `r` before the first room that is not newer than it. */
  function InsertByUpdated(r: Room, sorted: seq<Room>): (out: seq<Room>)
    requires NewestFirst(sorted)
    ensures NewestFirst(out)
    ensures multiset(out) == multiset(sorted) + multiset{r}
    ensures |out| == |sorted| + 1 && (out[0] == r || (sorted != [] && out[0] == sorted[0]))
  {
    if sorted == [] || sorted[0].updatedAt <= r.updatedAt then [r] + sorted
    else
      var rest := InsertByUpdated(r, sorted[1..]);
      InsertBehindHead(r, sorted, rest);
      [sorted[0]] + rest
  }

  /** The recursive step of `InsertByUpdated`: the head of `sorted`, newer than
      `r`, stays in front of the insertion into the tail. */
  lemma InsertBehindHead(r: Room, sorted: seq<Room>, rest: seq<Room>)
    requires NewestFirst(sorted) && sorted != [] && sorted[0].updatedAt > r.updatedAt
    requires NewestFirst(rest) && multiset(rest) == multiset(sorted[1..]) + multiset{r}
    requires |rest| == |sorted| && (rest[0] == r || (sorted[1..] != [] && rest[0] == sorted[1..][0]))
    ensures NewestFirst([sorted[0]] + rest)
    ensures multiset([sorted[0]] + rest) == multiset(sorted) + multiset{r}
  {
    assert sorted == [sorted[0]] + sorted[1..];
    ConsNewestFirst(sorted[0], rest);
  }

  /** A room no older than the head of a newest-first list may go in front of it. */
  lemma ConsNewestFirst(r: Room, rest: seq<Room>)
    requires NewestFirst(rest) && (rest != [] ==> rest[0].updatedAt <= r.updatedAt)
    ensures NewestFirst([r] + rest)
  {
    var out := [r] + rest;
    forall i, j | 0 <= i < j < |out| ensures out[i].updatedAt >= out[j].updatedAt {
      if i == 0 && j > 1 {
        assert out[j] == rest[j - 1] && rest[0].updatedAt >= rest[j - 1].updatedAt;
      }
    }
  }

  /** `order: [['updatedAt', 'DESC']]`. */
  function ByUpdatedDesc(rooms: seq<Room>): (out: seq<Room>)
    ensures NewestFirst(out)
    ensures |out| == |rooms|
    ensures multiset(out) == multiset(rooms)
  {
    if rooms == [] then []
    else
      assert rooms == [rooms[0]] + rooms[1..];
      InsertByUpdated(rooms[0], ByUpdatedDesc(rooms[1..]))
  }

  function MembersOf(members: set<(RoomId, UserId)>, roomId: RoomId): (r: set<UserId>)
    ensures forall u :: u in r <==> (roomId, u) in members
  {
    set p | p in members && p.0 == roomId :: p.1
  }

  /** `getRooms`: every room, newest update first, with its members. */
  function RoomsResponse(rooms: seq<Room>, members: set<(RoomId, UserId)>, ok: bool): (res: Response)
    ensures !ok ==> res == ServerErrorResponse
    ensures ok ==> res.status == 200 && res.body.RoomsBody? && |res.body.rooms| == |rooms|
  {
    if !ok then ServerErrorResponse
    else
      var sorted := ByUpdatedDesc(rooms);
      Response(200, RoomsBody(seq(|sorted|, i requires 0 <= i < |sorted| => Listing(sorted[i], MembersOf(members, sorted[i].id)))))
  }

  /** The rooms are listed newest update first, each exactly as often as it is stored. */
  lemma RoomsAreNewestFirst(rooms: seq<Room>, members: set<(RoomId, UserId)>)
    ensures var listed := RoomsResponse(rooms, members, true).body.rooms;
      && (forall i, j :: 0 <= i < j < |listed| ==> listed[i].room.updatedAt >= listed[j].room.updatedAt)
      && multiset(seq(|listed|, i requires 0 <= i < |listed| => listed[i].room)) == multiset(rooms)
      && (forall i :: 0 <= i < |listed| ==> forall u :: u in listed[i].members <==> (listed[i].room.id, u) in members)
  {
    var sorted := ByUpdatedDesc(rooms);
    var listed := RoomsResponse(rooms, members, true).body.rooms;
    assert seq(|listed|, i requires 0 <= i < |listed| => listed[i].room) == sorted;
  }

  // ---------------------------------------------------------- getMessages

  /** `offset = (page - 1) * limit`. */
  function Offset(page: int, limit: int): (offset: nat)
    requires page >= 1 && limit >= 1
    ensures offset == (page - 1) * limit
  {
    (page - 1) * limit
  }

  /** `Math.ceil(count / limit)`. */
  function TotalPages(count: nat, limit: int): (pages: nat)
    requires limit >= 1
  {
    (count + limit - 1) / limit
  }

  /** `TotalPages` is the ceiling of the quotient: the fewest pages of
      `limit` messages that hold `count` messages. */
  lemma TotalPagesIsCeiling(count: nat, limit: int)
    requires limit >= 1
    ensures TotalPages(count, limit) * limit >= count
    ensures count > 0 ==> (TotalPages(count, limit) - 1) * limit < count
    ensures count == 0 <==> TotalPages(count, limit) == 0
  {
    var q := (count + limit - 1) / limit;
    var r := (count + limit - 1) % limit;
    assert count + limit - 1 == q * limit + r;
    assert (q - 1) * limit == q * limit - limit;
  }

  predicate OldestFirst(ms: seq<StoredMessage>) {
    forall i, j :: 0 <= i < j < |ms| ==> ms[i].createdAt <= ms[j].createdAt
  }

  /** Places `m` before the first message that is not older than it. */
  function InsertByCreated(m: StoredMessage, sorted: seq<StoredMessage>): (out: seq<StoredMessage>)
    requires OldestFirst(sorted)
    ensures OldestFirst(out)
    ensures multiset(out) == multiset(sorted) + multiset{m}
    ensures |out| == |sorted| + 1 && (out[0] == m || (sorted != [] && out[0] == sorted[0]))
  {
    if sorted == [] || m.createdAt <= sorted[0].createdAt then [m] + sorted
    else
      var rest := InsertByCreated(m, sorted[1..]);
      InsertStep(m, sorted, rest);
      [sorted[0]] + rest
  }

  /** The recursive case of `InsertByCreated`: `m` went into the tail. */
  lemma InsertStep(m: StoredMessage, sorted: seq<StoredMessage>, rest: seq<StoredMessage>)
    requires sorted != [] && OldestFirst(sorted) && sorted[0].createdAt < m.createdAt
    requires OldestFirst(rest) && multiset(rest) == multiset(sorted[1..]) + multiset{m}
    requires |rest| == |sorted| && (rest[0] == m || (|sorted| > 1 && rest[0] == sorted[1]))
    ensures OldestFirst([sorted[0]] + rest)
    ensures multiset([sorted[0]] + rest) == multiset(sorted) + multiset{m}
  {
    assert sorted == [sorted[0]] + sorted[1..];
    ConsOldestFirst(sorted[0], rest);
  }

  /** A message no newer than the head of an oldest-first list may go in front of it. */
  lemma ConsOldestFirst(m: StoredMessage, rest: seq<StoredMessage>)
    requires OldestFirst(rest) && (rest != [] ==> m.createdAt <= rest[0].createdAt)
    ensures OldestFirst([m] + rest)
  {
    var out := [m] + rest;
    forall i, j | 0 <= i < j < |out| ensures out[i].createdAt <= out[j].createdAt {
      if i == 0 && j > 1 {
        assert out[j] == rest[j - 1] && rest[0].createdAt <= rest[j - 1].createdAt;
      }
    }
  }

  /** The messages by `createdAt`, oldest first. */
  function ByCreated(ms: seq<StoredMessage>): (out: seq<StoredMessage>)
    ensures OldestFirst(out)
    ensures |out| == |ms|
    ensures multiset(out) == multiset(ms)
  {
    if ms == [] then []
    else
      assert ms == [ms[0]] + ms[1..];
      InsertByCreated(ms[0], ByCreated(ms[1..]))
  }

  /** The room's messages (`where: { roomId }`) by creation time, oldest
      first; `order: [['createdAt', 'DESC']]` is this order read backwards. */
  function RoomMessages(all: seq<StoredMessage>, roomId: RoomId): (ms: seq<StoredMessage>)
    ensures OldestFirst(ms)
    ensures forall m :: m in ms <==> m in all && m.roomId == roomId
    ensures multiset(ms) == multiset(Seqs.Filter(all, (m: StoredMessage) => m.roomId == roomId))
  {
    var p := (m: StoredMessage) => m.roomId == roomId;
    Seqs.FilterMembers(all, p);
    var f := Seqs.Filter(all, p);
    var ms := ByCreated(f);
    assert forall m :: m in ms <==> m in multiset(ms);
    assert forall m :: m in f <==> m in multiset(f);
    ms
  }

  /** `findAndCountAll` ordered newest first with `limit` and `offset`, then
      `rows.reverse()`, over messages given oldest first. */
  function PageOf(ms: seq<StoredMessage>, offset: nat, limit: nat): seq<StoredMessage> {
    var newest := Seqs.Reverse(ms);
    if offset >= |newest| then []
    else Seqs.Reverse(newest[offset..if offset + limit <= |newest| then offset + limit else |newest|])
  }

  /** `getMessages(roomId)` with the query's `page` and `limit` (`None` when absent). */
  function MessagesResponse(all: seq<StoredMessage>, roomId: RoomId, page: Option<int>, limit: Option<int>, ok: bool): (res: Response)
    requires page.GetOr(DefaultPage) >= 1 && limit.GetOr(DefaultLimit) >= 1
    ensures !ok ==> res == ServerErrorResponse
    ensures ok ==> res.status == 200 && res.body.MessagesBody?
    ensures ok ==> res.body.totalMessages == |RoomMessages(all, roomId)| && res.body.currentPage == page.GetOr(DefaultPage)
    ensures ok ==> res.body.totalPages == TotalPages(|RoomMessages(all, roomId)|, limit.GetOr(DefaultLimit))
    ensures ok ==> res.body.messages == PageOf(RoomMessages(all, roomId),
                                               Offset(page.GetOr(DefaultPage), limit.GetOr(DefaultLimit)),
                                               limit.GetOr(DefaultLimit))
  {
    if !ok then ServerErrorResponse
    else
      var p := page.GetOr(DefaultPage);
      var l := limit.GetOr(DefaultLimit);
      var ms := RoomMessages(all, roomId);
      Response(200, MessagesBody(PageOf(ms, Offset(p, l), l), TotalPages(|ms|, l), p, |ms|))
  }

  /** The page is a run of consecutive room messages, oldest first: the
      `limit` messages that end `offset` messages before the newest. */
  lemma PageIsChronologicalWindow(ms: seq<StoredMessage>, offset: nat, limit: nat)
    ensures var n := |ms|;
      var hi := if offset >= n then 0 else n - offset;
      var lo := if offset + limit >= n then 0 else n - offset - limit;
      PageOf(ms, offset, limit) == ms[lo..hi]
  {
    var n := |ms|;
    if offset < n {
      var b := if offset + limit <= n then offset + limit else n;
      Seqs.ReverseSliceOfReverse(ms, offset, b);
    }
  }

  /** A page holds at most `limit` messages. */
  lemma PageSize(ms: seq<StoredMessage>, offset: nat, limit: nat)
    ensures |PageOf(ms, offset, limit)| <= limit
  {
    PageIsChronologicalWindow(ms, offset, limit);
  }

  /** Page 1 holds the most recent `limit` messages of the room, oldest first,
      and only that room's messages appear on any page. */
  lemma FirstPageIsLatest(all: seq<StoredMessage>, roomId: RoomId, limit: int)
    requires limit >= 1
    ensures var ms := RoomMessages(all, roomId);
      MessagesResponse(all, roomId, None, Some(limit), true).body.messages == ms[if limit >= |ms| then 0 else |ms| - limit..]
    ensures var ms := RoomMessages(all, roomId);
      var page := MessagesResponse(all, roomId, None, Some(limit), true).body.messages;
      forall i, j :: 0 <= i < |ms| - |page| && 0 <= j < |page| ==> ms[i].createdAt <= page[j].createdAt
  {
    var ms := RoomMessages(all, roomId);
    assert Offset(1, limit) == 0;
    PageIsChronologicalWindow(ms, 0, limit);
  }

  /** A page is an ordered window of the room's messages, so it holds only
      messages of the list it was cut from, oldest first. */
  lemma PageHoldsWindow(ms: seq<StoredMessage>, offset: nat, limit: nat)
    ensures forall m :: m in PageOf(ms, offset, limit) ==> m in ms
    ensures OldestFirst(ms) ==> OldestFirst(PageOf(ms, offset, limit))
  {
    var n := |ms|;
    var hi := if offset >= n then 0 else n - offset;
    var lo := if offset + limit >= n then 0 else n - offset - limit;
    PageIsChronologicalWindow(ms, offset, limit);
    SliceHoldsItsElements(ms, lo, hi);
  }

  /** A slice of an oldest-first list holds only elements of the list, oldest first. */
  lemma SliceHoldsItsElements(ms: seq<StoredMessage>, lo: nat, hi: nat)
    requires lo <= hi <= |ms|
    ensures forall m :: m in ms[lo..hi] ==> m in ms
    ensures OldestFirst(ms) ==> OldestFirst(ms[lo..hi])
  {
    var page := ms[lo..hi];
    forall m | m in page ensures m in ms {
      var k :| 0 <= k < |page| && page[k] == m;
      assert ms[lo + k] == m;
    }
    if OldestFirst(ms) {
      forall i, j | 0 <= i < j < |page| ensures page[i].createdAt <= page[j].createdAt {
        assert page[i] == ms[lo + i] && page[j] == ms[lo + j];
      }
    }
  }

  /** Every message on a page of a room belongs to that room, and the page
      runs oldest first. */
  lemma PagesHoldOnlyTheRoom(all: seq<StoredMessage>, roomId: RoomId, offset: nat, limit: nat)
    ensures forall m :: m in PageOf(RoomMessages(all, roomId), offset, limit) ==> m.roomId == roomId && m in all
    ensures OldestFirst(PageOf(RoomMessages(all, roomId), offset, limit))
  {
    PageHoldsWindow(RoomMessages(all, roomId), offset, limit);
  }

  /** Consecutive pages meet without gap or overlap: page `p + 1`, then page
      `p`, is the window of twice the size at page `p`'s offset. */
  lemma PagesTile(ms: seq<StoredMessage>, offset: nat, limit: nat)
    ensures PageOf(ms, offset + limit, limit) + PageOf(ms, offset, limit) == PageOf(ms, offset, 2 * limit)
  {
    PageIsChronologicalWindow(ms, offset, limit);
    PageIsChronologicalWindow(ms, offset + limit, limit);
    PageIsChronologicalWindow(ms, offset, 2 * limit);
    var n := |ms|;
    var a := if offset + 2 * limit >= n then 0 else n - offset - 2 * limit;
    var b := if offset + limit >= n then 0 else n - offset - limit;
    var c := if offset >= n then 0 else n - offset;
    assert ms[a..c] == ms[a..b] + ms[b..c];
  }

  /** The page offsets step by `limit`. */
  lemma NextPageOffset(page: int, limit: int)
    requires page >= 1 && limit >= 1
    ensures Offset(page + 1, limit) == Offset(page, limit) + limit
  {
  }

  // ------------------------------------------------- createRoom, joinRoom

  /** `name` is required and 1 to 50 characters long (the model's validation). */
  predicate ValidRoomName(name: Option<string>) {
    name.Some? && 1 <= |name.value| <= 50
  }

  /** Some stored room has the id. */
  predicate IsStored(rooms: seq<Room>, id: RoomId) {
    exists k :: 0 <= k < |rooms| && rooms[k].id == id
  }

  /** The rooms, their members and the messages, as the controller sees them. */
  class Api {
    var rooms: seq<Room>
    var members: set<(RoomId, UserId)>
    var messages: seq<StoredMessage>

    constructor (rooms0: seq<Room>, members0: set<(RoomId, UserId)>, messages0: seq<StoredMessage>)
      ensures rooms == rooms0 && members == members0 && messages == messages0
    {
      rooms, members, messages := rooms0, members0, messages0;
    }

    method GetRooms(ok: bool) returns (res: Response)
      ensures res == RoomsResponse(rooms, members, ok)
    {
      res := RoomsResponse(rooms, members, ok);
    }

    method GetMessages(roomId: RoomId, page: Option<int>, limit: Option<int>, ok: bool) returns (res: Response)
      requires page.GetOr(DefaultPage) >= 1 && limit.GetOr(DefaultLimit) >= 1
      ensures res == MessagesResponse(messages, roomId, page, limit, ok)
    {
      if !ok {
        return ServerErrorResponse;
      }
      var p := page.GetOr(DefaultPage);
      var l := limit.GetOr(DefaultLimit);
      var ms := RoomMessages(messages, roomId);
      var rows := PageOf(ms, Offset(p, l), l);
      res := Response(200, MessagesBody(rows, TotalPages(|ms|, l), p, |ms|));
    }

    /** `createRoom` by `creator`; `newId` and `now` are the id and time the
        store assigns, `createOk`/`addOk` whether `Room.create` and
        `room.addUser` succeed. A failed `addUser` leaves the room created. */
    method CreateRoom(name: Option<string>, description: Option<string>, isPrivate: Option<bool>,
                      creator: UserId, newId: RoomId, now: int, createOk: bool, addOk: bool) returns (res: Response)
      modifies this
      ensures var room := Room(newId, name.GetOr(""), description, isPrivate.GetOr(false), now);
        && (ValidRoomName(name) && createOk && addOk ==>
              rooms == old(rooms) + [room] && members == old(members) + {(newId, creator)}
              && res == Response(201, RoomCreated(room)))
        && (ValidRoomName(name) && createOk && !addOk ==>
              rooms == old(rooms) + [room] && members == old(members) && res == ServerErrorResponse)
        && (!(ValidRoomName(name) && createOk) ==>
              rooms == old(rooms) && members == old(members) && res == ServerErrorResponse)
      ensures messages == old(messages)
    {
      if !ValidRoomName(name) || !createOk {
        return ServerErrorResponse;
      }
      var room := Room(newId, name.value, description, isPrivate.GetOr(false), now);
      rooms := rooms + [room];
      if !addOk {
        return ServerErrorResponse;
      }
      members := members + {(newId, creator)};
      res := Response(201, RoomCreated(room));
    }

    /** `joinRoom` by `user`; `lookupOk` and `addOk` say whether
        `Room.findByPk` and `room.addUser` succeed. The lookup finds the room
        exactly when it is stored. */
    method JoinRoom(roomId: RoomId, user: UserId, lookupOk: bool, addOk: bool) returns (res: Response)
      modifies this
      ensures rooms == old(rooms) && messages == old(messages)
      ensures !lookupOk ==> res == ServerErrorResponse && members == old(members)
      ensures lookupOk && !IsStored(rooms, roomId) ==> res == Response(404, Failure("Room not found")) && members == old(members)
      ensures lookupOk && IsStored(rooms, roomId) && !addOk ==> res == ServerErrorResponse && members == old(members)
      ensures lookupOk && IsStored(rooms, roomId) && addOk ==>
        res == Response(200, JoinedRoom) && members == old(members) + {(roomId, user)}
    {
      if !lookupOk {
        return ServerErrorResponse;
      }
      if !IsStored(rooms, roomId) {
        return Response(404, Failure("Room not found"));
      }
      if !addOk {
        return ServerErrorResponse;
      }
      members := members + {(roomId, user)};
      res := Response(200, JoinedRoom);
    }
  }
}
