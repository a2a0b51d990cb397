/** The client's chat state: the reducer over a closed set of tagged actions,
    and the provider that drives it from REST responses, socket events and
    the 3000 ms typing-removal timers. */
module ChatContext {
  import opened Wrappers
  import opened ClientModel
  import Seqs

  /** How long a typing name stays before its scheduled removal. */
  const TypingTimeoutMs: int := 3000

  datatype ChatState = ChatState(
    rooms: seq<RoomView>,
    currentRoom: Option<RoomView>,
    messages: seq<ChatMessage>,
    onlineUsers: seq<OnlineEntry>,
    typingUsers: seq<string>,
    loading: bool,
    error: Option<string>)

  /** The dispatched actions. `RemoveTypingUser` carries an optional name
      because the stop-typing listener passes `data.username`, which the
      server's `userStoppedTyping` payload does not have. `Unrecognised`
      stands for any other `type` string. */
  datatype Action =
    | SetLoading(loading: bool)
    | SetRooms(rooms: seq<RoomView>)
    | AddRoom(room: RoomView)
    | SetCurrentRoom(current: Option<RoomView>)
    | SetMessages(messages: seq<ChatMessage>)
    | AddMessage(message: ChatMessage)
    | SetOnlineUsers(users: seq<OnlineEntry>)
    | UpdateUserOnline(entry: OnlineEntry)
    | UpdateUserOffline(userId: Option<UserId>)
    | SetTypingUsers(names: seq<string>)
    | AddTypingUser(name: string)
    | RemoveTypingUser(removed: Option<string>)
    | SetError(error: Option<string>)
    | Unrecognised(tag: string)

  const InitialState: ChatState := ChatState([], None, [], [], [], false, None)

  /** `state.onlineUsers.some(u => u.id === userId)`; `None == None` is
      JavaScript's `undefined === undefined`. */
  predicate HasOnlineId(users: seq<OnlineEntry>, userId: Option<UserId>) {
    exists k :: 0 <= k < |users| && users[k].id == userId
  }

  /** `chatReducer`. */
  function Reduce(s: ChatState, a: Action): ChatState {
    match a
    case SetLoading(b) => s.(loading := b)
    case SetRooms(rs) => s.(rooms := rs)
    case AddRoom(r) => s.(rooms := [r] + s.rooms)
    case SetCurrentRoom(r) => s.(currentRoom := r)
    case SetMessages(ms) => s.(messages := ms)
    case AddMessage(m) => s.(messages := s.messages + [m])
    case SetOnlineUsers(us) => s.(onlineUsers := us)
    case UpdateUserOnline(e) =>
      s.(onlineUsers := if HasOnlineId(s.onlineUsers, e.userId) then s.onlineUsers else s.onlineUsers + [e])
    case UpdateUserOffline(uid) => s.(onlineUsers := Seqs.Filter(s.onlineUsers, (u: OnlineEntry) => u.id != uid))
    case SetTypingUsers(ns) => s.(typingUsers := ns)
    case AddTypingUser(n) => s.(typingUsers := if n in s.typingUsers then s.typingUsers else s.typingUsers + [n])
    case RemoveTypingUser(n) => s.(typingUsers := Seqs.Filter(s.typingUsers, (u: string) => n != Some(u)))
    case SetError(e) => s.(error := e)
    case Unrecognised(_) => s
  }

  /** The fields of the state, to say which ones an action may rewrite. */
  datatype Field = Rooms | CurrentRoom | Messages | OnlineUsers | TypingUsers | Loading | Error

  function Writes(a: Action): set<Field> {
    match a
    case SetLoading(_) => {Loading}
    case SetRooms(_) => {Rooms}
    case AddRoom(_) => {Rooms}
    case SetCurrentRoom(_) => {CurrentRoom}
    case SetMessages(_) => {Messages}
    case AddMessage(_) => {Messages}
    case SetOnlineUsers(_) => {OnlineUsers}
    case UpdateUserOnline(_) => {OnlineUsers}
    case UpdateUserOffline(_) => {OnlineUsers}
    case SetTypingUsers(_) => {TypingUsers}
    case AddTypingUser(_) => {TypingUsers}
    case RemoveTypingUser(_) => {TypingUsers}
    case SetError(_) => {Error}
    case Unrecognised(_) => {}
  }

  predicate AgreeOutside(s: ChatState, t: ChatState, fs: set<Field>) {
    && (Rooms !in fs ==> t.rooms == s.rooms)
    && (CurrentRoom !in fs ==> t.currentRoom == s.currentRoom)
    && (Messages !in fs ==> t.messages == s.messages)
    && (OnlineUsers !in fs ==> t.onlineUsers == s.onlineUsers)
    && (TypingUsers !in fs ==> t.typingUsers == s.typingUsers)
    && (Loading !in fs ==> t.loading == s.loading)
    && (Error !in fs ==> t.error == s.error)
  }

  /** Each action rewrites at most its own field; an unrecognised type
      returns the state unchanged. */
  lemma ReduceWritesOnlyItsField(s: ChatState, a: Action)
    ensures AgreeOutside(s, Reduce(s, a), Writes(a))
    ensures a.Unrecognised? ==> Reduce(s, a) == s
  {
  }

  /** `ADD_MESSAGE` appends the payload after all earlier messages. */
  lemma AddMessageAppends(s: ChatState, m: ChatMessage)
    ensures var r := Reduce(s, AddMessage(m));
      && |r.messages| == |s.messages| + 1
      && r.messages[..|s.messages|] == s.messages
      && r.messages[|s.messages|] == m
      && r.(messages := s.messages) == s
  {
  }

  /** `UPDATE_USER_ONLINE` appends the payload unless some entry's `id` equals
      the payload's `userId`. */
  lemma UserOnlineAppendsUnlessPresent(s: ChatState, e: OnlineEntry)
    ensures var r := Reduce(s, UpdateUserOnline(e));
      && ((exists k :: 0 <= k < |s.onlineUsers| && s.onlineUsers[k].id == e.userId) ==> r == s)
      && ((forall k :: 0 <= k < |s.onlineUsers| ==> s.onlineUsers[k].id != e.userId) ==>
            r == s.(onlineUsers := s.onlineUsers + [e]))
  {
  }

  /** `UPDATE_USER_OFFLINE` removes exactly the entries whose `id` is the
      payload's `userId` and keeps the others in their order. */
  lemma UserOfflineRemovesExactly(s: ChatState, userId: Option<UserId>)
    ensures var r := Reduce(s, UpdateUserOffline(userId));
      && (forall u :: u in r.onlineUsers <==> u in s.onlineUsers && u.id != userId)
      && Seqs.IsSubsequence(r.onlineUsers, s.onlineUsers)
      && (forall u :: multiset(r.onlineUsers)[u] == if u.id != userId then multiset(s.onlineUsers)[u] else 0)
      && r.(onlineUsers := s.onlineUsers) == s
  {
    var p := (u: OnlineEntry) => u.id != userId;
    Seqs.FilterCount(s.onlineUsers, p);
    Seqs.FilterMembers(s.onlineUsers, p);
    Seqs.FilterIsSubsequence(s.onlineUsers, p);
  }

  /** `ADD_TYPING_USER` never creates a duplicate and is idempotent. */
  lemma AddTypingUserIdempotent(s: ChatState, name: string)
    ensures var r := Reduce(s, AddTypingUser(name));
      && name in r.typingUsers
      && Reduce(r, AddTypingUser(name)) == r
      && ((forall i, j :: 0 <= i < j < |s.typingUsers| ==> s.typingUsers[i] != s.typingUsers[j]) ==>
            (forall i, j :: 0 <= i < j < |r.typingUsers| ==> r.typingUsers[i] != r.typingUsers[j]))
  {
  }

  /** After `REMOVE_TYPING_USER name` the name is gone, every other name stays,
      and the order of the others is kept. */
  lemma RemoveTypingUserRemoves(s: ChatState, name: string)
    ensures var r := Reduce(s, RemoveTypingUser(Some(name)));
      && name !in r.typingUsers
      && (forall u :: u in r.typingUsers <==> u in s.typingUsers && u != name)
      && Seqs.IsSubsequence(r.typingUsers, s.typingUsers)
      && (forall u :: multiset(r.typingUsers)[u] == if u != name then multiset(s.typingUsers)[u] else 0)
  {
    var p := (u: string) => Some(name) != Some(u);
    Seqs.FilterCount(s.typingUsers, p);
    Seqs.FilterMembers(s.typingUsers, p);
    Seqs.FilterIsSubsequence(s.typingUsers, p);
  }

  /** A removal without a name (`data.username` undefined) removes nothing. */
  lemma RemoveWithoutNameKeepsAll(s: ChatState)
    ensures Reduce(s, RemoveTypingUser(None)) == s
  {
    Seqs.FilterKeepsAll(s.typingUsers, (u: string) => None != Some(u));
  }

  /** An entry appended from a `userOnline` payload has no `id`, so the
      matching `userOffline` does not remove it and a second `userOnline` for
      the same user appends it again. */
  lemma OnlineEventEntryOutlivesOffline(s: ChatState, uid: UserId, name: string)
    requires forall k :: 0 <= k < |s.onlineUsers| ==> s.onlineUsers[k].id != Some(uid)
    ensures var e := OnlineEntry(None, Some(uid), name, None);
      var r := Reduce(s, UpdateUserOnline(e));
      && Reduce(r, UpdateUserOnline(e)).onlineUsers == s.onlineUsers + [e, e]
      && e in Reduce(r, UpdateUserOffline(Some(uid))).onlineUsers
  {
    var e := OnlineEntry(None, Some(uid), name, None);
    var r := Reduce(s, UpdateUserOnline(e));
    assert r.onlineUsers == s.onlineUsers + [e];
    assert !HasOnlineId(r.onlineUsers, e.userId);
    var p := (u: OnlineEntry) => u.id != Some(uid);
    Seqs.FilterMembers(r.onlineUsers, p);
    assert e in r.onlineUsers;
  }

  /** A removal scheduled by an earlier typing signal removes the name even
      when the same user signalled again afterwards: the timers are neither
      cancelled nor refreshed. */
  lemma EarlierTimerRemovesRefreshedTyper(s: ChatState, name: string)
    ensures var twice := Reduce(Reduce(s, AddTypingUser(name)), AddTypingUser(name));
      && name in twice.typingUsers
      && name !in Reduce(twice, RemoveTypingUser(Some(name))).typingUsers
  {
    var twice := Reduce(Reduce(s, AddTypingUser(name)), AddTypingUser(name));
    RemoveTypingUserRemoves(twice, name);
  }

  /** A pending removal: `REMOVE_TYPING_USER name` is dispatched at `due`. */
  datatype TypingTimer = TypingTimer(name: string, due: int)

  /** What `loadMessages` puts in the message list: page 1 replaces it, a
      later page goes before the messages already shown. */
  function MessagesAfterLoad(page: int, fetched: seq<ChatMessage>, shown: seq<ChatMessage>): (r: seq<ChatMessage>)
    ensures fetched <= r
    ensures multiset(r) == multiset(fetched) + (if page == 1 then multiset{} else multiset(shown))
    ensures page != 1 ==> |shown| <= |r| && r[|r| - |shown|..] == shown
  {
    if page == 1 then fetched else fetched + shown
  }

  /** An outgoing call on the socket wrapper. */
  datatype SocketCall = JoinRoomCall(roomId: RoomId) | LeaveRoomCall(roomId: RoomId)

  /** What `createRoom` and `joinRoom` return to their caller. */
  datatype CallOutcome = Succeeded | Failed(error: string)

  /** Position of the first room with the given id (`findIndex`). */
  function FindRoomIndex(rooms: seq<RoomView>, id: RoomId): (k: Option<nat>)
    ensures k.Some? ==>
              && k.value < |rooms| && rooms[k.value].id == id
              && forall j :: 0 <= j < k.value ==> rooms[j].id != id
    ensures k.None? ==> forall j :: 0 <= j < |rooms| ==> rooms[j].id != id
  {
    if rooms == [] then None
    else if rooms[0].id == id then Some(0)
    else
      match FindRoomIndex(rooms[1..], id)
      case None => None
      case Some(k) => Some(k + 1)
  }

  /** The first room with the given id, as `rooms.find` returns it. */
  function FindRoom(rooms: seq<RoomView>, id: RoomId): (r: Option<RoomView>)
    ensures r.Some? ==> r.value in rooms && r.value.id == id
    ensures r.Some? ==> exists k :: FindRoomIndex(rooms, id) == Some(k) && r.value == rooms[k]
    ensures r.None? ==> forall k :: 0 <= k < |rooms| ==> rooms[k].id != id
  {
    match FindRoomIndex(rooms, id)
    case None => None
    case Some(k) => Some(rooms[k])
  }

  /** `ChatProvider`: the reducer's current state and the pending typing
      removals, driven one event at a time. */
  class ChatProvider {
    var state: ChatState
    /** Removals scheduled by `userTyping` events and not yet fired, in scheduling order. */
    var timers: seq<TypingTimer>

    constructor ()
      ensures state == InitialState && timers == []
    {
      state := InitialState;
      timers := [];
    }

    method Dispatch(a: Action)
      modifies this
      ensures state == Reduce(old(state), a) && timers == old(timers)
    {
      state := Reduce(state, a);
    }

    /** The `newMessage` listener: the message is appended whatever its room. */
    method OnNewMessage(m: ChatMessage)
      modifies this
      ensures state == Reduce(old(state), AddMessage(m)) && timers == old(timers)
    {
      Dispatch(AddMessage(m));
    }

    /** The `userOnline` listener stores the payload `{userId, username, avatar}` as it is. */
    method OnUserOnline(userId: UserId, username: string, avatar: Option<string>)
      modifies this
      ensures state == Reduce(old(state), UpdateUserOnline(OnlineEntry(None, Some(userId), username, avatar)))
      ensures timers == old(timers)
    {
      Dispatch(UpdateUserOnline(OnlineEntry(None, Some(userId), username, avatar)));
    }

    method OnUserOffline(userId: UserId)
      modifies this
      ensures state == Reduce(old(state), UpdateUserOffline(Some(userId))) && timers == old(timers)
    {
      Dispatch(UpdateUserOffline(Some(userId)));
    }

    /** The `onlineUsers` listener replaces the list with the snapshot's `{id, username, avatar}` objects. */
    method OnOnlineUsers(users: seq<Author>)
      modifies this
      ensures state == Reduce(old(state), SetOnlineUsers(seq(|users|, k requires 0 <= k < |users| =>
                OnlineEntry(Some(users[k].id), None, users[k].username, users[k].avatar))))
      ensures timers == old(timers)
    {
      Dispatch(SetOnlineUsers(seq(|users|, k requires 0 <= k < |users| =>
        OnlineEntry(Some(users[k].id), None, users[k].username, users[k].avatar))));
    }

    /** The `userTyping` listener adds the name and schedules its own removal
        `TypingTimeoutMs` later; earlier removals stay scheduled. */
    method OnUserTyping(username: string, now: int)
      modifies this
      ensures state == Reduce(old(state), AddTypingUser(username))
      ensures timers == old(timers) + [TypingTimer(username, now + TypingTimeoutMs)]
    {
      Dispatch(AddTypingUser(username));
      timers := timers + [TypingTimer(username, now + TypingTimeoutMs)];
    }

    /** The `userStoppedTyping` listener removes `data.username` (None when the
        payload has no username) and cancels no timer. */
    method OnUserStoppedTyping(username: Option<string>)
      modifies this
      ensures state == Reduce(old(state), RemoveTypingUser(username)) && timers == old(timers)
    {
      Dispatch(RemoveTypingUser(username));
    }

    method OnError(error: Option<string>)
      modifies this
      ensures state == Reduce(old(state), SetError(error)) && timers == old(timers)
    {
      Dispatch(SetError(error));
    }

    /** Pending timer `i` fires: it leaves the pending list and removes its name. */
    method FireTimer(i: nat)
      requires i < |timers|
      modifies this
      ensures state == Reduce(old(state), RemoveTypingUser(Some(old(timers)[i].name)))
      ensures timers == old(timers)[..i] + old(timers)[i + 1..]
    {
      var t := timers[i];
      timers := timers[..i] + timers[i + 1..];
      Dispatch(RemoveTypingUser(Some(t.name)));
    }

    /** `loadRooms`: loading on, the rooms or the error, loading off. */
    method LoadRooms(response: ApiResult<seq<RoomView>>)
      modifies this
      ensures response.ApiOk? ==> state == old(state).(rooms := response.data, loading := false)
      ensures response.ApiFailed? ==>
        state == old(state).(error := Some(ErrorText(response.message, "Failed to load rooms")), loading := false)
      ensures timers == old(timers)
    {
      Dispatch(SetLoading(true));
      match response {
        case ApiOk(rooms) => Dispatch(SetRooms(rooms));
        case ApiFailed(msg) => Dispatch(SetError(Some(ErrorText(msg, "Failed to load rooms"))));
      }
      Dispatch(SetLoading(false));
    }

    /** `loadMessages(roomId, page)` once the response has arrived. */
    method LoadMessages(roomId: RoomId, page: int, response: ApiResult<seq<ChatMessage>>)
      modifies this
      ensures response.ApiOk? ==>
        state == old(state).(messages := MessagesAfterLoad(page, response.data, old(state).messages))
      ensures response.ApiFailed? ==>
        state == old(state).(error := Some(ErrorText(response.message, "Failed to load messages")))
      ensures timers == old(timers)
    {
      match response
      case ApiOk(fetched) =>
        if page == 1 {
          Dispatch(SetMessages(fetched));
        } else {
          Dispatch(SetMessages(fetched + state.messages));
        }
      case ApiFailed(msg) =>
        Dispatch(SetError(Some(ErrorText(msg, "Failed to load messages"))));
    }

    /** `createRoom`: the new room goes first in the list. */
    method CreateRoom(response: ApiResult<RoomView>) returns (outcome: CallOutcome)
      modifies this
      ensures response.ApiOk? ==> outcome == Succeeded && state == old(state).(rooms := [response.data] + old(state).rooms)
      ensures response.ApiFailed? ==>
        var e := ErrorText(response.message, "Failed to create room");
        outcome == Failed(e) && state == old(state).(error := Some(e))
      ensures timers == old(timers)
    {
      match response
      case ApiOk(room) =>
        Dispatch(AddRoom(room));
        outcome := Succeeded;
      case ApiFailed(msg) =>
        var e := ErrorText(msg, "Failed to create room");
        Dispatch(SetError(Some(e)));
        outcome := Failed(e);
    }

    /** `joinRoom`: after the REST join succeeds, the socket joins, and if the
        room is in the list it becomes current and page 1 of its messages is
        loaded. A failed REST join records the error and touches nothing else. */
    method JoinRoom(roomId: RoomId, joined: ApiResult<()>, messages: ApiResult<seq<ChatMessage>>)
      returns (outcome: CallOutcome, calls: seq<SocketCall>)
      modifies this
      ensures joined.ApiFailed? ==>
        var e := ErrorText(joined.message, "Failed to join room");
        outcome == Failed(e) && calls == [] && state == old(state).(error := Some(e))
      ensures joined.ApiOk? ==> outcome == Succeeded && calls == [JoinRoomCall(roomId)]
      ensures joined.ApiOk? && FindRoom(old(state).rooms, roomId).None? ==> state == old(state)
      ensures joined.ApiOk? && FindRoom(old(state).rooms, roomId).Some? ==>
        var entered := old(state).(currentRoom := FindRoom(old(state).rooms, roomId));
        && (messages.ApiOk? ==> state == entered.(messages := messages.data))
        && (messages.ApiFailed? ==>
              state == entered.(error := Some(ErrorText(messages.message, "Failed to load messages"))))
      ensures timers == old(timers)
    {
      match joined
      case ApiFailed(msg) =>
        var e := ErrorText(msg, "Failed to join room");
        Dispatch(SetError(Some(e)));
        return Failed(e), [];
      case ApiOk(_) =>
        calls := [JoinRoomCall(roomId)];
        var room := FindRoom(state.rooms, roomId);
        if room.Some? {
          Dispatch(SetCurrentRoom(room));
          LoadMessages(roomId, 1, messages);
        }
        outcome := Succeeded;
    }

    /** `leaveRoom`: the socket leaves; current room and messages are cleared
        only when the room left is the current one. */
    method LeaveRoom(roomId: RoomId) returns (calls: seq<SocketCall>)
      modifies this
      ensures calls == [LeaveRoomCall(roomId)]
      ensures old(state).currentRoom.Some? && old(state).currentRoom.value.id == roomId ==>
        state == old(state).(currentRoom := None, messages := [])
      ensures !(old(state).currentRoom.Some? && old(state).currentRoom.value.id == roomId) ==> state == old(state)
      ensures timers == old(timers)
    {
      calls := [LeaveRoomCall(roomId)];
      if state.currentRoom.Some? && state.currentRoom.value.id == roomId {
        Dispatch(SetCurrentRoom(None));
        Dispatch(SetMessages([]));
      }
    }

    method ClearError()
      modifies this
      ensures state == old(state).(error := None) && timers == old(timers)
    {
      Dispatch(SetError(None));
    }
  }
}
