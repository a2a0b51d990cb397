/** How the client's socket listeners fold the server's events into the chat
    state: each payload the server emits is heard as one reducer action (or
    not at all, for events the client has no listener for). */
module Delivery {
  import opened Wrappers
  import opened ClientModel
  import Seqs
  import ChatContext
  import SocketHandler

  datatype Heard =
    | NoListener
    | Dispatches(action: ChatContext.Action)
    | NullMessage   // `ADD_MESSAGE` with a `null` payload, which `ChatMessage` cannot hold

  /** The listener for each payload, as `setupSocketListeners` wires them. */
  function Listen(p: SocketHandler.Payload): Heard {
    match p
    case UserOnline(uid, name, avatar) => Dispatches(ChatContext.UpdateUserOnline(OnlineEntry(None, Some(uid), name, avatar)))
    case UserOffline(uid) => Dispatches(ChatContext.UpdateUserOffline(Some(uid)))
    case OnlineUsers(users) =>
      Dispatches(ChatContext.SetOnlineUsers(seq(|users|, k requires 0 <= k < |users| =>
        OnlineEntry(Some(users[k].id), None, users[k].username, users[k].avatar))))
    case NewMessage(m) => if m.Some? then Dispatches(ChatContext.AddMessage(m.value)) else NullMessage
    case UserTyping(_, name, _) => Dispatches(ChatContext.AddTypingUser(name))
    // `data.username` of a payload that has no `username`
    case UserStoppedTyping(_, _) => Dispatches(ChatContext.RemoveTypingUser(None))
    case ErrorEvent(text) => Dispatches(ChatContext.SetError(Some(text)))
    case UserJoinedRoom(_, _, _) => NoListener
    case UserLeftRoom(_, _, _) => NoListener
  }

  /** The client state after hearing `p`; a null message is not folded in. */
  function Deliver(s: ChatContext.ChatState, p: SocketHandler.Payload): ChatContext.ChatState {
    match Listen(p)
    case Dispatches(a) => ChatContext.Reduce(s, a)
    case NoListener => s
    case NullMessage => s
  }

  /** The server's stop-typing relay clears nothing on the client: the name
      stays until the client's own 3 s timer removes it. */
  lemma StopTypingRelayClearsNothing(server: SocketHandler.Server, sid: SocketHandler.SocketId, roomId: RoomId,
                                     s: ChatContext.ChatState)
    requires sid in server.live
    ensures Deliver(s, SocketHandler.StopTyping(server, sid, roomId).emits[0].payload) == s
  {
    ChatContext.RemoveWithoutNameKeepsAll(s);
  }

  /** A typing relay puts the sender's name in the client's list. */
  lemma TypingRelayAddsName(server: SocketHandler.Server, sid: SocketHandler.SocketId, roomId: RoomId,
                            s: ChatContext.ChatState)
    requires sid in server.live
    ensures server.live[sid].username in Deliver(s, SocketHandler.Typing(server, sid, roomId).emits[0].payload).typingUsers
  {
  }

  /** A user announced by `userOnline` (while not in the client's list) is
      still listed after the same user's `userOffline`, because the entry
      the event added carries no `id`. */
  lemma OnlineThenOfflineKeepsEntry(server: SocketHandler.Server, sid: SocketHandler.SocketId,
                                    user: SocketHandler.User, s: ChatContext.ChatState)
    requires SocketHandler.UniqueKeys(server.registry)
    requires forall k :: 0 <= k < |s.onlineUsers| ==> s.onlineUsers[k].id != Some(user.id)
    ensures var online := SocketHandler.Connected(server, sid, user);
      var offline := SocketHandler.Disconnect(online.server, sid, true);
      var heard := Deliver(Deliver(s, online.emits[0].payload), offline.emits[0].payload);
      OnlineEntry(None, Some(user.id), user.username, user.avatar) in heard.onlineUsers
  {
    var e := OnlineEntry(None, Some(user.id), user.username, user.avatar);
    var r := ChatContext.Reduce(s, ChatContext.UpdateUserOnline(e));
    assert !ChatContext.HasOnlineId(s.onlineUsers, Some(user.id));
    assert r.onlineUsers == s.onlineUsers + [e];
    Seqs.FilterMembers(r.onlineUsers, (u: OnlineEntry) => u.id != Some(user.id));
    assert e in r.onlineUsers;
  }

  /** Entries from the `onlineUsers` snapshot carry `id`, so a later
      `userOffline` for that user does remove them. */
  lemma SnapshotEntriesAreRemovable(users: seq<Author>, uid: UserId, s: ChatContext.ChatState)
    ensures var listed := Deliver(s, SocketHandler.OnlineUsers(users));
      var after := Deliver(listed, SocketHandler.UserOffline(uid));
      forall u :: u in after.onlineUsers <==> u in listed.onlineUsers && u.id != Some(uid)
  {
    var listed := Deliver(s, SocketHandler.OnlineUsers(users));
    Seqs.FilterMembers(listed.onlineUsers, (u: OnlineEntry) => u.id != Some(uid));
  }

  /** A message broadcast after a successful send ends up last in the client's list. */
  lemma NewMessageAppended(m: ChatMessage, s: ChatContext.ChatState)
    ensures Deliver(s, SocketHandler.NewMessage(Some(m))).messages == s.messages + [m]
  {
  }
}
