/** The server's socket layer: the handshake check, the `connectedUsers`
    registry keyed by user id, the room subscriptions of each socket, and the
    events each handler emits. An event is returned with its audience rather
    than delivered; database calls are inputs that say how they turned out. */
module SocketHandler {
  import opened Wrappers
  import opened ClientModel
  import Seqs
  import Text

  type SocketId = string

  /** `socket.user` without its password. */
  datatype User = User(id: UserId, username: string, avatar: Option<string>)

  /** How a database lookup turned out: a row, `null`, or a rejected promise. */
  datatype Lookup<T> = Found(row: T) | NotFound | Fails

  /** What `jwt.verify` did with the token. */
  datatype Verified = Decoded(userId: UserId) | VerifyThrows

  datatype AuthOutcome = Authenticated(user: User) | AuthenticationError

  /** `authenticateSocket`: a missing or empty token, a token the verifier
      rejects, a user that is not found and a failed lookup all end in the
      same error; otherwise the found user is attached to the socket. */
  function Authenticate(token: Option<string>, verify: string -> Verified, findUser: UserId -> Lookup<User>): (r: AuthOutcome)
    ensures (token.None? || token.value == "") ==> r.AuthenticationError?
    ensures r.Authenticated? <==>
      token.Some? && token.value != "" && verify(token.value).Decoded?
      && findUser(verify(token.value).userId).Found?
    ensures r.Authenticated? ==> r.user == findUser(verify(token.value).userId).row
  {
    if token.None? || token.value == "" then AuthenticationError
    else match verify(token.value)
      case VerifyThrows => AuthenticationError
      case Decoded(uid) =>
        match findUser(uid)
        case Found(u) => Authenticated(u)
        case NotFound => AuthenticationError
        case Fails => AuthenticationError
  }

  // ------------------------------------------------------------ registry

  /** One value of `connectedUsers`. */
  datatype Entry = Entry(socketId: SocketId, user: User)

  /** Position of the user's entry; a `Map` keeps its keys in insertion order. */
  function IndexOfUser(reg: seq<Entry>, uid: UserId): (k: Option<nat>)
    ensures k.Some? ==> k.value < |reg| && reg[k.value].user.id == uid
    ensures k.Some? ==> forall j :: 0 <= j < k.value ==> reg[j].user.id != uid
    ensures k.None? ==> forall j :: 0 <= j < |reg| ==> reg[j].user.id != uid
  {
    if reg == [] then None
    else if reg[0].user.id == uid then Some(0)
    else match IndexOfUser(reg[1..], uid)
      case None => None
      case Some(k) => Some(k + 1)
  }

  /** The first position holding the user id is the one `IndexOfUser` finds. */
  lemma IndexOfFirst(reg: seq<Entry>, uid: UserId, k: nat)
    requires k < |reg| && reg[k].user.id == uid
    requires forall j :: 0 <= j < k ==> reg[j].user.id != uid
    ensures IndexOfUser(reg, uid) == Some(k)
  {
    var found := IndexOfUser(reg, uid);
    assert found.Some? && found.value <= k;
  }

  /** `connectedUsers.get(uid)`. */
  function Get(reg: seq<Entry>, uid: UserId): Option<Entry> {
    match IndexOfUser(reg, uid)
    case None => None
    case Some(k) => Some(reg[k])
  }

  /** No user id is a key twice. */
  predicate UniqueKeys(reg: seq<Entry>) {
    forall i, j :: 0 <= i < j < |reg| ==> reg[i].user.id != reg[j].user.id
  }

  /** `connectedUsers.set(e.user.id, e)`: an existing key keeps its place and
      gets the new value; a new key goes last. */
  function Put(reg: seq<Entry>, e: Entry): (r: seq<Entry>)
    ensures |r| == |reg| + (if IndexOfUser(reg, e.user.id).None? then 1 else 0)
    ensures Get(r, e.user.id) == Some(e)
    ensures forall j :: 0 <= j < |reg| && reg[j].user.id != e.user.id ==> r[j] == reg[j]
  {
    match IndexOfUser(reg, e.user.id)
    case None =>
      var r := reg + [e];
      IndexOfFirst(r, e.user.id, |reg|);
      r
    case Some(k) =>
      var r := reg[k := e];
      IndexOfFirst(r, e.user.id, k);
      r
  }

  /** `connectedUsers.delete(uid)`. */
  function Delete(reg: seq<Entry>, uid: UserId): (r: seq<Entry>)
    ensures |r| <= |reg|
  {
    Seqs.Filter(reg, (e: Entry) => e.user.id != uid)
  }

  /** `Array.from(connectedUsers.values()).map(conn => ({id, username, avatar}))`. */
  function Snapshot(reg: seq<Entry>): (r: seq<Author>)
    ensures |r| == |reg|
    ensures forall i :: 0 <= i < |reg| ==>
      r[i] == Author(reg[i].user.id, reg[i].user.username, reg[i].user.avatar)
  {
    seq(|reg|, i requires 0 <= i < |reg| => Author(reg[i].user.id, reg[i].user.username, reg[i].user.avatar))
  }

  lemma GetFindsUnique(reg: seq<Entry>, i: nat)
    requires UniqueKeys(reg) && i < |reg|
    ensures Get(reg, reg[i].user.id) == Some(reg[i])
  {
  }

  /** `set` keeps keys unique, makes the key map to the new entry, and leaves
      every other key's entry alone. */
  lemma PutIsMapUpdate(reg: seq<Entry>, e: Entry, uid: UserId)
    requires UniqueKeys(reg)
    ensures UniqueKeys(Put(reg, e))
    ensures Get(Put(reg, e), e.user.id) == Some(e)
    ensures uid != e.user.id ==> Get(Put(reg, e), uid) == Get(reg, uid)
  {
    var r := Put(reg, e);
    if IndexOfUser(reg, e.user.id).None? {
      GetFindsUnique(r, |reg|);
    } else {
      GetFindsUnique(r, IndexOfUser(reg, e.user.id).value);
    }
    if uid != e.user.id {
      match IndexOfUser(reg, uid)
      case None =>
        assert IndexOfUser(r, uid).None?;
      case Some(k) =>
        GetFindsUnique(r, k);
    }
  }

  /** `delete` removes exactly the key, keeping the other entries in order. */
  lemma DeleteRemovesKey(reg: seq<Entry>, uid: UserId, other: UserId)
    requires UniqueKeys(reg)
    ensures Get(Delete(reg, uid), uid).None?
    ensures other != uid ==> Get(Delete(reg, uid), other) == Get(reg, other)
    ensures UniqueKeys(Delete(reg, uid))
    ensures Seqs.IsSubsequence(Delete(reg, uid), reg)
  {
    var p := (e: Entry) => e.user.id != uid;
    var r := Delete(reg, uid);
    Seqs.FilterMembers(reg, p);
    Seqs.FilterIsSubsequence(reg, p);
    DeleteKeepsUnique(reg, uid);
    assert forall j :: 0 <= j < |r| ==> r[j] in r;
    if other != uid {
      match IndexOfUser(reg, other)
      case None =>
        assert IndexOfUser(r, other).None?;
      case Some(k) =>
        assert reg[k] in r;
        var j :| 0 <= j < |r| && r[j] == reg[k];
        GetFindsUnique(r, j);
    }
  }

  lemma {:induction false} DeleteKeepsUnique(reg: seq<Entry>, uid: UserId)
    requires UniqueKeys(reg)
    ensures UniqueKeys(Delete(reg, uid))
    ensures forall e :: e in Delete(reg, uid) ==> e in reg
  {
    var p := (e: Entry) => e.user.id != uid;
    Seqs.FilterMembers(reg, p);
    if reg != [] {
      DeleteKeepsUnique(reg[1..], uid);
      var r := Delete(reg, uid);
      if p(reg[0]) {
        var tail := Delete(reg[1..], uid);
        assert r == [reg[0]] + tail;
        forall j | 0 < j < |r| ensures r[0].user.id != r[j].user.id {
          assert r[j] in tail;
          assert r[j] in reg[1..];
          var m :| 0 <= m < |reg[1..]| && reg[1..][m] == r[j];
          assert reg[m + 1] == r[j];
        }
      }
    }
  }

  // -------------------------------------------------------------- events

  /** The payloads the server emits. */
  datatype Payload =
    | UserOnline(userId: UserId, username: string, avatar: Option<string>)
    | UserOffline(userId: UserId)
    | OnlineUsers(users: seq<Author>)
    | UserJoinedRoom(userId: UserId, username: string, roomId: RoomId)
    | UserLeftRoom(userId: UserId, username: string, roomId: RoomId)
    | NewMessage(message: Option<ChatMessage>)
    | UserTyping(userId: UserId, username: string, roomId: RoomId)
    | UserStoppedTyping(userId: UserId, roomId: RoomId)
    | ErrorEvent(text: string)

  /** `socket.emit`, `socket.to(room).emit`, `io.to(room).emit` and `socket.broadcast.emit`. */
  datatype Audience = ToSender | RoomExceptSender(room: RoomId) | WholeRoom(room: RoomId) | AllButSender

  datatype Emit = Emit(audience: Audience, payload: Payload)

  /** The live sockets, each with its user, and the rooms each socket has joined. */
  datatype Server = Server(registry: seq<Entry>, live: map<SocketId, User>, subs: set<(SocketId, RoomId)>)

  datatype Reaction = Reaction(server: Server, emits: seq<Emit>)

  /** Who receives an emit of socket `sender`. */
  function Recipients(s: Server, sender: SocketId, a: Audience): (to: set<SocketId>)
    ensures a.ToSender? ==> to == {sender}
    ensures a.RoomExceptSender? ==> (forall x :: x in to <==> x in s.live && (x, a.room) in s.subs && x != sender)
    ensures a.WholeRoom? ==> (forall x :: x in to <==> x in s.live && (x, a.room) in s.subs)
    ensures a.AllButSender? ==> (forall x :: x in to <==> x in s.live && x != sender)
  {
    match a
    case ToSender => {sender}
    case RoomExceptSender(r) => set x | x in s.live && (x, r) in s.subs && x != sender
    case WholeRoom(r) => set x | x in s.live && (x, r) in s.subs
    case AllButSender => set x | x in s.live && x != sender
  }

  /** Room subscriptions of the other sockets. */
  function DropSocket(subs: set<(SocketId, RoomId)>, sid: SocketId): (r: set<(SocketId, RoomId)>)
    ensures forall p :: p in r <==> p in subs && p.0 != sid
  {
    set p | p in subs && p.0 != sid
  }

  const Empty: Server := Server([], map[], {})

  /** The `connection` handler for a socket whose handshake attached `user`. */
  function Connected(s: Server, sid: SocketId, user: User): Reaction {
    var reg := Put(s.registry, Entry(sid, user));
    Reaction(Server(reg, s.live[sid := user], s.subs),
             [Emit(AllButSender, UserOnline(user.id, user.username, user.avatar)),
              Emit(ToSender, OnlineUsers(Snapshot(reg)))])
  }

  /** The `joinRoom` handler. */
  function JoinRoom(s: Server, sid: SocketId, roomId: RoomId, room: Lookup<()>): Reaction
    requires sid in s.live
  {
    var u := s.live[sid];
    match room
    case Found(_) => Reaction(s.(subs := s.subs + {(sid, roomId)}), [Emit(RoomExceptSender(roomId), UserJoinedRoom(u.id, u.username, roomId))])
    case NotFound => Reaction(s, [])
    case Fails => Reaction(s, [Emit(ToSender, ErrorEvent("Failed to join room"))])
  }

  /** The `leaveRoom` handler: no check that the room exists or was joined. */
  function LeaveRoom(s: Server, sid: SocketId, roomId: RoomId): Reaction
    requires sid in s.live
  {
    var u := s.live[sid];
    Reaction(s.(subs := s.subs - {(sid, roomId)}), [Emit(RoomExceptSender(roomId), UserLeftRoom(u.id, u.username, roomId))])
  }

  /** The validation `Message.create` applies to `content`: present, not
      whitespace only (`notEmpty`), and 1 to 1000 characters long (`len`). */
  predicate ValidContent(content: Option<string>) {
    content.Some? && !Text.AllWhitespace(content.value) && 1 <= |content.value| <= 1000
  }

  /** How the store answers the three awaited calls of `sendMessage`:
      whether `Message.create` succeeds on valid content (it may still fail,
      e.g. on a `type` outside the enumeration), the `id` and `createdAt` it
      assigns, whether `findByPk` of that `id` finds the row, returns `null`
      or rejects, and whether `Room.update` succeeds. */
  datatype SendStore = SendStore(createOk: bool, newId: string, now: int, reload: Lookup<()>, touchOk: bool)

  /** The row `Message.create` stores, as `findByPk` reloads it with its
      `User`: the sent content and type, the sender, the room, not edited. */
  function CreatedRow(s: Server, sid: SocketId, roomId: RoomId, content: string, kind: Option<string>,
                      store: SendStore): ChatMessage
    requires sid in s.live
  {
    var u := s.live[sid];
    ChatMessage(store.newId, roomId, u.id, content, MessageKind(kind), store.now, false,
                Some(Author(u.id, u.username, u.avatar)))
  }

  /** The `sendMessage` handler; `kind` is `data.type`, `None` when undefined. */
  function SendMessage(s: Server, sid: SocketId, roomId: RoomId, content: Option<string>, kind: Option<string>,
                       store: SendStore): (r: Reaction)
    requires sid in s.live
    ensures r.server == s
  {
    var failed := Emit(ToSender, ErrorEvent("Failed to send message"));
    var created := ValidContent(content) && store.createOk;
    if !created || store.reload.Fails? then Reaction(s, [failed])
    else
      var row := CreatedRow(s, sid, roomId, content.value, kind, store);
      var sent := Emit(WholeRoom(roomId), NewMessage(if store.reload.Found? then Some(row) else None));
      Reaction(s, [sent] + (if store.touchOk then [] else [failed]))
  }

  /** The `type` the message is created with: `'text'` when the field is undefined. */
  function MessageKind(kind: Option<string>): (k: string)
    ensures kind.None? ==> k == "text"
    ensures kind.Some? ==> k == kind.value
  {
    kind.GetOr("text")
  }

  /** The `typing` handler. */
  function Typing(s: Server, sid: SocketId, roomId: RoomId): Reaction
    requires sid in s.live
  {
    Reaction(s, [Emit(RoomExceptSender(roomId), UserTyping(s.live[sid].id, s.live[sid].username, roomId))])
  }

  /** The `stopTyping` handler: the relay carries no username. */
  function StopTyping(s: Server, sid: SocketId, roomId: RoomId): Reaction
    requires sid in s.live
  {
    Reaction(s, [Emit(RoomExceptSender(roomId), UserStoppedTyping(s.live[sid].id, roomId))])
  }

  /** The `disconnect` handler. The socket is gone and out of its rooms
      either way; the registry delete and the broadcast wait for the awaited
      user update, and do not happen when it rejects. */
  function Disconnect(s: Server, sid: SocketId, updateOk: bool): Reaction
    requires sid in s.live
  {
    var u := s.live[sid];
    var gone := Server(s.registry, s.live - {sid}, DropSocket(s.subs, sid));
    if !updateOk then Reaction(gone, [])
    else Reaction(gone.(registry := Delete(s.registry, u.id)), [Emit(AllButSender, UserOffline(u.id))])
  }

  // -------------------------------------------------------- properties

  /** A connection broadcasts `userOnline` to the others and sends the
      newcomer the registry snapshot, which includes the newcomer. */
  lemma ConnectEmits(s: Server, sid: SocketId, user: User)
    requires UniqueKeys(s.registry)
    ensures var r := Connected(s, sid, user);
      && r.emits == [Emit(AllButSender, UserOnline(user.id, user.username, user.avatar)),
                     Emit(ToSender, OnlineUsers(Snapshot(r.server.registry)))]
      && Author(user.id, user.username, user.avatar) in r.emits[1].payload.users
      && r.server.live == s.live[sid := user] && r.server.subs == s.subs
      && UniqueKeys(r.server.registry)
      && Get(r.server.registry, user.id) == Some(Entry(sid, user))
      && (forall uid :: uid != user.id ==> Get(r.server.registry, uid) == Get(s.registry, uid))
  {
    var reg := Put(s.registry, Entry(sid, user));
    PutIsMapUpdate(s.registry, Entry(sid, user), user.id);
    forall uid | uid != user.id ensures Get(reg, uid) == Get(s.registry, uid) {
      PutIsMapUpdate(s.registry, Entry(sid, user), uid);
    }
    var k := IndexOfUser(reg, user.id).value;
    assert Snapshot(reg)[k] == Author(user.id, user.username, user.avatar);
  }

  /** A second connection of the same user replaces the first entry: the
      registry keeps one entry for the user, pointing at the newer socket. */
  lemma SecondConnectionOverwrites(s: Server, s1: SocketId, s2: SocketId, user: User)
    requires UniqueKeys(s.registry)
    ensures var r := Connected(Connected(s, s1, user).server, s2, user);
      && Get(r.server.registry, user.id) == Some(Entry(s2, user))
      && |r.server.registry| == |Connected(s, s1, user).server.registry|
  {
    PutIsMapUpdate(s.registry, Entry(s1, user), user.id);
    var reg1 := Connected(s, s1, user).server.registry;
    PutIsMapUpdate(reg1, Entry(s2, user), user.id);
  }

  /** Disconnecting one of a user's two sockets deletes the user's entry
      although the other socket is still live. */
  lemma DisconnectForgetsOtherSocket(s: Server, s1: SocketId, s2: SocketId, user: User)
    requires UniqueKeys(s.registry) && s1 != s2
    ensures var both := Connected(Connected(s, s1, user).server, s2, user).server;
      var after := Disconnect(both, s1, true);
      && s2 in after.server.live
      && Get(after.server.registry, user.id).None?
      && after.emits == [Emit(AllButSender, UserOffline(user.id))]
  {
    var both := Connected(Connected(s, s1, user).server, s2, user).server;
    PutIsMapUpdate(s.registry, Entry(s1, user), user.id);
    PutIsMapUpdate(Connected(s, s1, user).server.registry, Entry(s2, user), user.id);
    DeleteRemovesKey(both.registry, user.id, user.id);
  }

  /** A disconnect: the socket is no longer live and has left its rooms.
      Once the user update succeeds, the user's key is gone from the
      registry, every other key keeps its entry, and the others hear
      `userOffline`; when it rejects, the registry stays and nothing is
      emitted. */
  lemma DisconnectOutcome(s: Server, sid: SocketId, updateOk: bool)
    requires sid in s.live && UniqueKeys(s.registry)
    ensures var r := Disconnect(s, sid, updateOk);
      var u := s.live[sid];
      && r.server.live == s.live - {sid}
      && (forall p :: p in r.server.subs <==> p in s.subs && p.0 != sid)
      && UniqueKeys(r.server.registry)
      && (updateOk ==>
            && Get(r.server.registry, u.id).None?
            && (forall uid :: uid != u.id ==> Get(r.server.registry, uid) == Get(s.registry, uid))
            && r.emits == [Emit(AllButSender, UserOffline(u.id))])
      && (!updateOk ==> r.server.registry == s.registry && r.emits == [])
  {
    var u := s.live[sid];
    DeleteRemovesKey(s.registry, u.id, u.id);
    forall uid | uid != u.id ensures Get(Delete(s.registry, u.id), uid) == Get(s.registry, uid) {
      DeleteRemovesKey(s.registry, u.id, uid);
    }
  }

  /** A rejected user update on disconnect leaves the registry entry in
      place, with a socket that is no longer live, and broadcasts nothing. */
  lemma FailedUpdateLeavesStaleEntry(s: Server, sid: SocketId)
    requires sid in s.live
    ensures var r := Disconnect(s, sid, false);
      r.server.registry == s.registry && sid !in r.server.live && r.emits == []
  {
  }

  /** Joining an existing room subscribes the socket and relays to the other
      members only; a missing room changes nothing; a failed lookup tells the
      sender. Joining twice relays twice. */
  lemma JoinRoomOutcomes(s: Server, sid: SocketId, roomId: RoomId)
    requires sid in s.live
    ensures var r := JoinRoom(s, sid, roomId, Found(()));
      && (sid, roomId) in r.server.subs
      && r.emits == [Emit(RoomExceptSender(roomId), UserJoinedRoom(s.live[sid].id, s.live[sid].username, roomId))]
      && sid !in Recipients(r.server, sid, r.emits[0].audience)
    ensures JoinRoom(s, sid, roomId, NotFound) == Reaction(s, [])
    ensures JoinRoom(s, sid, roomId, Fails) == Reaction(s, [Emit(ToSender, ErrorEvent("Failed to join room"))])
    ensures var again := JoinRoom(JoinRoom(s, sid, roomId, Found(())).server, sid, roomId, Found(()));
      again.server == JoinRoom(s, sid, roomId, Found(())).server && |again.emits| == 1
      && again.emits == JoinRoom(s, sid, roomId, Found(())).emits
  {
  }

  /** Leaving unsubscribes and always relays, whether or not the socket was in the room. */
  lemma LeaveRoomAlwaysRelays(s: Server, sid: SocketId, roomId: RoomId)
    requires sid in s.live
    ensures var r := LeaveRoom(s, sid, roomId);
      (sid, roomId) !in r.server.subs
      && r.emits == [Emit(RoomExceptSender(roomId), UserLeftRoom(s.live[sid].id, s.live[sid].username, roomId))]
  {
  }

  /** `newMessage` reaches the whole room, the sender included, exactly when
      the create succeeded and the reload did not reject. Rejected content, a
      failed create and a failed reload all end in the sender's error alone;
      when every call succeeds, the broadcast is the only emit. */
  lemma SendMessageOutcomes(s: Server, sid: SocketId, roomId: RoomId, content: Option<string>,
                            kind: Option<string>, store: SendStore)
    requires sid in s.live
    ensures var r := SendMessage(s, sid, roomId, content, kind, store);
      && ((exists i :: 0 <= i < |r.emits| && r.emits[i].payload.NewMessage?) <==>
          ValidContent(content) && store.createOk && !store.reload.Fails?)
      && (!ValidContent(content) ==> r.emits == [Emit(ToSender, ErrorEvent("Failed to send message"))])
      && ((!(ValidContent(content) && store.createOk) || store.reload.Fails?) ==>
            r.emits == [Emit(ToSender, ErrorEvent("Failed to send message"))])
      && (ValidContent(content) && store.createOk && !store.reload.Fails? && store.touchOk ==> |r.emits| == 1)
      && (forall i :: 0 <= i < |r.emits| && r.emits[i].payload.NewMessage? ==>
            r.emits[i].audience == WholeRoom(roomId))
      && (ValidContent(content) && store.createOk && store.reload.Found? ==>
            && r.emits[0].payload.NewMessage? && r.emits[0].payload.message.Some?
            && var m := r.emits[0].payload.message.value;
               && m.content == content.value && m.kind == MessageKind(kind)
               && m.userId == s.live[sid].id && m.roomId == roomId
               && m.author == Some(Author(s.live[sid].id, s.live[sid].username, s.live[sid].avatar))
               && m.id == store.newId && m.createdAt == store.now && !m.edited)
  {
    var r := SendMessage(s, sid, roomId, content, kind, store);
    if ValidContent(content) && store.createOk && !store.reload.Fails? {
      assert r.emits[0].payload.NewMessage?;
    }
  }

  /** The failure after the broadcast: the room has the message and the sender
      is also told that sending failed. */
  lemma TouchFailureAfterBroadcast(s: Server, sid: SocketId, roomId: RoomId, content: string, id: string, now: int)
    requires sid in s.live && ValidContent(Some(content))
    ensures var store := SendStore(true, id, now, Found(()), false);
      SendMessage(s, sid, roomId, Some(content), None, store).emits ==
        [Emit(WholeRoom(roomId), NewMessage(Some(CreatedRow(s, sid, roomId, content, None, store)))),
         Emit(ToSender, ErrorEvent("Failed to send message"))]
  {
  }

  /** Content of whitespace only fails the create's `notEmpty` check, so
      nothing is broadcast even when every later call would succeed. */
  lemma BlankContentIsRejected(s: Server, sid: SocketId, roomId: RoomId, id: string, now: int)
    requires sid in s.live
    ensures SendMessage(s, sid, roomId, Some("   "), None, SendStore(true, id, now, Found(()), true)).emits ==
      [Emit(ToSender, ErrorEvent("Failed to send message"))]
  {
    assert Text.AllWhitespace("   ");
  }

  /** A reload that finds nothing still broadcasts, with a `null` message. */
  lemma NullReloadBroadcastsNull(s: Server, sid: SocketId, roomId: RoomId, content: string, id: string, now: int)
    requires sid in s.live && ValidContent(Some(content))
    ensures SendMessage(s, sid, roomId, Some(content), None, SendStore(true, id, now, NotFound, true)).emits ==
      [Emit(WholeRoom(roomId), NewMessage(None))]
  {
  }

  /** Each typing relay is one event to the other live members of the room;
      the stop relay has no username. Neither changes the server. */
  lemma TypingRelays(s: Server, sid: SocketId, roomId: RoomId)
    requires sid in s.live
    ensures Typing(s, sid, roomId) ==
      Reaction(s, [Emit(RoomExceptSender(roomId), UserTyping(s.live[sid].id, s.live[sid].username, roomId))])
    ensures StopTyping(s, sid, roomId) ==
      Reaction(s, [Emit(RoomExceptSender(roomId), UserStoppedTyping(s.live[sid].id, roomId))])
    ensures forall x :: x in Recipients(s, sid, Typing(s, sid, roomId).emits[0].audience) <==>
      x in s.live && (x, roomId) in s.subs && x != sid
    ensures forall x :: x in Recipients(s, sid, StopTyping(s, sid, roomId).emits[0].audience) <==>
      x in s.live && (x, roomId) in s.subs && x != sid
  {
  }

  // ---------------------------------------------------------- the object

  /** `handleConnection`'s closure state, with the socket.io rooms. */
  class Coordinator {
    var registry: seq<Entry>
    var live: map<SocketId, User>
    var subs: set<(SocketId, RoomId)>

    function State(): Server
      reads this
    {
      Server(registry, live, subs)
    }

    ghost predicate Valid()
      reads this
    {
      UniqueKeys(registry)
    }

    constructor ()
      ensures State() == Empty && Valid()
    {
      registry, live, subs := [], map[], {};
    }

    /** A socket's handshake, and its `connection` handler when it passes. */
    method Handshake(sid: SocketId, token: Option<string>, verify: string -> Verified,
                     findUser: UserId -> Lookup<User>) returns (auth: AuthOutcome, emits: seq<Emit>)
      requires Valid()
      modifies this
      ensures Valid()
      ensures auth == Authenticate(token, verify, findUser)
      ensures auth.AuthenticationError? ==> State() == old(State()) && emits == []
      ensures auth.Authenticated? ==> Reaction(State(), emits) == Connected(old(State()), sid, auth.user)
    {
      auth := Authenticate(token, verify, findUser);
      emits := [];
      if auth.Authenticated? {
        var user := auth.user;
        PutIsMapUpdate(registry, Entry(sid, user), user.id);
        registry := Put(registry, Entry(sid, user));
        live := live[sid := user];
        emits := [Emit(AllButSender, UserOnline(user.id, user.username, user.avatar)),
                  Emit(ToSender, OnlineUsers(Snapshot(registry)))];
      }
    }

    method OnJoinRoom(sid: SocketId, roomId: RoomId, room: Lookup<()>) returns (emits: seq<Emit>)
      requires sid in live
      modifies this
      ensures Reaction(State(), emits) == JoinRoom(old(State()), sid, roomId, room)
    {
      var u := live[sid];
      match room {
        case Found(_) =>
          subs := subs + {(sid, roomId)};
          emits := [Emit(RoomExceptSender(roomId), UserJoinedRoom(u.id, u.username, roomId))];
        case NotFound =>
          emits := [];
        case Fails =>
          emits := [Emit(ToSender, ErrorEvent("Failed to join room"))];
      }
    }

    method OnLeaveRoom(sid: SocketId, roomId: RoomId) returns (emits: seq<Emit>)
      requires sid in live
      modifies this
      ensures Reaction(State(), emits) == LeaveRoom(old(State()), sid, roomId)
    {
      subs := subs - {(sid, roomId)};
      emits := [Emit(RoomExceptSender(roomId), UserLeftRoom(live[sid].id, live[sid].username, roomId))];
    }

    /** Changes no state: the message goes to the store, not to the coordinator. */
    method OnSendMessage(sid: SocketId, roomId: RoomId, content: Option<string>, kind: Option<string>,
                         store: SendStore) returns (emits: seq<Emit>)
      requires sid in live
      ensures emits == SendMessage(State(), sid, roomId, content, kind, store).emits
    {
      var failed := Emit(ToSender, ErrorEvent("Failed to send message"));
      if !ValidContent(content) || !store.createOk || store.reload.Fails? {
        return [failed];
      }
      var reloaded := if store.reload.Found? then Some(CreatedRow(State(), sid, roomId, content.value, kind, store)) else None;
      emits := [Emit(WholeRoom(roomId), NewMessage(reloaded))];
      if !store.touchOk {
        emits := emits + [failed];
      }
    }

    method OnTyping(sid: SocketId, roomId: RoomId) returns (emits: seq<Emit>)
      requires sid in live
      ensures emits == Typing(State(), sid, roomId).emits
    {
      emits := [Emit(RoomExceptSender(roomId), UserTyping(live[sid].id, live[sid].username, roomId))];
    }

    method OnStopTyping(sid: SocketId, roomId: RoomId) returns (emits: seq<Emit>)
      requires sid in live
      ensures emits == StopTyping(State(), sid, roomId).emits
    {
      emits := [Emit(RoomExceptSender(roomId), UserStoppedTyping(live[sid].id, roomId))];
    }

    method OnDisconnect(sid: SocketId, updateOk: bool) returns (emits: seq<Emit>)
      requires sid in live && Valid()
      modifies this
      ensures Valid()
      ensures Reaction(State(), emits) == Disconnect(old(State()), sid, updateOk)
    {
      var u := live[sid];
      live := live - {sid};
      subs := DropSocket(subs, sid);
      emits := [];
      if updateOk {
        DeleteRemovesKey(registry, u.id, u.id);
        registry := Delete(registry, u.id);
        emits := [Emit(AllButSender, UserOffline(u.id))];
      }
    }
  }
}
