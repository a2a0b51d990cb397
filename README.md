# Real-time chat: a Dafny model of its event and state logic

This project models the event-driven core of a real-time chat application: a
React client and a Node/socket.io server. The model covers the following.

- **Client chat state** (`ChatContext`). The reducer folds tagged actions into
  `{rooms, currentRoom, messages, onlineUsers, typingUsers, loading, error}`.
  The provider class drives it from REST responses and socket events, and it
  keeps the 3000 ms typing removals as explicit timers.
- **Message box** (`MessageInput`). The typing and send state machine of the
  input field: `startTyping`, `stopTyping` and `sendMessage`, and the 1000 ms
  stop-typing timer whose callback reads the values of the render that
  scheduled it.
- **Server socket coordinator** (`SocketHandler`). Handshake authentication,
  the `connectedUsers` registry keyed by user id, room subscriptions, and the
  `connection`, `joinRoom`, `leaveRoom`, `sendMessage`, `typing`, `stopTyping`
  and `disconnect` handlers. Each handler returns the events it emits, with
  their audience.
- **Delivery** (`Delivery`). What the client's listeners dispatch for each
  payload the server emits.
- **Pure helpers**. These are `Utils` (truncation, initials, username and
  password checks, grouping, mentions, file kinds, `uniqueBy`/`groupBy`,
  error text, relative time), `MessageList` (avatar grouping), `ChatArea`
  (the typing label), `OnlineUsers` (filtering and last-seen buckets) and
  `ErrorHandling` (the error-classification registry).
- **REST controller** (`ChatController`). Room listing order, message
  pagination, room creation and joining.

Modules `Wrappers`, `Text`, `Seqs` and `ClientModel` supply the shared
helpers: `Option`, whitespace trimming, ASCII case mapping, split and join,
filter and subsequence, and the client's records.

Time is an integer number of milliseconds and is passed in as a parameter.
Database calls, token verification and their failures are parameters
(oracles), and timers are explicit "fired" events. Socket emits are returned
as a list of `(audience, payload)` pairs.

## Model

| member | source | states |
|---|---|---|
| ChatContext.ReduceWritesOnlyItsField | client/src/contexts/ChatContext.js:8-58 | every action rewrites at most the field it names; an unrecognised action type returns the state unchanged |
| ChatContext.Reduce | client/src/contexts/ChatContext.js:8-58 | the reducer, one case per action type; its properties are the lemmas below |
| ChatContext.AddMessageAppends | client/src/contexts/ChatContext.js:20-24 | `ADD_MESSAGE` keeps all earlier messages in order, puts the payload last, and leaves every other field alone |
| ChatContext.UserOnlineAppendsUnlessPresent | client/src/contexts/ChatContext.js:27-33 | if some entry's `id` equals the payload's `userId`, the state is unchanged; otherwise the payload is appended at the end |
| ChatContext.UserOfflineRemovesExactly | client/src/contexts/ChatContext.js:34-38 | the survivors are exactly the entries whose `id` differs from the payload's, in their original order, each as often as before; other fields are unchanged |
| ChatContext.AddTypingUserIdempotent | client/src/contexts/ChatContext.js:41-47 | the name is present afterwards; a second add changes nothing; a duplicate-free list stays duplicate-free |
| ChatContext.RemoveTypingUserRemoves | client/src/contexts/ChatContext.js:48-52 | the name is gone, every other name stays as often as it occurred, and the order is kept |
| ChatContext.RemoveWithoutNameKeepsAll | client/src/contexts/ChatContext.js:48-52 | removing `undefined` leaves the state unchanged |
| ChatContext.OnlineEventEntryOutlivesOffline | client/src/contexts/ChatContext.js:27-38 | an entry built from a `userOnline` payload has no `id`: a second `userOnline` appends it again, and `userOffline` does not remove it |
| ChatContext.EarlierTimerRemovesRefreshedTyper | client/src/contexts/ChatContext.js:98-104 | when a user signals typing twice, the first removal already removes the name |
| ChatContext.MessagesAfterLoad | client/src/contexts/ChatContext.js:141-147 | the fetched messages come first; page 1 keeps nothing else, any other page keeps the messages shown, after the fetched ones |
| ChatContext.FindRoomIndex | client/src/contexts/ChatContext.js:175 | the first position holding a room with that id, or none if no room has it |
| ChatContext.FindRoom | client/src/contexts/ChatContext.js:175 | a found room is the one at the first position holding the id; none means no room has the id |
| ChatContext.ChatProvider.constructor | client/src/contexts/ChatContext.js:60-68 | starts from `initialState` with no pending typing timers |
| ChatContext.ChatProvider.Dispatch | client/src/contexts/ChatContext.js:8-58 | the new state is the reducer applied to the old one |
| ChatContext.ChatProvider.OnNewMessage | client/src/contexts/ChatContext.js:80-82 | dispatches `ADD_MESSAGE` |
| ChatContext.ChatProvider.OnUserOnline | client/src/contexts/ChatContext.js:85-87 | dispatches `UPDATE_USER_ONLINE` with the payload, whose `id` is missing |
| ChatContext.ChatProvider.OnUserOffline | client/src/contexts/ChatContext.js:89-91 | dispatches `UPDATE_USER_OFFLINE` |
| ChatContext.ChatProvider.OnOnlineUsers | client/src/contexts/ChatContext.js:93-95 | replaces `onlineUsers` by the snapshot |
| ChatContext.ChatProvider.OnUserTyping | client/src/contexts/ChatContext.js:98-104 | adds the name and schedules its own removal 3000 ms later, without touching earlier timers |
| ChatContext.ChatProvider.OnUserStoppedTyping | client/src/contexts/ChatContext.js:106-108 | dispatches the removal of `data.username` |
| ChatContext.ChatProvider.OnError | client/src/contexts/ChatContext.js:111-113 | dispatches `SET_ERROR` |
| ChatContext.ChatProvider.FireTimer | client/src/contexts/ChatContext.js:101-103 | a fired timer removes its name and is itself dropped; the other timers stay in order |
| ChatContext.ChatProvider.LoadRooms | client/src/contexts/ChatContext.js:123-136 | on success the rooms are replaced; on failure the server's message or the fallback text is set as the error; loading ends either way |
| ChatContext.ChatProvider.LoadMessages | client/src/contexts/ChatContext.js:138-155 | on success the messages follow `MessagesAfterLoad`; on failure an error is set |
| ChatContext.ChatProvider.CreateRoom | client/src/contexts/ChatContext.js:157-167 | on success the room is put first in the list; on failure the error is set and returned |
| ChatContext.ChatProvider.JoinRoom | client/src/contexts/ChatContext.js:169-187 | after a successful join, the socket joins, the first room with the id becomes current, and its messages are loaded; if no room has the id, the state is unchanged; a failure sets the error |
| ChatContext.ChatProvider.LeaveRoom | client/src/contexts/ChatContext.js:189-195 | always leaves on the socket; clears `currentRoom` and `messages` only if the room left is the current one |
| ChatContext.ChatProvider.ClearError | client/src/contexts/ChatContext.js:209-211 | clears the error and nothing else |
| MessageInput.ClearRefEmpties | client/src/components/Chat/MessageInput.js:37-39 | with at most one timer, the one the ref names, `clearTimeout` leaves none |
| MessageInput.Change | client/src/components/Chat/MessageInput.js:20-53 | `handleInputChange` on the input state; `ChangeKeepsOneTimer`, `StartOnlyOnTransition` and `BlankWhileTypingStops` state what it does |
| MessageInput.Submit | client/src/components/Chat/MessageInput.js:55-85 | `handleSubmit`; `SubmitBlankOrRoomlessDoesNothing` and `SubmitSendsTrimmed` state what it does |
| MessageInput.KeyDown | client/src/components/Chat/MessageInput.js:87-92 | `handleKeyDown`; `BlurAndEnter` states what it does |
| MessageInput.Blur | client/src/components/Chat/MessageInput.js:94-103 | `handleBlur`; `BlurAndEnter` states what it does |
| MessageInput.Fire | client/src/components/Chat/MessageInput.js:42-48 | a scheduled stop-typing timer runs with the values it captured; `TimerUsesCapturedFlag` states what it does |
| MessageInput.ChangeKeepsOneTimer | client/src/components/Chat/MessageInput.js:37-48 | a non-blank keystroke leaves exactly one timer, the new one, which captures the current `isTyping` and room; a blank one leaves none |
| MessageInput.HandlersKeepValid | client/src/components/Chat/MessageInput.js:55-103 | submit, blur, key-down and a timer firing all keep at most one timer, the one the ref names |
| MessageInput.SubmitBlankOrRoomlessDoesNothing | client/src/components/Chat/MessageInput.js:58-60 | a blank message, or no room, means no action and no state change |
| MessageInput.SubmitSendsTrimmed | client/src/components/Chat/MessageInput.js:63-74 | sends the trimmed text as a `text` message, empties the box, ends typing, and emits exactly one stop if typing was announced |
| MessageInput.StartOnlyOnTransition | client/src/components/Chat/MessageInput.js:31-34 | `startTyping` is emitted if and only if the value is non-blank, typing was not announced, and a room is present |
| MessageInput.BlankWhileTypingStops | client/src/components/Chat/MessageInput.js:49-52 | clearing the box while typing emits one `stopTyping` and ends typing |
| MessageInput.TimerUsesCapturedFlag | client/src/components/Chat/MessageInput.js:42-48 | a timer emits `stopTyping` if and only if it captured `isTyping` true and a room |
| MessageInput.FirstKeystrokeTimerNeverStops | client/src/components/Chat/MessageInput.js:31-48 | the first keystroke's timer fires without a stop, and the client stays marked as typing |
| MessageInput.BlurAndEnter | client/src/components/Chat/MessageInput.js:87-103 | blur while typing stops and clears the timer, otherwise it does nothing; Enter without Shift submits, Shift+Enter does nothing |
| MessageInput.MessageBox.constructor | client/src/components/Chat/MessageInput.js:5-8 | empty message, not typing, no timer |
| MessageInput.MessageBox.ClearTimeout | client/src/components/Chat/MessageInput.js:37-39 | cancels the timer the ref names |
| MessageInput.MessageBox.HandleInputChange | client/src/components/Chat/MessageInput.js:20-53 | new state and actions equal `Change` of the old state |
| MessageInput.MessageBox.HandleSubmit | client/src/components/Chat/MessageInput.js:55-85 | new state and actions equal `Submit` of the old state |
| MessageInput.MessageBox.HandleKeyDown | client/src/components/Chat/MessageInput.js:87-92 | new state and actions equal `KeyDown` of the old state |
| MessageInput.MessageBox.HandleBlur | client/src/components/Chat/MessageInput.js:94-103 | new state and actions equal `Blur` of the old state |
| MessageInput.MessageBox.TimerFires | client/src/components/Chat/MessageInput.js:42-48 | new state and actions equal `Fire` of the old state |
| SocketHandler.Authenticate | server/socket/socketHandler.js:4-25 | the socket is authenticated if and only if the token is non-empty, verification succeeds and the user is found, and then it carries that user |
| SocketHandler.IndexOfUser | server/socket/socketHandler.js:36-39 | the first registry position holding that user id, or none if no entry has it |
| SocketHandler.IndexOfFirst | server/socket/socketHandler.js:36-39 | a position holding the id with no earlier one holding it is the position the lookup finds |
| SocketHandler.Get | server/socket/socketHandler.js:36-39 | `Map.get` by user id: the entry at the first position with that id, or none |
| SocketHandler.Put | server/socket/socketHandler.js:36-39 | `Map.set`: the registry grows by one exactly when the key is new; looking the key up then gives the new entry; entries of other keys stay in place |
| SocketHandler.Delete | server/socket/socketHandler.js:140 | `Map.delete` never grows the registry |
| SocketHandler.Snapshot | server/socket/socketHandler.js:149-155 | the `{id, username, avatar}` projection of every entry, in registry order |
| SocketHandler.Connected | server/socket/socketHandler.js:36-49 | the `connection` handler; `ConnectEmits` pins its new state and its two emits, and `SecondConnectionOverwrites` the re-connection |
| SocketHandler.JoinRoom | server/socket/socketHandler.js:52-66 | the `joinRoom` handler; `JoinRoomOutcomes` states what it does |
| SocketHandler.LeaveRoom | server/socket/socketHandler.js:69-76 | the `leaveRoom` handler; `LeaveRoomAlwaysRelays` states what it does |
| SocketHandler.ValidContent | server/models/Message.js:10-16 | content is present, not whitespace only (`notEmpty`), and 1 to 1000 characters long (`len`) |
| SocketHandler.Typing | server/socket/socketHandler.js:114-120 | the `typing` handler; `TypingRelays` pins its one emit and its audience |
| SocketHandler.StopTyping | server/socket/socketHandler.js:122-127 | the `stopTyping` handler; `TypingRelays` pins its one emit and its audience |
| SocketHandler.Disconnect | server/socket/socketHandler.js:130-146 | the `disconnect` handler; `DisconnectOutcome` states what it does for every input |
| SocketHandler.GetFindsUnique | server/socket/socketHandler.js:36-39 | with unique keys, looking up an entry's user id returns that entry |
| SocketHandler.PutIsMapUpdate | server/socket/socketHandler.js:36-39 | `set` keeps keys unique, maps the key to the new entry, and leaves other keys' entries alone |
| SocketHandler.DeleteRemovesKey | server/socket/socketHandler.js:140 | after `delete`, the key is absent and every other key's entry is unchanged |
| SocketHandler.DeleteKeepsUnique | server/socket/socketHandler.js:140 | `delete` keeps keys unique |
| SocketHandler.Recipients | server/socket/socketHandler.js:47-146 | `socket.emit` reaches the sender only; `socket.to(room)` exactly the other live sockets in the room; `io.to(room)` exactly the live sockets in the room; `socket.broadcast` exactly the other live sockets |
| SocketHandler.DropSocket | server/socket/socketHandler.js:130-146 | a disconnected socket leaves all its rooms, and nothing else changes |
| SocketHandler.SendMessage | server/socket/socketHandler.js:79-111 | sending changes no server state; `SendMessageOutcomes` states its emits |
| SocketHandler.CreatedRow | server/socket/socketHandler.js:83-97 | the row `Message.create` stores and `findByPk` reloads with its `User` |
| SocketHandler.MessageKind | server/socket/socketHandler.js:81 | `type` defaults to `'text'` |
| SocketHandler.ConnectEmits | server/socket/socketHandler.js:36-49 | exactly two emits: `userOnline` to everyone but the newcomer, then the newcomer's snapshot, which is the projection of the whole new registry and includes the newcomer; the socket becomes live with its user; the registry maps the user to the new socket and leaves every other key's entry alone |
| SocketHandler.SecondConnectionOverwrites | server/socket/socketHandler.js:36-39 | a second connection of the same user replaces the entry and does not add one |
| SocketHandler.DisconnectForgetsOtherSocket | server/socket/socketHandler.js:130-146 | disconnecting one of two sockets deletes the user's entry while the other socket is still live, and broadcasts `userOffline` |
| SocketHandler.DisconnectOutcome | server/socket/socketHandler.js:130-146 | the socket is no longer live and is out of all its rooms; after a successful update the user's key is gone, every other key keeps its entry, and exactly one `userOffline` goes to the others; after a rejected one the registry stays and nothing is emitted |
| SocketHandler.FailedUpdateLeavesStaleEntry | server/socket/socketHandler.js:130-146 | when the awaited user update rejects, there is no delete and no broadcast |
| SocketHandler.JoinRoomOutcomes | server/socket/socketHandler.js:52-66 | an existing room subscribes the socket and relays to the others only; a missing room changes nothing; a failed lookup sends the error to the sender; joining twice relays twice |
| SocketHandler.LeaveRoomAlwaysRelays | server/socket/socketHandler.js:69-76 | leaving unsubscribes and always relays `userLeftRoom` |
| SocketHandler.SendMessageOutcomes | server/socket/socketHandler.js:79-111 | `newMessage` is emitted, to the whole room, if and only if the content is valid, the create succeeds and the reload does not reject; the broadcast row has the sent content, the type (`text` by default), the sender as author, the room, the store's id and time, and is not edited; any failure before the broadcast yields exactly the sender's error; full success emits exactly one event |
| SocketHandler.TouchFailureAfterBroadcast | server/socket/socketHandler.js:100-110 | for valid content, a failed room touch after the broadcast of the created row also sends the sender the error |
| SocketHandler.NullReloadBroadcastsNull | server/socket/socketHandler.js:90-100 | for valid content, a reload that finds nothing broadcasts a null message |
| SocketHandler.BlankContentIsRejected | server/models/Message.js:14 | whitespace-only content fails `notEmpty`, so the sender gets only the error even when every store call would succeed |
| SocketHandler.TypingRelays | server/socket/socketHandler.js:114-127 | each handler emits exactly one relay, to the other live sockets in the room, and changes nothing; `userTyping` carries the username, `userStoppedTyping` does not |
| SocketHandler.Coordinator.constructor | server/socket/socketHandler.js:27 | empty registry, no sockets, no subscriptions |
| SocketHandler.Coordinator.Handshake | server/socket/socketHandler.js:4-49 | an authenticated socket is connected as `Connected` states; a rejected one changes nothing and emits nothing |
| SocketHandler.Coordinator.OnJoinRoom | server/socket/socketHandler.js:52-66 | new state and emits equal `JoinRoom` |
| SocketHandler.Coordinator.OnLeaveRoom | server/socket/socketHandler.js:69-76 | new state and emits equal `LeaveRoom` |
| SocketHandler.Coordinator.OnSendMessage | server/socket/socketHandler.js:79-111 | new state and emits equal `SendMessage` |
| SocketHandler.Coordinator.OnTyping | server/socket/socketHandler.js:114-120 | emits equal `Typing`; the state is unchanged |
| SocketHandler.Coordinator.OnStopTyping | server/socket/socketHandler.js:122-127 | emits equal `StopTyping`; the state is unchanged |
| SocketHandler.Coordinator.OnDisconnect | server/socket/socketHandler.js:130-146 | new state and emits equal `Disconnect` |
| Delivery.StopTypingRelayClearsNothing | client/src/contexts/ChatContext.js:106-108 | the server's stop-typing relay, as the client handles it, leaves the client state unchanged |
| Delivery.Listen | client/src/contexts/ChatContext.js:78-114 | the action each listener dispatches for a server payload; `userJoinedRoom` and `userLeftRoom` have no listener |
| Delivery.Deliver | client/src/contexts/ChatContext.js:78-116 | the client state after the reducer folds in the dispatched action; the lemmas below state what it does |
| Delivery.TypingRelayAddsName | client/src/contexts/ChatContext.js:98-104 | the typing relay puts the sender's name among the client's typing users |
| Delivery.OnlineThenOfflineKeepsEntry | client/src/contexts/ChatContext.js:85-91 | after the server's `userOnline` and `userOffline` for the same user, the client still lists the user |
| Delivery.SnapshotEntriesAreRemovable | client/src/contexts/ChatContext.js:93-95 | entries from the `onlineUsers` snapshot carry an `id`, so `userOffline` removes them |
| Delivery.NewMessageAppended | client/src/contexts/ChatContext.js:80-82 | a broadcast message is appended to the client's list |
| Utils.TruncateText | client/src/utils/index.js:81-85 | a falsy text gives `''`; a text within the limit comes back unchanged; a longer one gives a trimmed prefix plus `...` |
| Utils.TruncatedIsTrimmedPrefix | client/src/utils/index.js:81-85 | a truncated result is at most `maxLength + 3` long, and is the first `maxLength` characters, trimmed, plus `...` |
| Utils.CapitalizeFirst | client/src/utils/index.js:87-90 | a falsy input gives `''`; otherwise the first character is upper-cased and the rest is unchanged |
| Utils.GenerateInitials | client/src/utils/index.js:92-100 | a falsy name gives `?`; the result has at most two characters |
| Utils.WordStartCharsInWord | client/src/utils/index.js:92-100 | a word without spaces contributes only its first character to the word starts |
| Utils.FirstCharsOfSplit | client/src/utils/index.js:94-97 | the first characters of the pieces of `split(' ')` are exactly the characters that follow a space or the start |
| Utils.WordStartsAcrossSpace | client/src/utils/index.js:94-97 | the word starts of a string are its first word's initial, then the word starts after the first space |
| Utils.InitialsAreWordStarts | client/src/utils/index.js:92-100 | the initials are the first two word starts, upper-cased |
| Utils.RunEnd | client/src/utils/index.js:166-170 | the end of the maximal word-character run starting at `i` |
| Utils.WordClassIff | client/src/utils/index.js:132-140 | the anchored `[A-Za-z0-9_]{min,max}` test holds if and only if every character is a word character and the length is in range |
| Utils.ValidateUsername | client/src/utils/index.js:132-140 | the length flags report 3 and 20 characters |
| Utils.UsernameValidIff | client/src/utils/index.js:132-140 | `isValid` holds if and only if the name has 3 to 20 word characters, which is also `minLength && maxLength && validChars` |
| Utils.ValidatePassword | client/src/utils/index.js:121-130 | `isValid` equals `minLength`, which is length at least 6; each of the upper-case, lower-case, digit and special-character flags holds if and only if such a character occurs |
| Utils.ShouldGroupMessages | client/src/utils/index.js:143-151 | true if and only if both messages exist, they have the same user, and the time difference is below the threshold |
| Utils.NoMentionsInsideRun | client/src/utils/index.js:161-173 | an `@` inside a word-character run starts no mention |
| Utils.ScanFindsEveryAtSign | client/src/utils/index.js:161-173 | the scan equals, in order, the non-empty word run after each `@` that is not inside an earlier mention |
| Utils.MentionsAreWords | client/src/utils/index.js:161-173 | every mention is a non-empty run of word characters |
| Utils.DetectMentions | client/src/utils/index.js:161-173 | the loop returns the scan's mentions, and `[]` for a falsy input |
| Utils.LastPieceIsSuffix | client/src/utils/index.js:188 | the last piece of a split is the suffix after the last separator, or the whole string when there is none |
| Utils.LastPieceAfterFirst | client/src/utils/index.js:188 | past the first separator, the split has the same last piece |
| Utils.AfterLastShift | client/src/utils/index.js:188 | the last separator of the text after a separator is the last separator of the whole |
| Utils.GetFileExtension | client/src/utils/index.js:186-189 | a falsy name gives `''`; otherwise the lower-cased text after the last `.` |
| Utils.IsImageFile | client/src/utils/index.js:191-195 | true if and only if the name is truthy and its extension is on the image list |
| Utils.IsVideoFile | client/src/utils/index.js:197-201 | true if and only if the name is truthy and its extension is on the video list |
| Utils.IsAudioFile | client/src/utils/index.js:203-207 | true if and only if the name is truthy and its extension is on the audio list |
| Utils.ListsDisjoint | client/src/utils/index.js:191-207 | lists with no common element share no member |
| Utils.FileKindsExclusive | client/src/utils/index.js:191-207 | no name is of two kinds |
| Utils.KeysOfSnoc | client/src/utils/index.js:263-273 | appending an item adds exactly its key to the seen keys |
| Utils.UniqueBy | client/src/utils/index.js:263-273 | the loop with its `seen` set returns the first item for each key, in input order |
| Utils.FirstOfEachKeyProperties | client/src/utils/index.js:263-273 | no two kept items share a key, every key of the input is kept, and the result is a subsequence of the input |
| Utils.SubsequenceSnoc | client/src/utils/index.js:263-273 | keeping or dropping the next item preserves the subsequence relation |
| Utils.SingletonSubsequence | client/src/utils/index.js:263-273 | one item is a subsequence of any list ending with it |
| Utils.GroupsSnoc | client/src/utils/index.js:275-282 | a new item is appended to its key's group, and every other group is unchanged |
| Utils.GroupBy | client/src/utils/index.js:275-282 | the accumulating loop returns the groups of the input |
| Utils.GroupsPartition | client/src/utils/index.js:275-282 | every item is in its key's group; every group holds only items of its key; each group keeps input order |
| Utils.GetErrorMessage | client/src/utils/index.js:312-317 | the order is: a string, then `response.data.message`, then `message`, then the fallback text |
| Utils.IsNetworkError | client/src/utils/index.js:319-323 | offline, or the network code, or the network message |
| Utils.FormatRelativeTime | client/src/utils/index.js:47-65 | no date gives `Unknown`; otherwise one bucket (now, minutes, hours, days, weeks, months, years) per range of the difference, with the floored count |
| MessageList.Previous | client/src/components/Chat/MessageList.js:30-43 | the message before index `i`, or none at index 0 |
| MessageList.IsSameUser | client/src/components/Chat/MessageList.js:30-32 | a previous message exists and has the same `userId` |
| MessageList.IsWithinTimeThreshold | client/src/components/Chat/MessageList.js:34-38 | a previous message exists and is less than 60000 ms older |
| MessageList.ShowAvatar | client/src/components/Chat/MessageList.js:40-43 | `shouldShowAvatar`; `ShowAvatarIff` and `FirstMessageShowsAvatar` state what it does |
| MessageList.RenderRow | client/src/components/Chat/MessageList.js:66-119 | `isCurrentUser` holds if and only if the sender is the logged-in user; the timestamp shows exactly when the avatar does; the avatar image shows only for others' grouped heads; the edited mark follows the message |
| MessageList.Render | client/src/components/Chat/MessageList.js:45-69 | an empty list shows the empty state; otherwise there is one row per message |
| MessageList.FirstMessageShowsAvatar | client/src/components/Chat/MessageList.js:30-43 | index 0 always shows an avatar |
| MessageList.ShowAvatarIff | client/src/components/Chat/MessageList.js:30-43 | the avatar is hidden if and only if a previous message exists, from the same user, less than 60000 ms earlier; this is the negation of `shouldGroupMessages` |
| MessageList.OutOfOrderStampsGroup | client/src/components/Chat/MessageList.js:34-38 | a previous message with a later timestamp counts as within the threshold |
| ChatArea.MemberCount | client/src/components/Chat/ChatArea.js:38 | the number of `Users`, or 0 when absent |
| ChatArea.TypingLabel | client/src/components/Chat/ChatArea.js:62-73 | no label if and only if nobody is typing; one typer gives `"<name> is typing..."`; two or more give the names joined by `", "` and `" and "` before `" are typing..."` |
| ChatArea.Render | client/src/components/Chat/ChatArea.js:18-73 | nothing renders if and only if there is no current room; the header has the room's name, member count and `isPrivate`, the upper-cased first character of the name, and the room's description exactly when it is non-empty; the label comes from the typers |
| ChatArea.ContainsMiddle | client/src/components/Chat/ChatArea.js:71-73 | a string occurs in any text built around it |
| ChatArea.ContainsExtend | client/src/components/Chat/ChatArea.js:71-73 | an occurrence survives appending |
| ChatArea.JoinContainsParts | client/src/components/Chat/ChatArea.js:73 | every part occurs in the join |
| ChatArea.LabelNamesEveryTyper | client/src/components/Chat/ChatArea.js:71-73 | the label names every typer |
| ChatArea.LabelExamples | client/src/components/Chat/ChatArea.js:73 | the exact labels for two and three typers |
| OnlineUsers.FilteredOnlineUsers | client/src/components/Chat/OnlineUsers.js:12 | the filter never grows the list |
| OnlineUsers.FilteredIsExactlyOthers | client/src/components/Chat/OnlineUsers.js:12 | the entries kept are exactly those whose `id` differs from the current user's, each as often as before, in original order |
| OnlineUsers.Render | client/src/components/Chat/OnlineUsers.js:51-103 | the header count is the filtered length; the skeleton shows if and only if loading; the empty state shows if and only if the filtered list is empty and loading has ended |
| OnlineUsers.FormatLastSeen | client/src/components/Chat/OnlineUsers.js:18-33 | exactly one bucket per range of the difference, each with its floored count; no value gives `Unknown` |
| OnlineUsers.Label | client/src/components/Chat/OnlineUsers.js:18-33 | the label text of each bucket; `LastSeenAgreesWithRelativeTime` states what it gives |
| OnlineUsers.LastSeenAgreesWithRelativeTime | client/src/components/Chat/OnlineUsers.js:18-33 | below 7 days the label is that of `formatRelativeTime` |
| ErrorHandling.DefaultResult | client/src/utils/errorHandler.js:103-110 | `{type:'unknown', retry:true}` with the error's message; the text with a full stop appears exactly for an empty string error, or when that is the message |
| ErrorHandling.Run | client/src/utils/errorHandler.js:12-81 | runs one registered handler; `DefaultNetwork`, `DefaultUnauthorized`, `DefaultFixedStatuses` and `DefaultValidation` state what each gives |
| ErrorHandling.ErrorCode | client/src/utils/errorHandler.js:88-97 | the network code whenever `isNetworkError` holds; otherwise the response status when present and non-zero; otherwise `UNKNOWN`; no code (the call throws) for a null error |
| ErrorHandling.HandleWith | client/src/utils/errorHandler.js:88-101 | a code with no registered handler falls back to the default result; a null error online throws |
| ErrorHandling.DefaultHandlers | client/src/utils/errorHandler.js:10-82 | the constructor registers the network code and 401, 403, 404, 422 and 500 |
| ErrorHandling.DefaultNetwork | client/src/utils/errorHandler.js:12-19 | a network error yields `{type:'network', retry:true}` |
| ErrorHandling.DefaultUnauthorized | client/src/utils/errorHandler.js:22-39 | 401 yields `{type:'auth', retry:false}` and removes `token` and `user` |
| ErrorHandling.DefaultFixedStatuses | client/src/utils/errorHandler.js:42-81 | 403 yields `permission`, 404 `notFound` (neither retried), and 500 `server` (retried) |
| ErrorHandling.DefaultValidation | client/src/utils/errorHandler.js:62-71 | 422 yields `validation`, no retry, the response's `errors` or `[]`, and the `getErrorMessage` text |
| ErrorHandling.NetworkBeforeStatus | client/src/utils/errorHandler.js:88-97 | offline, an error with a status is still classed as network |
| ErrorHandling.UnknownCodesFallBack | client/src/utils/errorHandler.js:99-110 | an unregistered code yields `{type:'unknown', retry:true}` |
| ErrorHandling.HandleSocketError | client/src/utils/errorHandler.js:113-120 | `{type:'socket', retry:true}` |
| ErrorHandling.HandleFileUploadError | client/src/utils/errorHandler.js:122-146 | `FILE_TOO_LARGE` yields `fileSize`, `INVALID_FILE_TYPE` yields `fileType` (neither retried), anything else `upload` (retried); a null error throws |
| ErrorHandling.HandleAuthError | client/src/utils/errorHandler.js:148-161 | `auth`, no retry, redirect to `/login`, and removes `token` and `user` |
| ErrorHandling.ErrorHandler.constructor | client/src/utils/errorHandler.js:5-8 | the registry holds the default handlers |
| ErrorHandling.ErrorHandler.Register | client/src/utils/errorHandler.js:84-86 | `Map.set`: the code now maps to the new handler |
| ErrorHandling.ErrorHandler.Handle | client/src/utils/errorHandler.js:88-101 | handles through the current registry and changes nothing |
| ErrorHandling.LastRegistrationWins | client/src/utils/errorHandler.js:84-86 | of two registrations for a code, the later one runs |
| ErrorHandling.RegisterIsLocal | client/src/utils/errorHandler.js:84-101 | a registration does not affect errors of other codes |
| ChatController.InsertByUpdated | server/controllers/chatController.js:14 | insertion keeps the list newest first and adds exactly the room |
| ChatController.ByUpdatedDesc | server/controllers/chatController.js:14 | a newest-first permutation of the rooms |
| ChatController.ConsNewestFirst | server/controllers/chatController.js:14 | a room no older than the head of a newest-first list may go in front of it |
| ChatController.MembersOf | server/controllers/chatController.js:8-13 | exactly the users joined to the room |
| ChatController.RoomsResponse | server/controllers/chatController.js:4-28 | 200 with every room on success; otherwise the 500 answer |
| ChatController.RoomsAreNewestFirst | server/controllers/chatController.js:14 | the listed rooms are a newest-first permutation of all rooms, each with its members |
| ChatController.Offset | server/controllers/chatController.js:34 | `(page - 1) * limit` |
| ChatController.TotalPages | server/controllers/chatController.js:52 | `Math.ceil(count / limit)`; `TotalPagesIsCeiling` states what it gives |
| ChatController.InsertByCreated | server/controllers/chatController.js:44 | insertion keeps the list oldest first and adds exactly the message |
| ChatController.InsertStep | server/controllers/chatController.js:44 | inserting past the head keeps the order and adds exactly the message |
| ChatController.ConsOldestFirst | server/controllers/chatController.js:44 | a message no newer than the head of an oldest-first list may go in front of it |
| ChatController.ByCreated | server/controllers/chatController.js:44 | an oldest-first permutation of the messages |
| ChatController.RoomMessages | server/controllers/chatController.js:36-44 | the room's messages by `createdAt`, oldest first: exactly the stored messages of that room, each as often as stored |
| ChatController.PageOf | server/controllers/chatController.js:44-51 | the `offset`/`limit` window of the newest-first order, then `rows.reverse()`; `PageIsChronologicalWindow` states what it gives |
| ChatController.TotalPagesIsCeiling | server/controllers/chatController.js:52 | `totalPages` is the ceiling of `count / limit`, and 0 exactly when there are no messages |
| ChatController.MessagesResponse | server/controllers/chatController.js:30-63 | pages default to 1 and limits to 50; on success the page, the room's total, the page count and the current page; otherwise the 500 answer |
| ChatController.PageIsChronologicalWindow | server/controllers/chatController.js:36-51 | the page is the window `[offset, offset + limit)` of the newest-first order, reversed, hence oldest first |
| ChatController.PageSize | server/controllers/chatController.js:44-45 | at most `limit` messages |
| ChatController.PageHoldsWindow | server/controllers/chatController.js:44-51 | a page holds only messages of its list, and is oldest first when the list is |
| ChatController.SliceHoldsItsElements | server/controllers/chatController.js:44-51 | a slice of an oldest-first list holds only its elements, oldest first |
| ChatController.FirstPageIsLatest | server/controllers/chatController.js:44-51 | page 1 is the latest `limit` messages of the room, oldest first, and no message left off it is newer than one on it |
| ChatController.PagesHoldOnlyTheRoom | server/controllers/chatController.js:36-51 | a page holds only stored messages of the room, oldest first |
| ChatController.PagesTile | server/controllers/chatController.js:34-51 | two consecutive pages, the older one first, make up the double-size page |
| ChatController.NextPageOffset | server/controllers/chatController.js:34 | the next page starts exactly `limit` later |
| ChatController.Api.constructor | server/controllers/chatController.js:1 | starts from the given rooms, memberships and messages |
| ChatController.Api.GetRooms | server/controllers/chatController.js:4-28 | answers `RoomsResponse` of the store |
| ChatController.Api.GetMessages | server/controllers/chatController.js:30-63 | answers `MessagesResponse` of the store |
| ChatController.ValidRoomName | server/models/Room.js:10-16 | a name is required and 1 to 50 characters long |
| ChatController.IsStored | server/controllers/chatController.js:96 | `Room.findByPk` finds a row exactly when a stored room has the id |
| ChatController.Api.CreateRoom | server/controllers/chatController.js:65-90 | `isPrivate` defaults to false; the room is created and the creator added, and the answer is 201; a failed create answers 500 with nothing stored; a failed `addUser` answers 500 with the room kept |
| ChatController.Api.JoinRoom | server/controllers/chatController.js:92-117 | a room that is not stored answers 404 `Room not found` with no membership change; a stored one gets the requester added and the answer 200; store failures answer 500 |
| Text.Trim | client/src/components/Chat/MessageInput.js:58 | `String.prototype.trim`; never longer than its input |
| Text.TrimIsCore | client/src/utils/index.js:84 | the trimmed string is a piece of the input with only whitespace cut off either side, and a non-empty result neither starts nor ends with whitespace |
| Text.TrimEmptyIff | client/src/components/Chat/MessageInput.js:58 | `trim()` is empty if and only if the input is whitespace only |
| Text.Split | client/src/utils/index.js:95 | `split(c)`: at least one piece, and no piece holds the separator |
| Text.Join | client/src/components/Chat/ChatArea.js:73 | `join(sep)`; `JoinSplit` and `ChatArea.JoinContainsParts` state what it gives |
| Text.JoinCons | client/src/components/Chat/ChatArea.js:73 | a join is its first part, the separator, then the join of the rest |
| Text.JoinSplit | client/src/utils/index.js:94-97 | joining the pieces of `split(c)` with `c` gives back the string |
| Seqs.FilterMembers | client/src/components/Chat/OnlineUsers.js:12 | `filter` keeps an element exactly when it occurs and passes the test |
| Seqs.FilterIsSubsequence | client/src/components/Chat/OnlineUsers.js:12 | `filter` keeps its survivors in their original order |
| Seqs.FilterCount | client/src/components/Chat/OnlineUsers.js:12 | `filter` keeps each passing element as often as it occurs and drops every other |
| Text.NatToString | client/src/components/Chat/OnlineUsers.js:29-31 | the decimal digits of a count in a template literal; `NatToStringValue` states what they spell |
| Text.NatToStringValue | client/src/components/Chat/OnlineUsers.js:29-31 | the digits spell the number, with no leading zero |

## Code versus intent

The model follows the code. In each place below, the code's own checks,
names or comments show what it means to do, and the code does something
else.

- **`userOnline` entries.** The reducer's `UPDATE_USER_ONLINE` case tests
  `u.id === action.payload.userId` before appending
  (client/src/contexts/ChatContext.js:30), so it means to skip a user who is
  already listed. `UPDATE_USER_OFFLINE` filters on the same test (line 37).
  But the stored `userOnline` payload is `{userId, username, avatar}` without
  an `id`. So `userOffline` never removes these entries, and a second
  `userOnline` for the same user duplicates the entry
  (`ChatContext.OnlineEventEntryOutlivesOffline`,
  `Delivery.OnlineThenOfflineKeepsEntry`).
- **`userStoppedTyping`.** The client's listener removes `data.username`
  (client/src/contexts/ChatContext.js:107). The server's `userStoppedTyping`
  payload holds only `userId` and `roomId`
  (server/socket/socketHandler.js:123-126), so the client removes
  `undefined`. Only the 3 s timer clears the name
  (`Delivery.StopTypingRelayClearsNothing`).
- **Typing timers on the client.** The comment "Auto remove after 3 seconds"
  (client/src/contexts/ChatContext.js:100) names one removal per typer, but
  the timers are never cancelled or refreshed. An earlier timer removes a
  name that was signalled again since
  (`ChatContext.EarlierTimerRemovesRefreshedTyper`).
- **`ADD_MESSAGE`.** `messages` holds the current room's messages, as loaded
  by `loadMessages(roomId)`, but `ADD_MESSAGE` does not check the message's
  room (client/src/contexts/ChatContext.js:20-24).
- **Socket `joinRoom`.** A duplicate socket `joinRoom` relays twice
  (`SocketHandler.JoinRoomOutcomes`). The socket join does not check
  `isPrivate`, which the room model defines.
- **Disconnect.** `connectedUsers` is keyed by user id, and the comment
  "Remove from connected users" (server/socket/socketHandler.js:139) deletes
  that key. So a disconnect removes the user's entry even while another
  socket of that user is live (`SocketHandler.DisconnectForgetsOtherSocket`).
  When the awaited user update rejects, neither the delete nor the
  broadcast happens (`SocketHandler.FailedUpdateLeavesStaleEntry`).
- **Failures after the broadcast.** One `catch` block covers the whole
  handler (server/socket/socketHandler.js:108-110). When the room touch fails
  after the broadcast, the room has the message and the sender is still
  told "Failed to send message" (`SocketHandler.TouchFailureAfterBroadcast`).
- **Null reload.** `findByPk` (server/socket/socketHandler.js:90) may find
  nothing, and `newMessage` is then broadcast with `null`
  (`SocketHandler.NullReloadBroadcastsNull`).
- **Input timer closure.** The input's timer callback reads the `isTyping`
  of the render that scheduled it
  (client/src/components/Chat/MessageInput.js:42-48). So the first
  keystroke's timer never sends a stop
  (`MessageInput.FirstKeystrokeTimerNeverStops`).
- **`defaultHandler` fallback text.** The fallback text with a full stop
  appears only for an empty string error. An `Error` without a message gets
  `getErrorMessage`'s text without one. `handle(null)` while online throws
  on `error.response.status`.
- **`createRoom`.** A failed `addUser` in `createRoom` answers 500 but
  leaves the room created.

## Left out

**External systems**
- Socket and HTTP transport, React rendering and hooks scheduling are out: emits are returned lists, and renders are view records.
- The database is out: each awaited store call is an outcome parameter (found, not found, rejects). Sequelize ENUM validation of `type` is folded into `createOk`.
- `SocketHandler.CreatedRow`: the reloaded `User` is taken to be `socket.user` as the handshake loaded it; a change to that user's row since the handshake is not modelled.
- JSON Web Token verification and bcrypt are out: verification is an oracle function.
- Concurrency is out: handlers run one at a time, in one interleaving of events. An `isOnline` update that is not awaited is not modelled.

**Not modelled at all**
- `formatTime`, `toLocaleDateString` and `formatFileSize` are out: they are locale-dependent formatting or floating point. `OnlineUsers.FormatLastSeen`'s locale date is an opaque value.
- `getRandomColor`, `debounce`, `throttle`, the storage, clipboard and notification helpers and `notifications.js` are out: they rely on randomness, real timers or browser APIs.
- `RoomList.js`, `ChatDashboard.js`, the routers and `constants.js` are out: they are UI wiring or data only. Their numbers appear as constants.
- `refreshOnlineUsers` in `OnlineUsers.js` and `getOnlineUsers` in `chatController.js` are out: they only forward a foreign call.
- The socket handlers' behaviour when `data` is missing is out.

**Partial models**
- `Text.Upper` and `Text.Lower`: they map ASCII letters only, where JavaScript maps all of Unicode.
- String lengths count Dafny characters, not UTF-16 code units.
- `Utils.GroupBy`: the groups are a map, so the string coercion of object keys and the key order are not modelled. Nor is a key named like an `Object.prototype` property (`constructor`, `toString`, `__proto__`): the source finds the inherited value truthy and its `.push` throws, while the model makes a fresh group.
- `Utils.UniqueBy`: a property name is modelled as a key function.
- `ChatController.MessagesResponse`: requires a page and a limit of at least 1. A non-numeric, zero or negative page or limit depends on how the database treats the query, and is not modelled. A fractional value such as `1.5` is not modelled either: the source `parseInt`s `limit` and `page` for the query's `limit` and for `currentPage`, but uses the raw values in `offset` and in `Math.ceil`.
- `ChatController.ByUpdatedDesc`: the order of rooms with equal `updatedAt` is the database's, and is not fixed in the model.
- `ChatController.PageOf`: messages with equal `createdAt` come in store order in the model (`ChatController.ByCreated` is a stable insertion sort); the database leaves their order open.
- `ChatContext.ChatProvider.LoadMessages`: for a page after the first, the model prepends the fetched messages to the state current when the response arrives. The source reads the `state.messages` captured when the request was made, so messages that arrive during the fetch are lost; the model does not capture this.
- `Delivery.Deliver`: it does not fold a null `newMessage` into the state.
- `Utils.FormatRelativeTime`: a falsy date is modelled as an absent one only. The same holds for `OnlineUsers.FormatLastSeen`.
