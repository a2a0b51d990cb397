/** The message list: which rows start a new group (avatar, name and time
    shown) and which continue the previous sender's group. */
module MessageList {
  import opened Wrappers
  import opened ClientModel
  import Utils

  /** Gap, in ms, under which a message continues its sender's group. */
  const GroupThresholdMs: int := 60000

  /** `isSameUser(current, prev)`: there is a previous message and it is by the same user. */
  predicate IsSameUser(current: ChatMessage, prev: Option<ChatMessage>) {
    prev.Some? && current.userId == prev.value.userId
  }

  /** `isWithinTimeThreshold(current, prev)`. */
  predicate IsWithinTimeThreshold(current: ChatMessage, prev: Option<ChatMessage>) {
    prev.Some? && current.createdAt - prev.value.createdAt < GroupThresholdMs
  }

  /** `messages[index - 1]`, which is `undefined` for the first message. */
  function Previous(messages: seq<ChatMessage>, i: nat): (p: Option<ChatMessage>)
    requires i < |messages|
    ensures p.None? <==> i == 0
    ensures p.Some? ==> p.value == messages[i - 1]
  {
    if i == 0 then None else Some(messages[i - 1])
  }

  /** `shouldShowAvatar(message, index)`. */
  predicate ShowAvatar(messages: seq<ChatMessage>, i: nat)
    requires i < |messages|
  {
    !IsSameUser(messages[i], Previous(messages, i)) || !IsWithinTimeThreshold(messages[i], Previous(messages, i))
  }

  /** What the list draws for one message. */
  datatype Row = Row(
    isCurrentUser: bool,   // the bubble is on the right
    showAvatar: bool,
    showTimestamp: bool,
    avatarImage: bool,     // the sender's picture, otherwise a blank spacer
    senderHeader: bool,    // the sender's name and time above the bubble
    ownTimestamp: bool,    // the time inside one's own bubble
    editedMark: bool)

  datatype ListView = NoMessagesYet | Rows(rows: seq<Row>)

  function RenderRow(messages: seq<ChatMessage>, i: nat, me: Option<UserId>): (row: Row)
    requires i < |messages|
    ensures row.isCurrentUser <==> me == Some(messages[i].userId)
    ensures row.showAvatar == row.showTimestamp == ShowAvatar(messages, i)
    ensures row.avatarImage <==> !row.isCurrentUser && row.showAvatar
    ensures row.senderHeader <==> !row.isCurrentUser && row.showTimestamp
    ensures row.ownTimestamp <==> row.isCurrentUser && row.showTimestamp
    ensures row.editedMark == messages[i].edited
  {
    var isCurrentUser := Some(messages[i].userId) == me;
    var showAvatar := ShowAvatar(messages, i);
    var showTimestamp := showAvatar;
    Row(isCurrentUser, showAvatar, showTimestamp, !isCurrentUser && showAvatar,
        showTimestamp && !isCurrentUser, isCurrentUser && showTimestamp, messages[i].edited)
  }

  /** The list for the logged-in user `me` (`user?.id`). */
  function Render(messages: seq<ChatMessage>, me: Option<UserId>): (v: ListView)
    ensures v.NoMessagesYet? <==> messages == []
    ensures v.Rows? ==> |v.rows| == |messages| && forall i :: 0 <= i < |messages| ==> v.rows[i] == RenderRow(messages, i, me)
  {
    if |messages| == 0 then NoMessagesYet
    else Rows(seq(|messages|, i requires 0 <= i < |messages| => RenderRow(messages, i, me)))
  }

  /** The first message always opens a group. */
  lemma FirstMessageShowsAvatar(messages: seq<ChatMessage>, me: Option<UserId>)
    requires messages != []
    ensures ShowAvatar(messages, 0)
    ensures Render(messages, me).rows[0].showAvatar
  {
  }

  /** A message continues the group exactly when the previous one exists, is
      by the same user and is less than a minute older; this is the negation
      of the shared `shouldGroupMessages` helper at the same threshold. */
  lemma ShowAvatarIff(messages: seq<ChatMessage>, i: nat)
    requires i < |messages|
    ensures !ShowAvatar(messages, i) <==>
      i > 0 && messages[i].userId == messages[i - 1].userId
      && messages[i].createdAt - messages[i - 1].createdAt < GroupThresholdMs
    ensures ShowAvatar(messages, i) == !Utils.ShouldGroupMessages(Some(messages[i]), Previous(messages, i), GroupThresholdMs)
  {
  }

  /** A previous message with a later time stamp is within the threshold, so
      a same-user message after it continues the group. */
  lemma OutOfOrderStampsGroup(messages: seq<ChatMessage>, i: nat)
    requires 0 < i < |messages|
    requires messages[i].userId == messages[i - 1].userId
    requires messages[i].createdAt < messages[i - 1].createdAt
    ensures !ShowAvatar(messages, i)
  {
  }
}
