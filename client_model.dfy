/** The records the client keeps in its chat state, as they arrive from the
    server's REST and socket payloads. Times are milliseconds since the epoch. */
module ClientModel {
  import opened Wrappers

  type UserId = string
  type RoomId = string

  /** The `{id, username, avatar}` projection of a user. */
  datatype Author = Author(id: UserId, username: string, avatar: Option<string>)

  /** A message with its author, as `GET /rooms/:id/messages` and `newMessage` deliver it. */
  datatype ChatMessage = ChatMessage(
    id: string, roomId: RoomId, userId: UserId, content: string, kind: string,
    createdAt: int, edited: bool, author: Option<Author>)

  /** A room as `GET /rooms` delivers it; `users` is the member list (`Users`), absent when not loaded. */
  datatype RoomView = RoomView(
    id: RoomId, name: string, description: Option<string>, isPrivate: bool,
    users: Option<seq<Author>>)

  /** One object of the client's online list. Objects from the `onlineUsers`
      snapshot carry `id`; objects from a `userOnline` event carry `userId`
      instead of `id`, because the reducer stores the event payload as it is. */
  datatype OnlineEntry = OnlineEntry(id: Option<UserId>, userId: Option<UserId>, username: string, avatar: Option<string>)

  /** Outcome of a REST call: the response data, or the failure with the
      server's `response.data.message`, if any. */
  datatype ApiResult<T> = ApiOk(data: T) | ApiFailed(message: Option<string>)

  /** `error.response?.data?.message || fallback`: an empty message is falsy. */
  function ErrorText(message: Option<string>, fallback: string): (r: string)
    ensures message.Some? && message.value != "" ==> r == message.value
    ensures (message.None? || message.value == "") ==> r == fallback
  {
    if message.Some? && message.value != "" then message.value else fallback
  }
}
