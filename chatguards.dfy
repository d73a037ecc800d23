/**
 * The chat checks of util/chat.js. None of them returns a value on
 * success except `validAdmin`; each signals its error through the
 * error handler.
 */
module ChatGuards {
  import opened Model

  /** `getChat`: `found` is what the lookup by id returned; nothing is returned. */
  function GetChat(found: Chat?): (r: Outcome)
    ensures r == Ok <==> found != null
    ensures r.Fail? ==> r.error == Abort("No message exists")
  {
    if found == null then Fail(Abort("No message exists")) else Ok
  }

  /** `validChatUser`: the user must be one of the chat's members. */
  function ValidChatUser(members: seq<Id>, userId: Id): (r: Outcome)
    ensures r == Ok <==> userId in members
    ensures r.Fail? ==> r.error == Abort("Not authorized")
  {
    if userId in members then Ok else Fail(Abort("Not authorized"))
  }

  /** `validAdmin`: true exactly for the room's admin; anyone else gets the error. */
  function ValidAdmin(chat: ChatRoom, userId: Id): (r: Result<bool>)
    ensures r == Success(true) <==> chat.admin == userId
    ensures r.Failure? <==> chat.admin != userId
    ensures r.Failure? ==> r.error == Abort("only admin can add members")
  {
    if chat.admin == userId then Success(true) else Failure(Abort("only admin can add members"))
  }
}
