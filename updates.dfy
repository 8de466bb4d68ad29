/** Inbound updates, as far as the conversation handlers look at them. */
module Updates {
  import opened Transport

  /** The fields of a Telegram user that the bot reads. */
  datatype User = User(id: ChatId, fullName: string, languageCode: Option<string>, username: Option<string>)

  /** Whether a message starts with a bot command (Filters.command), and which one. */
  datatype Content = Command(name: string) | NotCommand

  datatype Update =
    | NewMessage(from: User, messageId: MsgId, content: Content)
    | EditedMessage(from: User, messageId: MsgId, content: Content)
    | CallbackQuery(from: User, queryId: QueryId, data: string, messageId: MsgId)

  /** The chat a handler works on: `update.effective_user.id` (private chats, where the
      chat id is the user id). */
  function Chat(u: Update): ChatId
  {
    u.from.id
  }

  /** `update.message`: present only in an update that carries a new message. */
  function Message(u: Update): Option<MsgId>
  {
    if u.NewMessage? then Some(u.messageId) else None
  }

  /** The guard of the `reject_edit_update` decorator: the wrapped handler runs only when
      `update.message` is present, so edits and button presses are ignored. */
  function RejectEditUpdate(u: Update): (proceed: bool)
    ensures proceed <==> !u.EditedMessage? && !u.CallbackQuery?
    ensures proceed ==> Message(u) == Some(u.messageId)
  {
    Message(u).Some?
  }
}
