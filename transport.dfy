/** Identifiers and the outbound calls the bot makes through the Telegram transport.
    The transport itself is not modelled: every call is recorded, in order, in the
    bot's outbox (see Handlers.Bot). */
module Transport {

  datatype Option<+T> = None | Some(value: T)

  /** A Telegram chat id; the contact chat may be a group, so ids may be negative. */
  type ChatId = int

  /** A Telegram message id. */
  type MsgId = nat

  /** The id of a callback query (a press on an inline keyboard button). */
  type QueryId = string

  /** An opaque Telegram file id of a word-card photo. */
  type PhotoRef = string

  /** The fixed texts the bot sends; their wording is content, not logic. */
  datatype Text =
    | FeedbackInstructions          // feedback_start: "describe the problem ..."
    | ConfirmQuestion               // "do you want to send this message?"
    | FeedbackNotice(body: string)  // to the contact chat: "#feedback ... user: ..."
    | Thanks                        // "your message was sent to the developer"
    | Interrupted                   // "conversation interrupted"
    | TimedOut                      // "conversation interrupted: timeout"

  /** The inline keyboards the bot attaches to its messages. */
  datatype Keyboard =
    | NoKeyboard
    | YesNo        // CB_DATA_FB_VERIFY / CB_DATA_FB_REJECT
    | CardButtons  // CB_DATA_GET_WORD_RESEND_CURRENT / CB_DATA_GET_WORD_SEND_NEXT

  /** One outbound transport call. Sends carry the id the transport gave the new message. */
  datatype Call =
    | SendText(chat: ChatId, text: Text, replyTo: Option<MsgId>, keyboard: Keyboard, id: MsgId)
    | SendPhoto(chat: ChatId, photo: PhotoRef, keyboard: Keyboard, id: MsgId)
    | StripKeyboard(chat: ChatId, msg: MsgId)            // edit_message_reply_markup(..., None)
    | EditMedia(chat: ChatId, msg: MsgId, photo: PhotoRef, keyboard: Keyboard)
    | Forward(to: ChatId, from: ChatId, msg: MsgId)
    | AnswerCallback(query: QueryId)

  /** The strip call a cleanup makes for an optional stored keyboard message. */
  function StripCalls(chat: ChatId, msg: Option<MsgId>): seq<Call>
  {
    if msg.Some? then [StripKeyboard(chat, msg.value)] else []
  }
}
