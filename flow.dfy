/** Conversation states and what a handler hands back to the conversation framework. */
module Flow {
  import opened Transport

  /** CONV_STATE_FB_RECEIVING (0), CONV_STATE_FB_VERIFICATION (1), CONV_STATE_GET_WORD_RECEIVED (2). */
  datatype ConvState = FbReceiving | FbVerification | GetWordReceived

  /** A handler's return value: None keeps the state, a state moves to it,
      ConversationHandler.END ends the conversation. */
  datatype Reply = Unchanged | Goto(state: ConvState) | End

  /** A handler either returns or raises KeyError on a missing dictionary key. */
  datatype Outcome = Returned(reply: Reply) | KeyError

  /** The conversation state after a handler returned `reply` in state `state`. */
  function Advance(state: Option<ConvState>, reply: Reply): Option<ConvState>
  {
    match reply
    case Unchanged => state
    case Goto(s) => Some(s)
    case End => None
  }
}
