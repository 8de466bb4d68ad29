/** The feedback and word-browsing handlers over the per-chat store `conversation_context`. */
module Handlers {
  import opened Transport
  import opened Updates
  import opened Flow
  import opened Store
  import opened Photos
  import opened UserInfo

  /** The record a flow entry works on: the stored one, or the fresh `dict()` it creates. */
  function RecordOf(ctx: map<ChatId, Record>, chat: ChatId): Record
  {
    if chat in ctx then ctx[chat] else EmptyRecord
  }

  /** Whether `conversation_context[chat][K_FB_MESSAGE_ID]` can be read without KeyError. */
  predicate HasPending(ctx: map<ChatId, Record>, chat: ChatId)
  {
    chat in ctx && ctx[chat].feedbackMsg.Some?
  }

  /** The message sent to the contact chat before a confirmed feedback is forwarded. */
  function FeedbackNoticeText(user: User): string
  {
    "#feedback\n\nuser:\n" + GetUserInfoStr(user)
  }

  /** The answer to a button press, when the update is one. */
  function AnswerCalls(query: Option<QueryId>): seq<Call>
  {
    if query.Some? then [AnswerCallback(query.value)] else []
  }

  /** What a handler sees and changes: the store, the calls made so far and the id the
      transport gives the next message. */
  datatype BotState = BotState(context: map<ChatId, Record>, outbox: seq<Call>, nextMsgId: MsgId)

  /** A handler's outcome together with the state it leaves. */
  datatype Effect = Effect(outcome: Outcome, state: BotState)

  /** feedback_start: an edit changes nothing. Otherwise the chat gets a record if it had
      none, the feedback keys are cleared (stripping a stored prompt) before the instructions
      go out, the card key is kept, and the conversation moves to CONV_STATE_FB_RECEIVING. */
  function FeedbackStartEffect(s: BotState, u: Update): Effect
  {
    if !RejectEditUpdate(u) then Effect(Returned(Unchanged), s)
    else
      var c := Chat(u);
      var r := RecordOf(s.context, c);
      Effect(Returned(Goto(FbReceiving)),
             BotState(s.context[c := FeedbackCleared(r)],
                      s.outbox + StripCalls(c, r.prompt)
                      + [SendText(c, FeedbackInstructions, None, NoKeyboard, s.nextMsgId)],
                      s.nextMsgId + 1))
  }

  /** feedback_received: an edit changes nothing; without a record, KeyError before any
      effect. Otherwise the message becomes the pending feedback, a Yes/No question replying
      to it goes out and becomes the prompt, and the state is CONV_STATE_FB_VERIFICATION. */
  function FeedbackReceivedEffect(s: BotState, u: Update): Effect
  {
    var c := Chat(u);
    if !RejectEditUpdate(u) then Effect(Returned(Unchanged), s)
    else if c !in s.context then Effect(KeyError, s)
    else
      var p := s.nextMsgId;
      Effect(Returned(Goto(FbVerification)),
             BotState(s.context[c := s.context[c].(feedbackMsg := Some(u.messageId), prompt := Some(p))],
                      s.outbox + [SendText(c, ConfirmQuestion, Some(u.messageId), YesNo, p)],
                      p + 1))
  }

  /** feedback_verified: the notice about `user` goes to the contact chat first. Without a
      pending message the lookup then raises KeyError. Otherwise the pending message is
      forwarded to the contact chat, the user is thanked and shown the same message, the press
      is answered, the feedback keys are cleared and the conversation ends. */
  function FeedbackVerifiedEffect(s: BotState, contact: ChatId, user: User, query: QueryId): Effect
  {
    var c := user.id;
    var notice := SendText(contact, FeedbackNotice(FeedbackNoticeText(user)), None, NoKeyboard, s.nextMsgId);
    if !HasPending(s.context, c) then
      Effect(KeyError, BotState(s.context, s.outbox + [notice], s.nextMsgId + 1))
    else
      var r := s.context[c];
      var m := r.feedbackMsg.value;
      Effect(Returned(End),
             BotState(s.context[c := FeedbackCleared(r)],
                      s.outbox
                      + [ notice,
                          Forward(contact, c, m),
                          SendText(c, Thanks, None, NoKeyboard, s.nextMsgId + 1),
                          Forward(c, c, m),
                          AnswerCallback(query) ]
                      + StripCalls(c, r.prompt),
                      s.nextMsgId + 2))
  }

  /** feedback_canceled: a button press is answered first; without a record, KeyError
      follows. Otherwise the feedback keys are cleared, one "interrupted" message goes out and
      the conversation ends. */
  function FeedbackCanceledEffect(s: BotState, user: User, query: Option<QueryId>): Effect
  {
    var c := user.id;
    if c !in s.context then Effect(KeyError, s.(outbox := s.outbox + AnswerCalls(query)))
    else
      var r := s.context[c];
      Effect(Returned(End),
             BotState(s.context[c := FeedbackCleared(r)],
                      s.outbox + AnswerCalls(query) + StripCalls(c, r.prompt)
                      + [SendText(c, Interrupted, None, NoKeyboard, s.nextMsgId)],
                      s.nextMsgId + 1))
  }

  /** feedback_timeout: one timeout message, then the feedback cleanup; without a record,
      KeyError after the message. */
  function FeedbackTimeoutEffect(s: BotState, user: User): Effect
  {
    var c := user.id;
    var notice := SendText(c, TimedOut, None, NoKeyboard, s.nextMsgId);
    if c !in s.context then Effect(KeyError, BotState(s.context, s.outbox + [notice], s.nextMsgId + 1))
    else
      var r := s.context[c];
      Effect(Returned(Unchanged),
             BotState(s.context[c := FeedbackCleared(r)], s.outbox + [notice] + StripCalls(c, r.prompt),
                      s.nextMsgId + 1))
  }

  /** feedback_input_not_recognized: an edit changes nothing. Without a stored prompt, KeyError
      before any effect; the prompt is stripped next, and without a pending message KeyError
      follows. Otherwise a new Yes/No question replying to the pending message goes out and
      becomes the prompt; the pending message and the state stay. */
  function FeedbackInputNotRecognizedEffect(s: BotState, u: Update): Effect
  {
    var c := Chat(u);
    var r := RecordOf(s.context, c);
    if !RejectEditUpdate(u) then Effect(Returned(Unchanged), s)
    else if c !in s.context || r.prompt.None? then Effect(KeyError, s)
    else if r.feedbackMsg.None? then
      Effect(KeyError, s.(outbox := s.outbox + [StripKeyboard(c, r.prompt.value)]))
    else
      var p := s.nextMsgId;
      Effect(Returned(Unchanged),
             BotState(s.context[c := r.(prompt := Some(p))],
                      s.outbox
                      + [ StripKeyboard(c, r.prompt.value),
                          SendText(c, ConfirmQuestion, Some(r.feedbackMsg.value), YesNo, p) ],
                      p + 1))
  }

  /** get: an edit changes nothing. Otherwise the chat gets a record if it had none, the old
      card is stripped, the drawn card goes out and becomes the last card, the feedback keys
      are kept, and the state is CONV_STATE_GET_WORD_RECEIVED. */
  function GetEffect(s: BotState, photos: seq<PhotoEntry>, u: Update, ix: nat): Effect
    requires ix < |photos|
  {
    if !RejectEditUpdate(u) then Effect(Returned(Unchanged), s)
    else
      var c := Chat(u);
      var r := RecordOf(s.context, c);
      var card := s.nextMsgId;
      Effect(Returned(Goto(GetWordReceived)),
             BotState(s.context[c := r.(lastCard := Some(card))],
                      s.outbox + StripCalls(c, r.lastCard)
                      + [SendPhoto(c, GetRandomPhotoObject(photos, ix), CardButtons, card)],
                      card + 1))
  }

  /** get_word_resend_current: a new card in the pressed message, same buttons, and the answer
      to the press; the store is not touched and no message id is used. */
  function GetWordResendCurrentEffect(s: BotState, photos: seq<PhotoEntry>, user: User, query: QueryId,
                                      msg: MsgId, ix: nat): Effect
    requires ix < |photos|
  {
    Effect(Returned(Unchanged),
           s.(outbox := s.outbox + [EditMedia(user.id, msg, GetRandomPhotoObject(photos, ix), CardButtons),
                                    AnswerCallback(query)]))
  }

  /** get_word_send_next: without a record, KeyError before any effect. Otherwise the old card
      is stripped, the drawn card goes out and becomes the last card, and the press is
      answered. */
  function GetWordSendNextEffect(s: BotState, photos: seq<PhotoEntry>, user: User, query: QueryId, ix: nat): Effect
    requires ix < |photos|
  {
    var c := user.id;
    if c !in s.context then Effect(KeyError, s)
    else
      var r := s.context[c];
      var card := s.nextMsgId;
      Effect(Returned(Unchanged),
             BotState(s.context[c := r.(lastCard := Some(card))],
                      s.outbox + StripCalls(c, r.lastCard)
                      + [SendPhoto(c, GetRandomPhotoObject(photos, ix), CardButtons, card), AnswerCallback(query)],
                      card + 1))
  }

  /** The card cleanup with reply `reply`: get_word_timeout (None) and get_word_canceled (END);
      without a record, KeyError before any effect. */
  function CardCleanupEffect(s: BotState, user: User, reply: Reply): Effect
  {
    var c := user.id;
    if c !in s.context then Effect(KeyError, s)
    else
      var r := s.context[c];
      Effect(Returned(reply),
             s.(context := s.context[c := CardCleared(r)], outbox := s.outbox + StripCalls(c, r.lastCard)))
  }

  class Bot {
    /** `conversation_context`: chat id to that chat's record. */
    var context: map<ChatId, Record>
    /** Every transport call made so far, oldest first. */
    var outbox: seq<Call>
    /** The id the transport gives the next message the bot sends. */
    var nextMsgId: MsgId
    /** `contact_chat_id`: where confirmed feedback goes. */
    const contact: ChatId
    /** `photo_file_ids`: the word-card pool. */
    const photos: seq<PhotoEntry>

    /** The pool is non-empty, and every keyboard message the store names was already sent,
        so an id handed out later is different from all of them. */
    ghost predicate Valid()
      reads this
    {
      && |photos| > 0
      && forall c | c in context :: IssuedBefore(context[c], nextMsgId)
    }

    /** The part of the bot that the handlers read and change. */
    function State(): BotState
      reads this
    {
      BotState(context, outbox, nextMsgId)
    }

    constructor (contact: ChatId, photos: seq<PhotoEntry>, firstMsgId: MsgId)
      requires |photos| > 0
      ensures Valid()
      ensures this.contact == contact && this.photos == photos
      ensures context == map[] && outbox == [] && nextMsgId == firstMsgId
    {
      this.contact := contact;
      this.photos := photos;
      context := map[];
      outbox := [];
      nextMsgId := firstMsgId;
    }

    /** A transport call whose result the bot does not use. */
    method Emit(call: Call)
      requires Valid()
      modifies this`outbox
      ensures Valid()
      ensures outbox == old(outbox) + [call]
    {
      outbox := outbox + [call];
    }

    /** `send_message` / `reply_text`: the transport hands out a new message id. */
    method SendMessage(chat: ChatId, text: Text, replyTo: Option<MsgId>, keyboard: Keyboard) returns (id: MsgId)
      requires Valid()
      modifies this`outbox, this`nextMsgId
      ensures Valid()
      ensures id == old(nextMsgId) && nextMsgId == id + 1
      ensures outbox == old(outbox) + [SendText(chat, text, replyTo, keyboard, id)]
    {
      id := nextMsgId;
      nextMsgId := nextMsgId + 1;
      outbox := outbox + [SendText(chat, text, replyTo, keyboard, id)];
    }

    /** feedback_cleanup: drop the pending feedback id, and strip and drop the Yes/No prompt.
        `ok` is false when the chat has no record (the lookup raises KeyError). */
    method FeedbackCleanup(chat: ChatId) returns (ok: bool)
      requires Valid()
      modifies this`context, this`outbox
      ensures Valid()
      ensures ok <==> chat in old(context)
      ensures !ok ==> context == old(context) && outbox == old(outbox)
      ensures ok ==> context == old(context)[chat := FeedbackCleared(old(context)[chat])]
      ensures ok ==> outbox == old(outbox) + StripCalls(chat, old(context)[chat].prompt)
    {
      if chat !in context {
        return false;
      }
      var r := context[chat];
      if r.feedbackMsg.Some? {
        context := context[chat := context[chat].(feedbackMsg := None)];
      }
      if r.prompt.Some? {
        Emit(StripKeyboard(chat, r.prompt.value));
        context := context[chat := context[chat].(prompt := None)];
      }
      ok := true;
    }

    /** feedback_start: make sure the chat has a record, clean up any earlier feedback,
        send the instructions and move to CONV_STATE_FB_RECEIVING. */
    method FeedbackStart(u: Update) returns (o: Outcome)
      requires Valid()
      modifies this`context, this`outbox, this`nextMsgId
      ensures Valid()
      ensures Effect(o, State()) == FeedbackStartEffect(old(State()), u)
    {
      if !RejectEditUpdate(u) {
        return Returned(Unchanged);
      }
      var chat := Chat(u);
      if chat !in context {
        context := context[chat := EmptyRecord];
      }
      var ok := FeedbackCleanup(chat);
      var sent := SendMessage(chat, FeedbackInstructions, None, NoKeyboard);
      o := Returned(Goto(FbReceiving));
    }

    /** feedback_received: remember the user's message as the pending feedback, ask for
        confirmation in a reply to it, remember that question as the Yes/No prompt and move
        to CONV_STATE_FB_VERIFICATION. */
    method FeedbackReceived(u: Update) returns (o: Outcome)
      requires Valid()
      modifies this`context, this`outbox, this`nextMsgId
      ensures Valid()
      ensures Effect(o, State()) == FeedbackReceivedEffect(old(State()), u)
    {
      if !RejectEditUpdate(u) {
        return Returned(Unchanged);
      }
      var chat := Chat(u);
      if chat !in context {
        return KeyError;
      }
      context := context[chat := context[chat].(feedbackMsg := Some(u.messageId))];
      var prompt := SendMessage(chat, ConfirmQuestion, Some(u.messageId), YesNo);
      context := context[chat := context[chat].(prompt := Some(prompt))];
      o := Returned(Goto(FbVerification));
    }

    /** The middle of feedback_verified: forward message `m` to the contact chat, thank the
        user, forward `m` back to the user and answer the button press. */
    method RelayFeedback(chat: ChatId, m: MsgId, query: QueryId)
      requires Valid()
      modifies this`outbox, this`nextMsgId
      ensures Valid()
      ensures nextMsgId == old(nextMsgId) + 1
      ensures outbox == old(outbox) + [ Forward(contact, chat, m),
                                        SendText(chat, Thanks, None, NoKeyboard, old(nextMsgId)),
                                        Forward(chat, chat, m),
                                        AnswerCallback(query) ]
    {
      Emit(Forward(contact, chat, m));
      var sent := SendMessage(chat, Thanks, None, NoKeyboard);
      Emit(Forward(chat, chat, m));
      Emit(AnswerCallback(query));
    }

    /** feedback_verified: tell the contact chat who wrote, forward the pending message there,
        thank the user and show them the same message, answer the button press, clean up and
        end. Without a pending message the lookup raises KeyError after the first notice. */
    method FeedbackVerified(user: User, query: QueryId) returns (o: Outcome)
      requires Valid()
      modifies this`context, this`outbox, this`nextMsgId
      ensures Valid()
      ensures Effect(o, State()) == FeedbackVerifiedEffect(old(State()), contact, user, query)
    {
      var chat := user.id;
      var sent := SendMessage(contact, FeedbackNotice(FeedbackNoticeText(user)), None, NoKeyboard);
      if !HasPending(context, chat) {
        return KeyError;
      }
      RelayFeedback(chat, context[chat].feedbackMsg.value, query);
      var ok := FeedbackCleanup(chat);
      o := Returned(End);
    }

    /** feedback_canceled: answer the button press if the update is one, clean up, say that
        the conversation was interrupted and end. */
    method FeedbackCanceled(user: User, query: Option<QueryId>) returns (o: Outcome)
      requires Valid()
      modifies this`context, this`outbox, this`nextMsgId
      ensures Valid()
      ensures Effect(o, State()) == FeedbackCanceledEffect(old(State()), user, query)
    {
      var chat := user.id;
      if query.Some? {
        Emit(AnswerCallback(query.value));
      }
      var ok := FeedbackCleanup(chat);
      if !ok {
        return KeyError;
      }
      var sent := SendMessage(chat, Interrupted, None, NoKeyboard);
      o := Returned(End);
    }

    /** feedback_timeout: tell the user the conversation timed out, then clean up. */
    method FeedbackTimeout(user: User) returns (o: Outcome)
      requires Valid()
      modifies this`context, this`outbox, this`nextMsgId
      ensures Valid()
      ensures Effect(o, State()) == FeedbackTimeoutEffect(old(State()), user)
    {
      var chat := user.id;
      var sent := SendMessage(chat, TimedOut, None, NoKeyboard);
      var ok := FeedbackCleanup(chat);
      o := if ok then Returned(Unchanged) else KeyError;
    }

    /** feedback_input_not_recognized: strip the current Yes/No prompt, ask again in a reply
        to the pending message, and make the new question the prompt. The pending message and
        the conversation state stay as they are. */
    method FeedbackInputNotRecognized(u: Update) returns (o: Outcome)
      requires Valid()
      modifies this`context, this`outbox, this`nextMsgId
      ensures Valid()
      ensures Effect(o, State()) == FeedbackInputNotRecognizedEffect(old(State()), u)
      ensures o == Returned(Unchanged) && RejectEditUpdate(u) ==> context[Chat(u)].prompt != old(context)[Chat(u)].prompt
    {
      if !RejectEditUpdate(u) {
        return Returned(Unchanged);
      }
      var chat := Chat(u);
      if chat !in context || context[chat].prompt.None? {
        return KeyError;
      }
      Emit(StripKeyboard(chat, context[chat].prompt.value));
      if context[chat].feedbackMsg.None? {
        return KeyError;
      }
      var prompt := SendMessage(chat, ConfirmQuestion, Some(context[chat].feedbackMsg.value), YesNo);
      context := context[chat := context[chat].(prompt := Some(prompt))];
      o := Returned(Unchanged);
    }

    /** _send_photo: send the card with its two buttons and remember it as the last card.
        `ok` is false when the chat has no record (KeyError after the photo went out). */
    method SendWordCard(chat: ChatId, photo: PhotoRef) returns (ok: bool)
      requires Valid()
      modifies this`context, this`outbox, this`nextMsgId
      ensures Valid()
      ensures ok <==> chat in old(context)
      ensures outbox == old(outbox) + [SendPhoto(chat, photo, CardButtons, old(nextMsgId))]
      ensures nextMsgId == old(nextMsgId) + 1
      ensures !ok ==> context == old(context)
      ensures ok ==> context == old(context)[chat := old(context)[chat].(lastCard := Some(old(nextMsgId)))]
    {
      var id := nextMsgId;
      nextMsgId := nextMsgId + 1;
      outbox := outbox + [SendPhoto(chat, photo, CardButtons, id)];
      if chat !in context {
        return false;
      }
      context := context[chat := context[chat].(lastCard := Some(id))];
      ok := true;
    }

    /** get_word_cleanup: strip and drop the last card's buttons, if there is a last card.
        `ok` is false when the chat has no record (KeyError). */
    method GetWordCleanup(chat: ChatId) returns (ok: bool)
      requires Valid()
      modifies this`context, this`outbox
      ensures Valid()
      ensures ok <==> chat in old(context)
      ensures !ok ==> context == old(context) && outbox == old(outbox)
      ensures ok ==> context == old(context)[chat := CardCleared(old(context)[chat])]
      ensures ok ==> outbox == old(outbox) + StripCalls(chat, old(context)[chat].lastCard)
    {
      if chat !in context {
        return false;
      }
      var r := context[chat];
      if r.lastCard.Some? {
        Emit(StripKeyboard(chat, r.lastCard.value));
        context := context[chat := context[chat].(lastCard := None)];
      }
      ok := true;
    }

    /** get: make sure the chat has a record, clean up the previous card, send a random card
        and move to CONV_STATE_GET_WORD_RECEIVED. `ix` is the random draw. */
    method Get(u: Update, ix: nat) returns (o: Outcome)
      requires Valid() && ix < |photos|
      modifies this`context, this`outbox, this`nextMsgId
      ensures Valid()
      ensures Effect(o, State()) == GetEffect(old(State()), photos, u, ix)
    {
      if !RejectEditUpdate(u) {
        return Returned(Unchanged);
      }
      var chat := Chat(u);
      if chat !in context {
        context := context[chat := EmptyRecord];
      }
      var cleaned := GetWordCleanup(chat);
      var photo := GetRandomPhotoObject(photos, ix);
      var sent := SendWordCard(chat, photo);
      o := Returned(Goto(GetWordReceived));
    }

    /** get_word_resend_current: put a new random card into the message whose button was
        pressed, keeping its buttons, and answer the press. The store is not touched. */
    method GetWordResendCurrent(user: User, query: QueryId, msg: MsgId, ix: nat) returns (o: Outcome)
      requires Valid() && ix < |photos|
      modifies this`outbox
      ensures Valid()
      ensures Effect(o, State()) == GetWordResendCurrentEffect(old(State()), photos, user, query, msg, ix)
    {
      var photo := GetRandomPhotoObject(photos, ix);
      Emit(EditMedia(user.id, msg, photo, CardButtons));
      Emit(AnswerCallback(query));
      o := Returned(Unchanged);
    }

    /** get_word_send_next: strip the last card's buttons, send a new random card that becomes
        the last card, and answer the press. */
    method GetWordSendNext(user: User, query: QueryId, ix: nat) returns (o: Outcome)
      requires Valid() && ix < |photos|
      modifies this`context, this`outbox, this`nextMsgId
      ensures Valid()
      ensures Effect(o, State()) == GetWordSendNextEffect(old(State()), photos, user, query, ix)
      ensures o.Returned? ==> context[user.id].lastCard != old(context)[user.id].lastCard
    {
      var chat := user.id;
      var photo := GetRandomPhotoObject(photos, ix);
      var cleaned := GetWordCleanup(chat);
      if !cleaned {
        return KeyError;
      }
      var sent := SendWordCard(chat, photo);
      Emit(AnswerCallback(query));
      o := Returned(Unchanged);
    }

    /** get_word_timeout: clean up silently. */
    method GetWordTimeout(user: User) returns (o: Outcome)
      requires Valid()
      modifies this`context, this`outbox
      ensures Valid()
      ensures Effect(o, State()) == CardCleanupEffect(old(State()), user, Unchanged)
    {
      var ok := GetWordCleanup(user.id);
      o := if ok then Returned(Unchanged) else KeyError;
    }

    /** get_word_canceled: clean up and end the conversation. */
    method GetWordCanceled(user: User) returns (o: Outcome)
      requires Valid()
      modifies this`context, this`outbox
      ensures Valid()
      ensures Effect(o, State()) == CardCleanupEffect(old(State()), user, End)
    {
      var ok := GetWordCleanup(user.id);
      o := if ok then Returned(End) else KeyError;
    }
  }
}
