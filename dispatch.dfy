/** One update as the dispatcher processes it: the feedback conversation (group 2), then the
    word-browsing conversation (group 3), each running the handler its table selects; and the
    two conversation timeouts. The per-chat invariant below ties each conversation's state to
    the keys of the chat's record. */
module Dispatch {
  import opened Transport
  import opened Updates
  import opened Flow
  import opened Store
  import opened Photos
  import opened Handlers
  import opened Routing

  /** One ConversationHandler's bookkeeping, by chat: `states` is its `conversations` dict and
      `timers` its `timeout_jobs`, each job holding the update that scheduled it. A timer can
      exist without a conversation: a handler that returns None outside a conversation still
      schedules one. */
  datatype Machine = Machine(states: map<ChatId, ConvState>, timers: map<ChatId, Update>)

  /** The two ConversationHandlers of main(). */
  datatype Conversations = Conversations(feedback: Machine, getWord: Machine)

  const NoConversations: Conversations := Conversations(Machine(map[], map[]), Machine(map[], map[]))

  function StateOf(m: Machine, c: ChatId): Option<ConvState>
  {
    if c in m.states then Some(m.states[c]) else None
  }

  /** ConversationHandler.handle_update around the handler that ran for `u` in chat `c`: the
      old timer is dropped before the handler runs; a handler that raises leaves the state and
      schedules nothing; otherwise the state advances by the reply, and every reply but END
      schedules a timer holding `u`. */
  function Step(m: Machine, c: ChatId, o: Outcome, u: Update): Machine
  {
    match o
    case KeyError => m.(timers := m.timers - {c})
    case Returned(reply) =>
      var states := match Advance(StateOf(m, c), reply)
                    case None => m.states - {c}
                    case Some(s) => m.states[c := s];
      Machine(states, if reply == End then m.timers - {c} else m.timers[c := u])
  }

  /** What group 2 does to the bot for `u`: the effect of the feedback handler the table
      selects (see `FeedbackRouting`), or None when it selects none. */
  function FeedbackEffect(s: BotState, contact: ChatId, conv: Conversations, u: Update): Option<Effect>
  {
    match FeedbackHandlerFor(StateOf(conv.feedback, Chat(u)), u)
    case None => None
    case Some(FeedbackStart) => Some(FeedbackStartEffect(s, u))
    case Some(FeedbackReceived) => Some(FeedbackReceivedEffect(s, u))
    case Some(FeedbackVerified) => Some(FeedbackVerifiedEffect(s, contact, u.from, u.queryId))
    case Some(FeedbackCanceled) =>
      Some(FeedbackCanceledEffect(s, u.from, if u.CallbackQuery? then Some(u.queryId) else None))
    case Some(FeedbackInputNotRecognized) => Some(FeedbackInputNotRecognizedEffect(s, u))
  }

  /** What group 3 does to the bot for `u`, with `ix` the random draw: the effect of the
      word-browsing handler the table selects (see `GetWordRouting`), or None. */
  function GetWordEffect(s: BotState, photos: seq<PhotoEntry>, conv: Conversations, u: Update, ix: nat): Option<Effect>
    requires ix < |photos|
  {
    match GetWordHandlerFor(StateOf(conv.getWord, Chat(u)), u)
    case None => None
    case Some(Get) => Some(GetEffect(s, photos, u, ix))
    case Some(GetWordResendCurrent) => Some(GetWordResendCurrentEffect(s, photos, u.from, u.queryId, u.messageId, ix))
    case Some(GetWordSendNext) => Some(GetWordSendNextEffect(s, photos, u.from, u.queryId, ix))
    case Some(GetWordCanceled) => Some(CardCleanupEffect(s, u.from, End))
  }

  /** Group 2 as a whole: the bot state and the conversations after it. */
  function FeedbackStep(s: BotState, contact: ChatId, conv: Conversations, u: Update): (BotState, Conversations)
  {
    var e := FeedbackEffect(s, contact, conv, u);
    if e.None? then (s, conv)
    else (e.value.state, conv.(feedback := Step(conv.feedback, Chat(u), e.value.outcome, u)))
  }

  /** Group 3 as a whole: the bot state and the conversations after it. */
  function GetWordStep(s: BotState, photos: seq<PhotoEntry>, conv: Conversations, u: Update, ix: nat)
    : (BotState, Conversations)
    requires ix < |photos|
  {
    var e := GetWordEffect(s, photos, conv, u, ix);
    if e.None? then (s, conv)
    else (e.value.state, conv.(getWord := Step(conv.getWord, Chat(u), e.value.outcome, u)))
  }

  /** One update through the dispatcher: group 2, then group 3 on what group 2 left. */
  function UpdateStep(s: BotState, contact: ChatId, photos: seq<PhotoEntry>, conv: Conversations, u: Update, ix: nat)
    : (BotState, Conversations)
    requires ix < |photos|
  {
    var (s2, conv2) := FeedbackStep(s, contact, conv, u);
    GetWordStep(s2, photos, conv2, u, ix)
  }

  /** Two maps agree on every key but `k`. */
  ghost predicate SameExcept<V>(m1: map<ChatId, V>, m2: map<ChatId, V>, k: ChatId)
  {
    forall x | x != k :: (x in m1 <==> x in m2) && (x in m1 ==> m1[x] == m2[x])
  }

  ghost predicate MachineSameExcept(m1: Machine, m2: Machine, k: ChatId)
  {
    SameExcept(m1.states, m2.states, k) && SameExcept(m1.timers, m2.timers, k)
  }

  /** The feedback bookkeeping of chat `c` matches the feedback keys of its record: a feedback
      timer holds a message of that chat; a running conversation has a timer and a record; no
      keys outside the conversation and while receiving, both keys while waiting for
      confirmation. */
  ghost predicate FeedbackTracked(ctx: map<ChatId, Record>, conv: Conversations, c: ChatId)
  {
    var m := conv.feedback;
    && (c in m.timers ==> Chat(m.timers[c]) == c && IsMessage(m.timers[c]))
    && if c !in m.states then
         c in ctx ==> ctx[c].feedbackMsg.None? && ctx[c].prompt.None?
       else
         var s := m.states[c];
         && c in m.timers && c in ctx
         && s != GetWordReceived
         && (s == FbReceiving ==> ctx[c].feedbackMsg.None? && ctx[c].prompt.None?)
         && (s == FbVerification ==> ctx[c].feedbackMsg.Some? && ctx[c].prompt.Some?)
  }

  /** The word-browsing bookkeeping of chat `c` matches its card key: a timer belongs to its
      chat; a card is stored exactly while browsing, and browsing has a timer. */
  ghost predicate CardTracked(ctx: map<ChatId, Record>, conv: Conversations, c: ChatId)
  {
    var m := conv.getWord;
    && (c in m.timers ==> Chat(m.timers[c]) == c)
    && if c !in m.states then
         c in ctx ==> ctx[c].lastCard.None?
       else
         && c in m.timers && c in ctx
         && m.states[c] == GetWordReceived
         && ctx[c].lastCard.Some?
  }

  /** At most one of the two conversations runs in a chat. */
  ghost predicate Exclusive(conv: Conversations, c: ChatId)
  {
    !(c in conv.feedback.states && c in conv.getWord.states)
  }

  ghost predicate Tracked(ctx: map<ChatId, Record>, conv: Conversations)
  {
    forall c :: FeedbackTracked(ctx, conv, c) && CardTracked(ctx, conv, c)
  }

  ghost predicate Consistent(ctx: map<ChatId, Record>, conv: Conversations)
  {
    Tracked(ctx, conv) && forall c :: Exclusive(conv, c)
  }

  /** A fresh bot with no conversations is consistent. */
  lemma InitiallyConsistent()
    ensures Consistent(map[], NoConversations)
  {
  }

  /** At most one live keyboard per chat: the Yes/No prompt and the word card are never both stored. */
  lemma AtMostOneControl(ctx: map<ChatId, Record>, conv: Conversations, c: ChatId)
    requires Consistent(ctx, conv)
    requires c in ctx
    ensures !(ctx[c].prompt.Some? && ctx[c].lastCard.Some?)
  {
    assert FeedbackTracked(ctx, conv, c) && CardTracked(ctx, conv, c) && Exclusive(conv, c);
  }

  /** A step that changes only chat `c` keeps every other chat tracked and exclusive. */
  lemma TrackedElsewhere(ctx0: map<ChatId, Record>, conv0: Conversations,
                         ctx1: map<ChatId, Record>, conv1: Conversations, c: ChatId)
    requires Tracked(ctx0, conv0) && forall x | x != c :: Exclusive(conv0, x)
    requires SameExcept(ctx1, ctx0, c)
    requires MachineSameExcept(conv1.feedback, conv0.feedback, c)
    requires MachineSameExcept(conv1.getWord, conv0.getWord, c)
    requires FeedbackTracked(ctx1, conv1, c) && CardTracked(ctx1, conv1, c)
    ensures Tracked(ctx1, conv1)
    ensures forall x | x != c :: Exclusive(conv1, x)
  {
    forall x
      ensures FeedbackTracked(ctx1, conv1, x) && CardTracked(ctx1, conv1, x)
    {
      if x != c {
        assert FeedbackTracked(ctx0, conv0, x) && CardTracked(ctx0, conv0, x);
      }
    }
    forall x | x != c
      ensures Exclusive(conv1, x)
    {
      assert Exclusive(conv0, x);
    }
  }

  /** A proof helper: unfolds `FeedbackEffect` case by case for the verifier, so that the
      lemmas below need not unfold it themselves. */
  lemma FeedbackCases(s: BotState, contact: ChatId, conv: Conversations, u: Update)
    ensures var c := Chat(u);
      var st := StateOf(conv.feedback, c);
      var e := FeedbackEffect(s, contact, conv, u);
      && (IsCommand(u, "feedback") ==> e == Some(FeedbackStartEffect(s, u)))
      && (!IsCommand(u, "feedback") && st.None? ==> e.None?)
      && (!IsCommand(u, "feedback") && st.Some? && IsCommandMessage(u) ==>
            e == Some(FeedbackCanceledEffect(s, u.from, None)))
      && (!IsCommandMessage(u) && IsMessage(u) && st == Some(FbReceiving) ==>
            e == Some(FeedbackReceivedEffect(s, u)))
      && (!IsCommandMessage(u) && IsMessage(u) && st == Some(FbVerification) ==>
            e == Some(FeedbackInputNotRecognizedEffect(s, u)))
      && (u.CallbackQuery? && st == Some(FbVerification) && u.data == CbFeedbackVerify ==>
            e == Some(FeedbackVerifiedEffect(s, contact, u.from, u.queryId)))
      && (u.CallbackQuery? && st == Some(FbVerification) && u.data == CbFeedbackReject ==>
            e == Some(FeedbackCanceledEffect(s, u.from, Some(u.queryId))))
      && (u.CallbackQuery? && (st != Some(FbVerification) || (u.data != CbFeedbackVerify && u.data != CbFeedbackReject)) ==>
            e.None?)
  {
  }

  /** What group 2 leaves alone: no handler it selects raises, only chat `Chat(u)` and its
      feedback entry change, browsing is untouched, a new /feedback (re)starts the
      conversation, an edited /feedback only re-arms the timer, and any other command ends it. */
  lemma FeedbackStepLocal(s: BotState, contact: ChatId, conv: Conversations, u: Update)
    requires Consistent(s.context, conv)
    ensures var e := FeedbackEffect(s, contact, conv, u); e.Some? ==> e.value.outcome.Returned?
    ensures var (s', conv') := FeedbackStep(s, contact, conv, u);
      && conv'.getWord == conv.getWord
      && SameExcept(s'.context, s.context, Chat(u))
      && MachineSameExcept(conv'.feedback, conv.feedback, Chat(u))
      && (IsNewCommand(u, "feedback") ==> StateOf(conv'.feedback, Chat(u)) == Some(FbReceiving))
      && (IsCommand(u, "feedback") && u.EditedMessage? ==>
            && s' == s
            && conv'.feedback == conv.feedback.(timers := conv.feedback.timers[Chat(u) := u]))
      && (IsCommandMessage(u) && !IsCommand(u, "feedback") ==> Chat(u) !in conv'.feedback.states)
  {
    var c := Chat(u);
    assert FeedbackTracked(s.context, conv, c);
    FeedbackCases(s, contact, conv, u);
  }

  /** After group 2 the chat of `u` is still tracked: its feedback keys match the feedback
      state, its card key the browsing state, and both conversations hold it only after a
      new /feedback. */
  lemma FeedbackStepTracksChat(s: BotState, contact: ChatId, conv: Conversations, u: Update)
    requires Consistent(s.context, conv)
    ensures var (s', conv') := FeedbackStep(s, contact, conv, u);
      && FeedbackTracked(s'.context, conv', Chat(u)) && CardTracked(s'.context, conv', Chat(u))
      && (!Exclusive(conv', Chat(u)) ==> IsNewCommand(u, "feedback"))
  {
    var c := Chat(u);
    assert FeedbackTracked(s.context, conv, c) && CardTracked(s.context, conv, c) && Exclusive(conv, c);
    FeedbackCases(s, contact, conv, u);
  }

  /** Group 2 keeps the bookkeeping consistent: every chat stays tracked, and the two
      conversations stay exclusive except when a new /feedback arrives while a card is shown,
      which group 3 then ends. */
  lemma FeedbackStepKeepsTracking(s: BotState, contact: ChatId, conv: Conversations, u: Update)
    requires Consistent(s.context, conv)
    ensures var (s', conv') := FeedbackStep(s, contact, conv, u);
      && Tracked(s'.context, conv')
      && (forall c | c != Chat(u) :: Exclusive(conv', c))
      && (!Exclusive(conv', Chat(u)) ==> IsNewCommand(u, "feedback"))
  {
    var (s', conv') := FeedbackStep(s, contact, conv, u);
    FeedbackStepLocal(s, contact, conv, u);
    FeedbackStepTracksChat(s, contact, conv, u);
    TrackedElsewhere(s.context, conv, s'.context, conv', Chat(u));
  }

  /** A proof helper: unfolds `GetWordEffect` case by case for the verifier, so that the
      lemmas below need not unfold it themselves. */
  lemma GetWordCases(s: BotState, photos: seq<PhotoEntry>, conv: Conversations, u: Update, ix: nat)
    requires ix < |photos|
    ensures var c := Chat(u);
      var st := StateOf(conv.getWord, c);
      var e := GetWordEffect(s, photos, conv, u, ix);
      && (IsCommand(u, "get") ==> e == Some(GetEffect(s, photos, u, ix)))
      && (!IsCommand(u, "get") && st.None? ==> e.None?)
      && (!IsCommand(u, "get") && st.Some? && IsCommandMessage(u) ==> e == Some(CardCleanupEffect(s, u.from, End)))
      && (!IsCommandMessage(u) && IsMessage(u) ==> e.None?)
      && (u.CallbackQuery? && st == Some(GetWordReceived) && u.data == CbGetWordResendCurrent ==>
            e == Some(GetWordResendCurrentEffect(s, photos, u.from, u.queryId, u.messageId, ix)))
      && (u.CallbackQuery? && st == Some(GetWordReceived) && u.data == CbGetWordSendNext ==>
            e == Some(GetWordSendNextEffect(s, photos, u.from, u.queryId, ix)))
      && (u.CallbackQuery? && (st != Some(GetWordReceived)
                               || (u.data != CbGetWordResendCurrent && u.data != CbGetWordSendNext)) ==>
            e.None?)
  {
  }

  /** What group 3 leaves alone, on what group 2 left: no handler it selects raises, only chat
      `Chat(u)` and its browsing entry change, the feedback conversation is untouched, a new
      /get starts browsing, an edited /get only re-arms the timer, and any other command ends
      it. */
  lemma GetWordStepLocal(s: BotState, photos: seq<PhotoEntry>, conv: Conversations, u: Update, ix: nat)
    requires ix < |photos| && Tracked(s.context, conv)
    ensures var e := GetWordEffect(s, photos, conv, u, ix); e.Some? ==> e.value.outcome.Returned?
    ensures var (s', conv') := GetWordStep(s, photos, conv, u, ix);
      && conv'.feedback == conv.feedback
      && SameExcept(s'.context, s.context, Chat(u))
      && MachineSameExcept(conv'.getWord, conv.getWord, Chat(u))
      && (IsNewCommand(u, "get") ==> StateOf(conv'.getWord, Chat(u)) == Some(GetWordReceived))
      && (IsCommand(u, "get") && u.EditedMessage? ==>
            && s' == s
            && conv'.getWord == conv.getWord.(timers := conv.getWord.timers[Chat(u) := u]))
      && (IsCommandMessage(u) && !IsCommand(u, "get") ==> Chat(u) !in conv'.getWord.states)
  {
    assert CardTracked(s.context, conv, Chat(u));
    GetWordCases(s, photos, conv, u, ix);
  }

  /** Group 3 restores consistency on what group 2 left: the chat of `u` ends up in at most
      one conversation and stays tracked, and so does every other chat. */
  lemma GetWordStepKeepsTracking(s: BotState, photos: seq<PhotoEntry>, conv: Conversations, u: Update, ix: nat)
    requires ix < |photos| && Tracked(s.context, conv)
    requires forall c | c != Chat(u) :: Exclusive(conv, c)
    requires !Exclusive(conv, Chat(u)) ==> IsNewCommand(u, "feedback")
    requires IsCommandMessage(u) && !IsCommand(u, "feedback") ==> Chat(u) !in conv.feedback.states
    ensures var (s', conv') := GetWordStep(s, photos, conv, u, ix);
      Consistent(s'.context, conv')
  {
    var c := Chat(u);
    var (s', conv') := GetWordStep(s, photos, conv, u, ix);
    assert FeedbackTracked(s.context, conv, c) && CardTracked(s.context, conv, c);
    GetWordStepLocal(s, photos, conv, u, ix);
    GetWordCases(s, photos, conv, u, ix);
    assert FeedbackTracked(s'.context, conv', c) && CardTracked(s'.context, conv', c) && Exclusive(conv', c);
    TrackedElsewhere(s.context, conv, s'.context, conv', c);
  }

  /** One whole update keeps the bookkeeping of every chat consistent and touches only the
      chat it came from. */
  lemma UpdateStepKeepsConsistent(s: BotState, contact: ChatId, photos: seq<PhotoEntry>,
                                  conv: Conversations, u: Update, ix: nat)
    requires ix < |photos| && Consistent(s.context, conv)
    ensures var (s', conv') := UpdateStep(s, contact, photos, conv, u, ix);
      && Consistent(s'.context, conv')
      && SameExcept(s'.context, s.context, Chat(u))
      && MachineSameExcept(conv'.feedback, conv.feedback, Chat(u))
      && MachineSameExcept(conv'.getWord, conv.getWord, Chat(u))
  {
    var (s2, conv2) := FeedbackStep(s, contact, conv, u);
    FeedbackStepLocal(s, contact, conv, u);
    FeedbackStepKeepsTracking(s, contact, conv, u);
    GetWordStepLocal(s2, photos, conv2, u, ix);
    GetWordStepKeepsTracking(s2, photos, conv2, u, ix);
  }

  /** Group 2: the feedback conversation handles `u`. */
  method FeedbackGroup(bot: Bot, conv: Conversations, u: Update) returns (conv': Conversations, raised: bool)
    requires bot.Valid() && Consistent(bot.context, conv)
    modifies bot
    ensures bot.Valid()
    ensures !raised
    ensures (bot.State(), conv') == FeedbackStep(old(bot.State()), bot.contact, conv, u)
    ensures Tracked(bot.context, conv')
    ensures conv'.getWord == conv.getWord
    ensures SameExcept(bot.context, old(bot.context), Chat(u))
    ensures MachineSameExcept(conv'.feedback, conv.feedback, Chat(u))
    ensures forall c | c != Chat(u) :: Exclusive(conv', c)
    ensures !Exclusive(conv', Chat(u)) ==> IsNewCommand(u, "feedback")
    ensures IsNewCommand(u, "feedback") ==> StateOf(conv'.feedback, Chat(u)) == Some(FbReceiving)
    ensures IsCommand(u, "feedback") && u.EditedMessage? ==>
      && bot.context == old(bot.context) && bot.outbox == old(bot.outbox)
      && conv'.feedback == conv.feedback.(timers := conv.feedback.timers[Chat(u) := u])
    ensures IsCommandMessage(u) && !IsCommand(u, "feedback") ==> Chat(u) !in conv'.feedback.states
  {
    var c := Chat(u);
    var state := StateOf(conv.feedback, c);
    FeedbackRouting(state, u);
    FeedbackStepLocal(bot.State(), bot.contact, conv, u);
    FeedbackStepKeepsTracking(bot.State(), bot.contact, conv, u);
    var cb := Select(FeedbackConversation, state, u);
    var o: Outcome;
    match cb {
      case None =>
        return conv, false;
      case Some(FeedbackStart) =>
        o := bot.FeedbackStart(u);
      case Some(FeedbackReceived) =>
        o := bot.FeedbackReceived(u);
      case Some(FeedbackVerified) =>
        o := bot.FeedbackVerified(u.from, u.queryId);
      case Some(FeedbackCanceled) =>
        o := bot.FeedbackCanceled(u.from, if u.CallbackQuery? then Some(u.queryId) else None);
      case Some(FeedbackInputNotRecognized) =>
        o := bot.FeedbackInputNotRecognized(u);
    }
    raised := o.KeyError?;
    conv' := conv.(feedback := Step(conv.feedback, c, o, u));
  }

  /** Group 3: the word-browsing conversation handles `u`, after group 2 has. `ix` is the
      random draw for a handler that picks a card. */
  method GetWordGroup(bot: Bot, conv: Conversations, u: Update, ix: nat) returns (conv': Conversations, raised: bool)
    requires bot.Valid() && ix < |bot.photos| && Tracked(bot.context, conv)
    requires forall c | c != Chat(u) :: Exclusive(conv, c)
    requires !Exclusive(conv, Chat(u)) ==> IsNewCommand(u, "feedback")
    requires IsCommandMessage(u) && !IsCommand(u, "feedback") ==> Chat(u) !in conv.feedback.states
    modifies bot
    ensures bot.Valid()
    ensures !raised
    ensures (bot.State(), conv') == GetWordStep(old(bot.State()), bot.photos, conv, u, ix)
    ensures Consistent(bot.context, conv')
    ensures conv'.feedback == conv.feedback
    ensures SameExcept(bot.context, old(bot.context), Chat(u))
    ensures MachineSameExcept(conv'.getWord, conv.getWord, Chat(u))
    ensures IsNewCommand(u, "get") ==> StateOf(conv'.getWord, Chat(u)) == Some(GetWordReceived)
    ensures IsCommand(u, "get") && u.EditedMessage? ==>
      && bot.context == old(bot.context) && bot.outbox == old(bot.outbox)
      && conv'.getWord == conv.getWord.(timers := conv.getWord.timers[Chat(u) := u])
    ensures IsCommandMessage(u) && !IsCommand(u, "get") ==> Chat(u) !in conv'.getWord.states
  {
    var c := Chat(u);
    var state := StateOf(conv.getWord, c);
    GetWordRouting(state, u);
    GetWordStepLocal(bot.State(), bot.photos, conv, u, ix);
    GetWordStepKeepsTracking(bot.State(), bot.photos, conv, u, ix);
    var cb := Select(GetWordConversation, state, u);
    var o: Outcome;
    match cb {
      case None =>
        return conv, false;
      case Some(Get) =>
        o := bot.Get(u, ix);
      case Some(GetWordResendCurrent) =>
        o := bot.GetWordResendCurrent(u.from, u.queryId, u.messageId, ix);
      case Some(GetWordSendNext) =>
        o := bot.GetWordSendNext(u.from, u.queryId, ix);
      case Some(GetWordCanceled) =>
        o := bot.GetWordCanceled(u.from);
    }
    raised := o.KeyError?;
    conv' := conv.(getWord := Step(conv.getWord, c, o, u));
  }

  /** One update: group 2, then group 3. Every handler the tables select finds the keys it
      reads, so none raises KeyError, and the consistency of every chat is kept. A new /feedback
      or /get starts its flow and ends the other; an edited one is ignored by its own entry
      handler, which only re-arms that conversation's timer, and still ends the other flow;
      every other command ends both. */
  method HandleUpdate(bot: Bot, conv: Conversations, u: Update, ix: nat) returns (conv': Conversations, raised: bool)
    requires bot.Valid() && ix < |bot.photos| && Consistent(bot.context, conv)
    modifies bot
    ensures bot.Valid()
    ensures !raised
    ensures (bot.State(), conv') == UpdateStep(old(bot.State()), bot.contact, bot.photos, conv, u, ix)
    ensures Consistent(bot.context, conv')
    ensures SameExcept(bot.context, old(bot.context), Chat(u))
    ensures MachineSameExcept(conv'.feedback, conv.feedback, Chat(u))
    ensures MachineSameExcept(conv'.getWord, conv.getWord, Chat(u))
    ensures IsNewCommand(u, "feedback") ==>
      && StateOf(conv'.feedback, Chat(u)) == Some(FbReceiving)
      && Chat(u) !in conv'.getWord.states
      && Chat(u) in bot.context && bot.context[Chat(u)].lastCard.None?
    ensures IsNewCommand(u, "get") ==>
      && StateOf(conv'.getWord, Chat(u)) == Some(GetWordReceived)
      && Chat(u) !in conv'.feedback.states
      && Chat(u) in bot.context
      && bot.context[Chat(u)].feedbackMsg.None? && bot.context[Chat(u)].prompt.None?
    ensures IsCommand(u, "feedback") && u.EditedMessage? ==>
      && conv'.feedback == conv.feedback.(timers := conv.feedback.timers[Chat(u) := u])
      && Chat(u) !in conv'.getWord.states
    ensures IsCommand(u, "get") && u.EditedMessage? ==>
      && conv'.getWord == conv.getWord.(timers := conv.getWord.timers[Chat(u) := u])
      && Chat(u) !in conv'.feedback.states
    ensures IsCommandMessage(u) && !IsCommand(u, "feedback") && !IsCommand(u, "get") ==>
      Chat(u) !in conv'.feedback.states && Chat(u) !in conv'.getWord.states
  {
    var mid, raised2 := FeedbackGroup(bot, conv, u);
    var raised3;
    conv', raised3 := GetWordGroup(bot, mid, u, ix);
    raised := raised2 || raised3;
    assert FeedbackTracked(bot.context, conv', Chat(u)) && CardTracked(bot.context, conv', Chat(u));
  }

  /** The feedback timer of chat `c` fires: feedback_timeout runs for the update the timer
      holds, and the conversation ends. A timer left by an ignored edit, in a chat that has no
      record yet, makes feedback_timeout raise KeyError after its message went out. */
  method FeedbackTimesOut(bot: Bot, conv: Conversations, c: ChatId) returns (conv': Conversations, raised: bool)
    requires bot.Valid() && Consistent(bot.context, conv) && c in conv.feedback.timers
    modifies bot
    ensures bot.Valid()
    ensures raised <==> c !in old(bot.context)
    ensures raised ==> c !in conv.feedback.states
    ensures Consistent(bot.context, conv')
    ensures conv' == conv.(feedback := Machine(conv.feedback.states - {c}, conv.feedback.timers - {c}))
    ensures bot.context == if c in old(bot.context)
                           then old(bot.context)[c := FeedbackCleared(old(bot.context)[c])]
                           else old(bot.context)
    ensures bot.outbox == old(bot.outbox) + [SendText(c, TimedOut, None, NoKeyboard, old(bot.nextMsgId))]
                          + (if c in old(bot.context) then StripCalls(c, old(bot.context)[c].prompt) else [])
  {
    var m := conv.feedback;
    var last := m.timers[c];
    assert FeedbackTracked(bot.context, conv, c);
    FeedbackTimeoutHandlers(last);
    ghost var ctx0 := bot.context;
    raised := false;
    if TimeoutCallbacks(FeedbackConversation.timeout, last) == [FeedbackTimeout] {
      var o := bot.FeedbackTimeout(last.from);
      raised := o.KeyError?;
    }
    conv' := conv.(feedback := Machine(if raised then m.states else m.states - {c}, m.timers - {c}));
    forall x
      ensures FeedbackTracked(bot.context, conv', x) && CardTracked(bot.context, conv', x) && Exclusive(conv', x)
    {
      assert FeedbackTracked(ctx0, conv, x) && CardTracked(ctx0, conv, x) && Exclusive(conv, x);
    }
  }

  /** The word-browsing timer of chat `c` fires: get_word_timeout runs once for the update the
      timer holds, and the conversation ends. A timer left by an ignored edit, in a chat that
      has no record yet, makes get_word_timeout raise KeyError. */
  method GetWordTimesOut(bot: Bot, conv: Conversations, c: ChatId) returns (conv': Conversations, raised: bool)
    requires bot.Valid() && Consistent(bot.context, conv) && c in conv.getWord.timers
    modifies bot
    ensures bot.Valid()
    ensures raised <==> c !in old(bot.context)
    ensures raised ==> c !in conv.getWord.states
    ensures Consistent(bot.context, conv')
    ensures conv' == conv.(getWord := Machine(conv.getWord.states - {c}, conv.getWord.timers - {c}))
    ensures bot.context == if c in old(bot.context)
                           then old(bot.context)[c := CardCleared(old(bot.context)[c])]
                           else old(bot.context)
    ensures bot.outbox == old(bot.outbox)
                          + (if c in old(bot.context) then StripCalls(c, old(bot.context)[c].lastCard) else [])
  {
    var m := conv.getWord;
    var last := m.timers[c];
    assert CardTracked(bot.context, conv, c);
    GetWordTimeoutHandlers(last);
    ghost var ctx0 := bot.context;
    raised := false;
    if TimeoutCallbacks(GetWordConversation.timeout, last) == [GetWordTimeout] {
      var o := bot.GetWordTimeout(last.from);
      raised := o.KeyError?;
    }
    conv' := conv.(getWord := Machine(if raised then m.states else m.states - {c}, m.timers - {c}));
    forall x
      ensures FeedbackTracked(bot.context, conv', x) && CardTracked(bot.context, conv', x) && Exclusive(conv', x)
    {
      assert FeedbackTracked(ctx0, conv, x) && CardTracked(ctx0, conv, x) && Exclusive(conv, x);
    }
  }

  /** A new message that is not a command, while the feedback conversation waits for it,
      becomes the pending feedback: exactly the Yes/No question replying to it goes out, it
      becomes the prompt, and the conversation moves to Verification. */
  lemma MessageAsksForConfirmation(s: BotState, contact: ChatId, photos: seq<PhotoEntry>,
                                   conv: Conversations, u: Update, ix: nat)
    requires ix < |photos| && Consistent(s.context, conv)
    requires u.NewMessage? && u.content.NotCommand? && StateOf(conv.feedback, Chat(u)) == Some(FbReceiving)
    ensures var (s', conv') := UpdateStep(s, contact, photos, conv, u, ix);
      && Chat(u) in s.context
      && StateOf(conv'.feedback, Chat(u)) == Some(FbVerification)
      && s'.context == s.context[Chat(u) := s.context[Chat(u)].(feedbackMsg := Some(u.messageId),
                                                                 prompt := Some(s.nextMsgId))]
      && s'.outbox == s.outbox + [SendText(Chat(u), ConfirmQuestion, Some(u.messageId), YesNo, s.nextMsgId)]
      && conv'.getWord == conv.getWord
  {
    var c := Chat(u);
    assert FeedbackTracked(s.context, conv, c) && Exclusive(conv, c);
  }

  /** Yes while the question is open: the notice, the forward to the contact chat, the thanks,
      the forward back and the answer go out in that order, then the prompt is stripped; both
      feedback keys are cleared and the conversation and its timer end. */
  lemma YesRelaysFeedback(s: BotState, contact: ChatId, photos: seq<PhotoEntry>,
                          conv: Conversations, u: Update, ix: nat)
    requires ix < |photos| && Consistent(s.context, conv)
    requires u.CallbackQuery? && u.data == CbFeedbackVerify
    requires StateOf(conv.feedback, Chat(u)) == Some(FbVerification)
    ensures var c := Chat(u);
      && HasPending(s.context, c) && s.context[c].prompt.Some?
      && var (s', conv') := UpdateStep(s, contact, photos, conv, u, ix);
         var r := s.context[c];
         var m := r.feedbackMsg.value;
         && c !in conv'.feedback.states && c !in conv'.feedback.timers
         && s'.context == s.context[c := FeedbackCleared(r)]
         && s'.outbox == s.outbox
                         + [ SendText(contact, FeedbackNotice(FeedbackNoticeText(u.from)), None, NoKeyboard, s.nextMsgId),
                             Forward(contact, c, m),
                             SendText(c, Thanks, None, NoKeyboard, s.nextMsgId + 1),
                             Forward(c, c, m),
                             AnswerCallback(u.queryId),
                             StripKeyboard(c, r.prompt.value) ]
  {
    var c := Chat(u);
    assert FeedbackTracked(s.context, conv, c) && Exclusive(conv, c);
  }

  /** No while the question is open: the press is answered, the prompt stripped and one
      "interrupted" message sent; both feedback keys are cleared and the conversation ends. */
  lemma NoCancelsFeedback(s: BotState, contact: ChatId, photos: seq<PhotoEntry>,
                          conv: Conversations, u: Update, ix: nat)
    requires ix < |photos| && Consistent(s.context, conv)
    requires u.CallbackQuery? && u.data == CbFeedbackReject
    requires StateOf(conv.feedback, Chat(u)) == Some(FbVerification)
    ensures var c := Chat(u);
      && c in s.context && s.context[c].prompt.Some?
      && var (s', conv') := UpdateStep(s, contact, photos, conv, u, ix);
         && c !in conv'.feedback.states && c !in conv'.feedback.timers
         && s'.context == s.context[c := FeedbackCleared(s.context[c])]
         && s'.outbox == s.outbox
                         + [ AnswerCallback(u.queryId),
                             StripKeyboard(c, s.context[c].prompt.value),
                             SendText(c, Interrupted, None, NoKeyboard, s.nextMsgId) ]
  {
    var c := Chat(u);
    assert FeedbackTracked(s.context, conv, c) && Exclusive(conv, c);
  }

  /** "Send next" while a card is shown: the old card's buttons are stripped, the drawn card
      goes out and becomes the last card, the press is answered, and browsing goes on with the
      timer holding the press. */
  lemma SendNextReplacesCard(s: BotState, contact: ChatId, photos: seq<PhotoEntry>,
                             conv: Conversations, u: Update, ix: nat)
    requires ix < |photos| && Consistent(s.context, conv)
    requires u.CallbackQuery? && u.data == CbGetWordSendNext
    requires StateOf(conv.getWord, Chat(u)) == Some(GetWordReceived)
    ensures var c := Chat(u);
      && c in s.context && s.context[c].lastCard.Some?
      && var (s', conv') := UpdateStep(s, contact, photos, conv, u, ix);
         && StateOf(conv'.getWord, c) == Some(GetWordReceived) && conv'.getWord.timers[c] == u
         && s'.context == s.context[c := s.context[c].(lastCard := Some(s.nextMsgId))]
         && s'.outbox == s.outbox
                         + [ StripKeyboard(c, s.context[c].lastCard.value),
                             SendPhoto(c, GetRandomPhotoObject(photos, ix), CardButtons, s.nextMsgId),
                             AnswerCallback(u.queryId) ]
  {
    var c := Chat(u);
    assert CardTracked(s.context, conv, c) && Exclusive(conv, c);
  }

  /** A new /feedback while a card is shown: group 2 sends the instructions first, then group 3
      strips the card; the card key is cleared and only the feedback conversation runs. */
  lemma FeedbackWhileBrowsing(s: BotState, contact: ChatId, photos: seq<PhotoEntry>,
                              conv: Conversations, u: Update, ix: nat)
    requires ix < |photos| && Consistent(s.context, conv)
    requires IsNewCommand(u, "feedback") && StateOf(conv.getWord, Chat(u)) == Some(GetWordReceived)
    ensures var c := Chat(u);
      && c in s.context && s.context[c].lastCard.Some?
      && var (s', conv') := UpdateStep(s, contact, photos, conv, u, ix);
         && StateOf(conv'.feedback, c) == Some(FbReceiving) && c !in conv'.getWord.states
         && s'.context == s.context[c := s.context[c].(lastCard := None)]
         && s'.outbox == s.outbox
                         + [ SendText(c, FeedbackInstructions, None, NoKeyboard, s.nextMsgId),
                             StripKeyboard(c, s.context[c].lastCard.value) ]
  {
    var c := Chat(u);
    assert FeedbackTracked(s.context, conv, c) && CardTracked(s.context, conv, c) && Exclusive(conv, c);
    var (s2, conv2) := FeedbackStep(s, contact, conv, u);
    assert FeedbackCleared(s.context[c]) == s.context[c];
    assert s2.context == s.context;
    assert s2.outbox == s.outbox + [SendText(c, FeedbackInstructions, None, NoKeyboard, s.nextMsgId)];
    assert conv2.getWord == conv.getWord;
    assert IsCommandMessage(u) && !IsCommand(u, "get");
    assert GetWordEffect(s2, photos, conv2, u, ix) == Some(CardCleanupEffect(s2, u.from, End));
  }

  /** A new /get while the Yes/No question is open: group 2 strips the question and says the
      conversation was interrupted, then group 3 sends a card; only browsing runs afterwards. */
  lemma GetWhileConfirming(s: BotState, contact: ChatId, photos: seq<PhotoEntry>,
                           conv: Conversations, u: Update, ix: nat)
    requires ix < |photos| && Consistent(s.context, conv)
    requires IsNewCommand(u, "get") && StateOf(conv.feedback, Chat(u)) == Some(FbVerification)
    ensures var c := Chat(u);
      && c in s.context && s.context[c].prompt.Some?
      && var (s', conv') := UpdateStep(s, contact, photos, conv, u, ix);
         && c !in conv'.feedback.states && StateOf(conv'.getWord, c) == Some(GetWordReceived)
         && s'.context == s.context[c := EmptyRecord.(lastCard := Some(s.nextMsgId + 1))]
         && s'.outbox == s.outbox
                         + [ StripKeyboard(c, s.context[c].prompt.value),
                             SendText(c, Interrupted, None, NoKeyboard, s.nextMsgId),
                             SendPhoto(c, GetRandomPhotoObject(photos, ix), CardButtons, s.nextMsgId + 1) ]
  {
    var c := Chat(u);
    assert FeedbackTracked(s.context, conv, c) && CardTracked(s.context, conv, c) && Exclusive(conv, c);
    var (s2, conv2) := FeedbackStep(s, contact, conv, u);
    assert s2.context == s.context[c := FeedbackCleared(s.context[c])];
    assert s2.outbox == s.outbox + [StripKeyboard(c, s.context[c].prompt.value),
                                    SendText(c, Interrupted, None, NoKeyboard, s.nextMsgId)];
    assert s2.nextMsgId == s.nextMsgId + 1;
    assert c !in conv2.getWord.states;
    assert RecordOf(s2.context, c) == EmptyRecord;
    assert GetWordEffect(s2, photos, conv2, u, ix) == Some(GetEffect(s2, photos, u, ix));
  }

}
