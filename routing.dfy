/** The two ConversationHandler tables built in main(), kept as data, and the order in
    which python-telegram-bot's ConversationHandler picks a handler from them. */
module Routing {
  import opened Transport
  import opened Updates
  import opened Flow

  /** The `callback_data` carried by the four inline buttons. */
  const CbGetWordResendCurrent: string := "0"
  const CbGetWordSendNext: string := "1"
  const CbFeedbackVerify: string := "2"
  const CbFeedbackReject: string := "3"

  /** The handler kinds main() registers. */
  datatype Filter =
    | CommandIs(name: string)     // CommandHandler(name, ...)
    | AnyCommand                  // MessageHandler(Filters.command, ...)
    | AnyMessage                  // MessageHandler(Filters.all, ...)
    | CallbackData(data: string)  // CallbackQueryHandler(..., pattern=f'^{data}$')
    | AnyCallback                 // CallbackQueryHandler(...) without a pattern

  /** The handler functions of the two conversations. */
  datatype Callback =
    | FeedbackStart | FeedbackReceived | FeedbackVerified | FeedbackCanceled
    | FeedbackTimeout | FeedbackInputNotRecognized
    | Get | GetWordResendCurrent | GetWordSendNext | GetWordTimeout | GetWordCanceled

  datatype Route = Route(filter: Filter, callback: Callback)

  datatype Conversation = Conversation(
    entryPoints: seq<Route>,
    states: map<ConvState, seq<Route>>,
    timeout: seq<Route>,
    fallbacks: seq<Route>,
    allowReentry: bool)

  predicate IsMessage(u: Update)
  {
    u.NewMessage? || u.EditedMessage?
  }

  /** A new or edited message that starts with a bot command. */
  predicate IsCommandMessage(u: Update)
  {
    IsMessage(u) && u.content.Command?
  }

  /** A new or edited message with the command /name: what CommandHandler(name) accepts. */
  predicate IsCommand(u: Update, name: string)
  {
    IsMessage(u) && u.content == Command(name)
  }

  /** A new (not edited) message with the command /name. */
  predicate IsNewCommand(u: Update, name: string)
  {
    u.NewMessage? && IsCommand(u, name)
  }

  predicate Matches(f: Filter, u: Update)
  {
    match f
    case CommandIs(name) => IsCommand(u, name)
    case AnyCommand => IsCommandMessage(u)
    case AnyMessage => IsMessage(u)
    case CallbackData(d) => u.CallbackQuery? && u.data == d
    case AnyCallback => u.CallbackQuery?
  }

  /** The callback of the first route whose filter accepts `u`. */
  function FirstMatch(routes: seq<Route>, u: Update): (cb: Option<Callback>)
    ensures cb.None? <==> forall i | 0 <= i < |routes| :: !Matches(routes[i].filter, u)
    ensures cb.Some? ==>
      exists i | 0 <= i < |routes| ::
        && routes[i].callback == cb.value
        && Matches(routes[i].filter, u)
        && forall j | 0 <= j < i :: !Matches(routes[j].filter, u)
  {
    if routes == [] then None
    else if Matches(routes[0].filter, u) then Some(routes[0].callback)
    else
      var rest := FirstMatch(routes[1..], u);
      assert forall i | 1 <= i < |routes| :: routes[i] == routes[1..][i - 1];
      rest
  }

  /** ConversationHandler.check_update: the entry points when there is no conversation or
      re-entry is allowed, then the handlers of the current state, then the fallbacks. */
  function Select(conv: Conversation, state: Option<ConvState>, u: Update): Option<Callback>
  {
    var entry := if state.None? || conv.allowReentry then FirstMatch(conv.entryPoints, u) else None;
    if entry.Some? then entry
    else if state.None? then None
    else
      var inState := if state.value in conv.states then FirstMatch(conv.states[state.value], u) else None;
      if inState.Some? then inState else FirstMatch(conv.fallbacks, u)
  }

  /** The TIMEOUT handlers that run for the update a fired timer holds: every one whose
      filter accepts it, in order. */
  function TimeoutCallbacks(routes: seq<Route>, last: Update): seq<Callback>
  {
    if routes == [] then []
    else (if Matches(routes[0].filter, last) then [routes[0].callback] else [])
         + TimeoutCallbacks(routes[1..], last)
  }

  /** conversation_feedback in main(). */
  const FeedbackConversation: Conversation := Conversation(
    [Route(CommandIs("feedback"), FeedbackStart)],
    map[
      FbReceiving := [Route(AnyCommand, FeedbackCanceled), Route(AnyMessage, FeedbackReceived)],
      FbVerification := [Route(CallbackData(CbFeedbackVerify), FeedbackVerified),
                         Route(CallbackData(CbFeedbackReject), FeedbackCanceled)]],
    [Route(AnyMessage, FeedbackTimeout)],
    [Route(AnyCommand, FeedbackCanceled), Route(AnyMessage, FeedbackInputNotRecognized)],
    true)

  /** conversation_get_word in main(). */
  const GetWordConversation: Conversation := Conversation(
    [Route(CommandIs("get"), Get)],
    map[
      GetWordReceived := [Route(CallbackData(CbGetWordResendCurrent), GetWordResendCurrent),
                          Route(CallbackData(CbGetWordSendNext), GetWordSendNext)]],
    [Route(AnyMessage, GetWordTimeout), Route(AnyCallback, GetWordTimeout)],
    [Route(AnyCommand, GetWordCanceled)],
    true)

  /** The feedback handler an update reaches, case by case: /feedback, new or edited, always
      reaches feedback_start; with no conversation nothing else is handled; any other command
      is never taken as feedback text but cancels; other messages are the feedback (Receiving)
      or an unrecognised answer (Verification); the Yes/No buttons count only while waiting
      for confirmation. */
  function FeedbackHandlerFor(state: Option<ConvState>, u: Update): Option<Callback>
  {
    if IsCommand(u, "feedback") then Some(FeedbackStart)
    else if state.None? then None
    else if IsCommandMessage(u) then Some(FeedbackCanceled)
    else if IsMessage(u) then
      if state == Some(FbReceiving) then Some(FeedbackReceived) else Some(FeedbackInputNotRecognized)
    else if state == Some(FbVerification) && u.data == CbFeedbackVerify then Some(FeedbackVerified)
    else if state == Some(FbVerification) && u.data == CbFeedbackReject then Some(FeedbackCanceled)
    else None
  }

  /** The word-browsing handler an update reaches, case by case: /get, new or edited, always
      reaches get; with no conversation nothing else is handled; any other command cancels;
      the card buttons count while a card is shown; other messages are ignored. */
  function GetWordHandlerFor(state: Option<ConvState>, u: Update): Option<Callback>
  {
    if IsCommand(u, "get") then Some(Get)
    else if state.None? then None
    else if IsCommandMessage(u) then Some(GetWordCanceled)
    else if IsMessage(u) then None
    else if state == Some(GetWordReceived) && u.data == CbGetWordResendCurrent then Some(GetWordResendCurrent)
    else if state == Some(GetWordReceived) && u.data == CbGetWordSendNext then Some(GetWordSendNext)
    else None
  }

  lemma FirstMatchOne(a: Route, u: Update)
    ensures FirstMatch([a], u) == if Matches(a.filter, u) then Some(a.callback) else None
  {
    assert [a][1..] == [];
  }

  lemma FirstMatchTwo(a: Route, b: Route, u: Update)
    ensures FirstMatch([a, b], u)
            == if Matches(a.filter, u) then Some(a.callback)
               else if Matches(b.filter, u) then Some(b.callback)
               else None
  {
    assert [a, b][1..] == [b];
    FirstMatchOne(b, u);
  }

  /** The feedback table picks exactly the handler the case analysis names. */
  lemma FeedbackRouting(state: Option<ConvState>, u: Update)
    ensures Select(FeedbackConversation, state, u) == FeedbackHandlerFor(state, u)
  {
    var t := FeedbackConversation;
    FirstMatchOne(t.entryPoints[0], u);
    assert t.entryPoints == [t.entryPoints[0]];
    FirstMatchTwo(t.fallbacks[0], t.fallbacks[1], u);
    assert t.fallbacks == [t.fallbacks[0], t.fallbacks[1]];
    var r := t.states[FbReceiving];
    FirstMatchTwo(r[0], r[1], u);
    assert r == [r[0], r[1]];
    var v := t.states[FbVerification];
    FirstMatchTwo(v[0], v[1], u);
    assert v == [v[0], v[1]];
  }

  /** The word-browsing table picks exactly the handler the case analysis names. */
  lemma GetWordRouting(state: Option<ConvState>, u: Update)
    ensures Select(GetWordConversation, state, u) == GetWordHandlerFor(state, u)
  {
    var t := GetWordConversation;
    FirstMatchOne(t.entryPoints[0], u);
    assert t.entryPoints == [t.entryPoints[0]];
    FirstMatchOne(t.fallbacks[0], u);
    assert t.fallbacks == [t.fallbacks[0]];
    var r := t.states[GetWordReceived];
    FirstMatchTwo(r[0], r[1], u);
    assert r == [r[0], r[1]];
  }

  /** The feedback conversation's timeout handler runs exactly when the update the timer
      holds is a message. */
  lemma FeedbackTimeoutHandlers(last: Update)
    ensures TimeoutCallbacks(FeedbackConversation.timeout, last)
            == if IsMessage(last) then [FeedbackTimeout] else []
  {
    var t := FeedbackConversation.timeout;
    assert t[1..] == [];
  }

  /** The word-browsing timeout handler runs once whatever update the timer holds. */
  lemma GetWordTimeoutHandlers(last: Update)
    ensures TimeoutCallbacks(GetWordConversation.timeout, last) == [GetWordTimeout]
  {
    var t := GetWordConversation.timeout;
    assert t[1..] == [t[1]];
    assert [t[1]][1..] == [];
    assert TimeoutCallbacks([t[1]], last) == if last.CallbackQuery? then [GetWordTimeout] else [];
  }

  /** A command is never taken as the feedback text or as an answer to the Yes/No question:
      /feedback, new or edited, reaches feedback_start in every state, and in a running
      conversation any other command cancels. */
  lemma CommandNeverTakenAsFeedback(state: Option<ConvState>, u: Update)
    requires IsCommandMessage(u)
    ensures Select(FeedbackConversation, state, u) != Some(FeedbackReceived)
    ensures Select(FeedbackConversation, state, u) != Some(FeedbackInputNotRecognized)
    ensures IsCommand(u, "feedback") ==> Select(FeedbackConversation, state, u) == Some(FeedbackStart)
    ensures state.Some? && !IsCommand(u, "feedback") ==>
              Select(FeedbackConversation, state, u) == Some(FeedbackCanceled)
  {
    FeedbackRouting(state, u);
  }

  /** /get, new or edited, reaches get in every state; any other command ends a running
      word-browsing conversation through get_word_canceled. */
  lemma CommandEndsGetWord(state: Option<ConvState>, u: Update)
    requires IsCommandMessage(u)
    ensures IsCommand(u, "get") ==> Select(GetWordConversation, state, u) == Some(Get)
    ensures state.Some? && !IsCommand(u, "get") ==>
              Select(GetWordConversation, state, u) == Some(GetWordCanceled)
  {
    GetWordRouting(state, u);
  }

  /** The Yes/No buttons reach feedback_verified or feedback_canceled only while the feedback
      conversation waits for confirmation; the card buttons reach their handlers only while a
      card is shown. */
  lemma ButtonsOnlyInTheirState(state: Option<ConvState>, u: Update)
    requires u.CallbackQuery?
    ensures Select(FeedbackConversation, state, u).Some? ==> state == Some(FbVerification)
    ensures Select(GetWordConversation, state, u).Some? ==> state == Some(GetWordReceived)
  {
    FeedbackRouting(state, u);
    GetWordRouting(state, u);
  }
}
