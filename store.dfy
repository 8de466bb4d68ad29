/** The per-chat record of `conversation_context` and what the two cleanups leave of it. */
module Store {
  import opened Transport

  /** `conversation_context[chat_id]`: a dict with up to three keys.
      lastCard    — K_GET_WORD_LAST_MESSAGE_ID, the word card that carries the card buttons;
      feedbackMsg — K_FB_MESSAGE_ID, the user's message waiting to be confirmed;
      prompt      — K_FB_MESSAGE_WITH_INLINE_KEYBOARD_ID, the question that carries Yes/No. */
  datatype Record = Record(lastCard: Option<MsgId>, feedbackMsg: Option<MsgId>, prompt: Option<MsgId>)

  /** The `dict()` a flow entry creates for a chat it has not seen. */
  const EmptyRecord: Record := Record(None, None, None)

  /** The record left by feedback_cleanup: both feedback keys gone, the card key kept. */
  function FeedbackCleared(r: Record): (c: Record)
    ensures c.feedbackMsg.None? && c.prompt.None?
    ensures c.lastCard == r.lastCard
  {
    r.(feedbackMsg := None, prompt := None)
  }

  /** The record left by get_word_cleanup: the card key gone, the feedback keys kept. */
  function CardCleared(r: Record): (c: Record)
    ensures c.lastCard.None?
    ensures c.feedbackMsg == r.feedbackMsg && c.prompt == r.prompt
  {
    r.(lastCard := None)
  }

  /** Every keyboard-carrying message the record names was sent before id `next` was handed out. */
  predicate IssuedBefore(r: Record, next: MsgId)
  {
    && (r.lastCard.Some? ==> r.lastCard.value < next)
    && (r.prompt.Some? ==> r.prompt.value < next)
  }

  /** A second feedback_cleanup changes nothing and strips nothing. */
  lemma FeedbackCleanupIdempotent(chat: ChatId, r: Record)
    ensures FeedbackCleared(FeedbackCleared(r)) == FeedbackCleared(r)
    ensures StripCalls(chat, FeedbackCleared(r).prompt) == []
  {
  }

  /** A second get_word_cleanup changes nothing and strips nothing. */
  lemma CardCleanupIdempotent(chat: ChatId, r: Record)
    ensures CardCleared(CardCleared(r)) == CardCleared(r)
    ensures StripCalls(chat, CardCleared(r).lastCard) == []
  {
  }

  /** The two cleanups touch disjoint keys, so their order does not matter. */
  lemma CleanupsCommute(r: Record)
    ensures FeedbackCleared(CardCleared(r)) == CardCleared(FeedbackCleared(r))
  {
  }
}
