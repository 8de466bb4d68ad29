# LieksikaBot conversation store — a Dafny model

LieksikaBot is a Telegram bot. It sends word cards (photos of dictionary entries) and relays
feedback to a maintainer. This project models its per-chat conversation bookkeeping.

The model covers:
- the module-level dict `conversation_context`, which maps each chat to a record with up to
  three keys: the last word card, the pending feedback message, and the Yes/No prompt;
- the handlers of the two conversations that insert and delete those keys:
  - feedback: start, receive, verify, cancel, timeout, unrecognised input;
  - word browsing: get, resend current, send next, timeout, cancel;
- the two cleanups;
- the routing tables that `main` builds for the two `ConversationHandler`s.

Modules:
- `Transport` (transport.dfy): ids and the outbound Telegram calls. Every call is appended to
  an outbox, so the order of effects is part of each contract.
- `Updates` (updates.dfy): inbound updates and the `reject_edit_update` guard.
- `Flow` (flow.dfy): the conversation states `CONV_STATE_FB_RECEIVING`,
  `CONV_STATE_FB_VERIFICATION` and `CONV_STATE_GET_WORD_RECEIVED`, handler return values, and
  the KeyError outcome.
- `Store` (store.dfy): the per-chat record, what each cleanup leaves of it, and idempotence.
- `UserInfo` (user_info.dfy): `get_user_info_str`, plus decoders of its first line, which
  recovers the user id, and of its last line, which recovers the username.
- `Photos` (photos.dfy): the card pool and the random draw.
- `Handlers` (bot.dfy): class `Bot`. Its fields are `context` (the dict), `outbox`, `nextMsgId`
  (stands in for the ids Telegram returns for sent messages), `contact` (`contact_chat_id`) and
  `photos`. There is one method per handler. What a handler does is also written as a pure
  function on a `BotState` value (the dict, the outbox and the id counter): `FeedbackStartEffect`,
  `GetEffect`, `CardCleanupEffect` and so on. The function gives the outcome, the new dict and
  the exact calls made, including the error path. Each method is proved to produce exactly
  that effect, and the cleanup and send helpers state their own effect directly.
- `Routing` (routing.dfy): the two `ConversationHandler` tables of `main`, kept as data
  (`FeedbackConversation`, `GetWordConversation`). `Select` is python-telegram-bot's
  `ConversationHandler.check_update`, which is framework code, not part of the repository: entry
  points first (re-entry is allowed), then the current state's handlers, then the fallbacks.
  Lemmas prove each table equal to a direct case analysis.
- `Dispatch` (dispatch.dfy): one update goes through the feedback conversation (group 2), then
  the word-browsing conversation (group 3). Each conversation keeps, per chat, its state
  (`conversations`) and its pending timeout job (`timeout_jobs`), which holds the update that
  scheduled it. `FeedbackEffect` and `GetWordEffect` give the effect of the handler each table
  selects. `FeedbackStep` and `GetWordStep` add the conversation's next state and timer.
  `UpdateStep` runs group 3 on what group 2 left, so it fixes the order of calls across the
  two groups. The dispatch methods are proved to produce exactly these steps. A timer firing
  is a separate operation. A per-chat invariant ties each
  conversation's state to the record's keys:
  - no feedback keys outside the feedback conversation or while receiving;
  - both feedback keys while waiting for confirmation;
  - a card key exactly while browsing;
  - never both conversations at once;
  - a running conversation has a pending timer, and each timer holds an update of its own chat.

  Every dispatch step and every timer firing keeps this invariant. Under it no handler selected
  for an update raises KeyError, and at most one live keyboard is stored per chat.

Python's `KeyError` on a missing dict key is modelled as the outcome `KeyError`. Effects made
before the failing lookup stay, as in the code. For example, `feedback_verified` without a
pending message has already sent the notice to the contact chat.

The model follows the code, including where a tidier design would differ:
- The confirm path runs in this order: notice to the contact chat, forward there, thank-you to
  the user, forward back to the user, answer the button, then cleanup.
- A confirm press with no pending message raises after the notice has gone out.
- There is no generation counter.
- `feedback_start` never clears the card key and `get` never clears the feedback keys. The two
  flows exclude each other only because the routing tables send any other command to the
  running conversation's cancel handler. `Dispatch.HandleUpdate` proves this.
- An edited /feedback or /get reaches its entry handler, which ignores it. The entry handler
  changes no state and sends nothing. The same update still ends the other conversation if it
  runs (`HandleUpdate`). It also re-arms the entry handler's own conversation's timer, even when
  no conversation runs. When such a timer fires, `feedback_timeout` still sends its timeout notice. In a chat
  that has no record yet, both timeout handlers then raise KeyError
  (`Dispatch.FeedbackTimesOut`, `Dispatch.GetWordTimesOut`).

Framework behaviour that the model assumes (python-telegram-bot's `ConversationHandler` and
`Dispatcher`):
- a handler returning None keeps the state; returning `END` ends the conversation;
- a handler that raises leaves the state as it was;
- `CommandHandler` and `MessageHandler` accept new and edited messages alike. This is why
  `reject_edit_update` guards `feedback_start` and `get`;
- the chat's timer is dropped before a selected handler runs. A handler that raises leaves the
  state and schedules no timer. Any other reply except `END` schedules a new timer holding the
  update, even a None reply outside a conversation;
- when a timer fires, every TIMEOUT handler that accepts the held update runs. The
  conversation then ends, unless one of them raised;
- chats are private, so a chat id equals the user id.

## Model

| member | source | states |
|---|---|---|
| `Handlers.Bot.constructor` | lieksika_bot.py:27-45 | The store starts empty, the card pool is non-empty, and the contact chat is fixed. |
| `Handlers.Bot.FeedbackCleanup` | lieksika_bot.py:200-209 | Both feedback keys end up absent and the card key is kept. The prompt's keyboard is stripped exactly when the prompt key was present. Other chats are unchanged. A chat with no record raises KeyError and changes nothing. |
| `Handlers.Bot.FeedbackStart` | lieksika_bot.py:165-178 | Creates an empty record for a new chat and leaves other chats unchanged. Runs the feedback cleanup before sending the instructions, keeps the card key, and returns `CONV_STATE_FB_RECEIVING`. An edit update changes nothing. |
| `Handlers.Bot.FeedbackReceived` | lieksika_bot.py:181-197 | Stores the incoming message id as the pending feedback. Sends one Yes/No prompt that replies to it, stores the prompt's fresh id, and returns `CONV_STATE_FB_VERIFICATION`. With no record it raises KeyError before any effect. |
| `Handlers.Bot.FeedbackVerified` | lieksika_bot.py:212-233 | With a pending id it does, in order: notice to the contact chat, forward of exactly that id there, thank-you to the user, forward of the same id back to the user, one callback answer, then cleanup. Both feedback keys end absent and it returns END. Without a pending id only the notice goes out, then KeyError. |
| `Handlers.Bot.FeedbackCanceled` | lieksika_bot.py:236-245 | Answers the callback only for a button update. Clears both feedback keys, sends exactly one "interrupted" message and returns END. |
| `Handlers.Bot.FeedbackTimeout` | lieksika_bot.py:248-255 | Sends exactly one timeout message, then clears both feedback keys and strips the prompt if one was stored. |
| `Handlers.Bot.FeedbackInputNotRecognized` | lieksika_bot.py:258-275 | Strips the current prompt's keyboard. Sends a new prompt replying to the pending message and stores its id, which differs from the old one. The pending id and the state are unchanged. The two missing-key cases raise KeyError, with the strip already made in the second. |
| `Handlers.Bot.SendWordCard` | lieksika_bot.py:293-304 | Sends the card with its buttons and stores the card's fresh id as the last card. With no record the photo is still sent, then KeyError. |
| `Handlers.Bot.Get` | lieksika_bot.py:307-319 | Creates an empty record for a new chat and runs the card cleanup before sending the drawn card. Stores the new card id, keeps the feedback keys, and returns `CONV_STATE_GET_WORD_RECEIVED`. |
| `Handlers.Bot.GetWordResendCurrent` | lieksika_bot.py:322-340 | Edits the media of the pressed message (same message, same buttons) and answers the press. The store is not touched and no new message is sent. |
| `Handlers.Bot.GetWordCleanup` | lieksika_bot.py:343-350 | The card key ends up absent. The card's keyboard is stripped only if the key was present. The feedback keys and other chats are untouched. |
| `Handlers.Bot.GetWordSendNext` | lieksika_bot.py:353-360 | Strips the old card's keyboard, then stores the new card's fresh id, so the stored id changes. Answers the press once. |
| `Handlers.Bot.GetWordTimeout` | lieksika_bot.py:363-366 | A silent card cleanup. |
| `Handlers.Bot.GetWordCanceled` | lieksika_bot.py:369-374 | A card cleanup, then END. |
| `Store.FeedbackCleared` | lieksika_bot.py:200-209 | After the feedback cleanup neither feedback key is present and the card key is unchanged. |
| `Store.CardCleared` | lieksika_bot.py:343-350 | After the card cleanup the card key is absent and both feedback keys are unchanged. |
| `Store.FeedbackCleanupIdempotent` | lieksika_bot.py:200-209 | A second feedback cleanup gives the same record and strips nothing. |
| `Store.CardCleanupIdempotent` | lieksika_bot.py:343-350 | A second card cleanup gives the same record and strips nothing. |
| `Store.CleanupsCommute` | lieksika_bot.py:200-209 | `feedback_cleanup` and `get_word_cleanup` (lines 343-350) touch disjoint keys, so their order does not matter. |
| `Updates.RejectEditUpdate` | lieksika_bot.py:82-96 | A decorated handler runs only for an update that carries a new message. Edits and button presses are ignored. |
| `Photos.GetRandomPhotoObject` | lieksika_bot.py:287-290 | An index in `[0, len(photo_file_ids))` yields the file id of a card in the pool. An empty pool has no such index. |
| `Photos.EveryCardCanBeDrawn` | lieksika_bot.py:287-290 | Every card in the pool is the result of some draw. |
| `UserInfo.UserInfoShape` | lieksika_bot.py:73-79 | Starts with the id line. Ends with the link line when the user has a username, and with the language-code line (None printed as "None") otherwise. |
| `UserInfo.IdRecoverable` | lieksika_bot.py:73-79 | Reading the number after "id: " on the first line back yields exactly the user's id. Its decimal text has only digits, so it holds no line break. |
| `UserInfo.UsernameRecoverable` | lieksika_bot.py:73-79 | Reading the last line back yields exactly the username, and nothing when there is none. So the link is appended iff a username exists. |
| `Routing.FeedbackConversation` | lieksika_bot.py:404-423 | `conversation_feedback` as data: the /feedback entry, the two state lists, the TIMEOUT list, the two fallbacks, and re-entry allowed. |
| `Routing.GetWordConversation` | lieksika_bot.py:425-440 | `conversation_get_word` as data: the /get entry, the two card buttons, the two TIMEOUT handlers, the command fallback, and re-entry allowed. |
| `Routing.FeedbackRouting` | lieksika_bot.py:404-423 | The feedback table picks: /feedback, new or edited, reaches `feedback_start` in every state; any other command in a running conversation cancels; other messages are the feedback (Receiving) or an unrecognised answer (Verification); Yes/No count only in Verification; nothing else is handled. |
| `Routing.GetWordRouting` | lieksika_bot.py:425-440 | The word table picks: /get, new or edited, always reaches `get`; any other command in a running conversation cancels; the two card buttons count while a card is shown; other updates are ignored. |
| `Routing.CommandNeverTakenAsFeedback` | lieksika_bot.py:405-420 | A command never reaches `feedback_received` or `feedback_input_not_recognized`. /feedback, new or edited, reaches `feedback_start`. In a running conversation any other command reaches `feedback_canceled`. |
| `Routing.CommandEndsGetWord` | lieksika_bot.py:426-437 | /get, new or edited, reaches `get` in every state. Any other command in a running word conversation reaches `get_word_canceled`. |
| `Routing.ButtonsOnlyInTheirState` | lieksika_bot.py:411-414 | The Yes/No buttons (lines 411-412) are handled only in Verification, and the card buttons (`conversation_get_word`, lines 428-431) only while a card is shown. |
| `Routing.FeedbackTimeoutHandlers` | lieksika_bot.py:415 | `feedback_timeout` runs when the timer fires exactly when the update the timer holds is a message. |
| `Routing.GetWordTimeoutHandlers` | lieksika_bot.py:432-435 | `get_word_timeout` runs exactly once when the timer fires, whatever update the timer holds. |
| `Dispatch.InitiallyConsistent` | lieksika_bot.py:27 | An empty store with no conversations and no timers satisfies the per-chat invariant. |
| `Dispatch.AtMostOneControl` | lieksika_bot.py:29-31 | Under the invariant a chat never stores both a Yes/No prompt and a word card. |
| `Dispatch.FeedbackStepLocal` | lieksika_bot.py:404-423 | Under the invariant no handler group 2 selects raises. Only the update's chat and its feedback entry change, and browsing is untouched. A new /feedback puts the conversation in Receiving. An edited one changes nothing but the feedback timer, which now holds it. Any other command ends the conversation. |
| `Dispatch.FeedbackStepTracksChat` | lieksika_bot.py:165-275 | After group 2 the update's chat keeps feedback keys that match the feedback state and a card key that matches browsing. It is in both conversations only after a new /feedback. |
| `Dispatch.FeedbackStepKeepsTracking` | lieksika_bot.py:404-423 | After group 2 every chat stays tracked. Every other chat stays exclusive, and so does the update's chat except after a new /feedback. |
| `Dispatch.GetWordStepLocal` | lieksika_bot.py:425-440 | No handler group 3 selects raises. Only the update's chat and its browsing entry change, and the feedback conversation is untouched. A new /get leaves a card shown. An edited one changes nothing but the word timer. Any other command ends browsing. |
| `Dispatch.GetWordStepKeepsTracking` | lieksika_bot.py:425-440 | On what group 2 leaves, group 3 restores the full invariant, exclusivity included. |
| `Dispatch.UpdateStepKeepsConsistent` | lieksika_bot.py:454-456 | One whole update keeps every chat consistent and changes only its own chat's record, states and timers. |
| `Dispatch.MessageAsksForConfirmation` | lieksika_bot.py:181-197 | In Receiving, a new non-command message produces exactly one Yes/No question replying to it. Its id becomes the prompt and the message becomes the pending feedback. The conversation moves to Verification and browsing is untouched. |
| `Dispatch.YesRelaysFeedback` | lieksika_bot.py:212-233 | Yes in Verification sends, in order: notice, forward to the contact chat, thanks, forward back, answer, and the strip of the prompt. Both feedback keys are cleared and the conversation and its timer end. |
| `Dispatch.NoCancelsFeedback` | lieksika_bot.py:236-245 | No in Verification sends, in order: the answer, the strip of the prompt, and one "interrupted" message. Both feedback keys are cleared and the conversation and its timer end. |
| `Dispatch.SendNextReplacesCard` | lieksika_bot.py:353-360 | "Send next" while a card is shown strips the old card, sends the drawn card, stores its id and answers the press. Browsing continues, with the timer holding the press. |
| `Dispatch.FeedbackWhileBrowsing` | lieksika_bot.py:454-456 | A new /feedback while a card is shown sends group 2's instructions first and then group 3's strip of the card. Only the card key changes, and only the feedback conversation remains. |
| `Dispatch.GetWhileConfirming` | lieksika_bot.py:454-456 | A new /get while the Yes/No question is open sends, in order: the strip of the question, the "interrupted" message, then the card. The record ends holding only the card, and only browsing remains. |
| `Dispatch.FeedbackGroup` | lieksika_bot.py:404-423 | Bot state and conversations end exactly as `FeedbackStep` gives them: the selected handler's effect, then the feedback machine advanced by its reply. No handler raises. The invariant holds except at the update's chat, which can be in both conversations only after a new /feedback. An edited /feedback re-arms only the timer. Any other command ends the conversation. |
| `Dispatch.GetWordGroup` | lieksika_bot.py:425-440 | Bot state and conversations end exactly as `GetWordStep` gives them. No handler raises and the full invariant is restored after group 2. A new /get leaves a card shown. An edited one changes nothing but the word timer. Any other command ends browsing. |
| `Dispatch.HandleUpdate` | lieksika_bot.py:454-456 | Bot state and conversations end exactly as `UpdateStep` gives them, so the outbox is the old one plus group 2's calls, then group 3's. It keeps the invariant, raises nothing and changes only its own chat. A new /feedback clears the card and ends browsing. A new /get clears both feedback keys and ends the feedback. An edited /feedback or /get keeps its own conversation's state, re-arms that conversation's timer, and ends the other conversation. Any other command ends both. |
| `Dispatch.FeedbackTimesOut` | lieksika_bot.py:415-422 | When a feedback timer fires, one timeout message goes out, both feedback keys are cleared, the conversation and the timer end, and the invariant is kept. It raises KeyError exactly when the chat has no record, which only a timer without a conversation allows. |
| `Dispatch.GetWordTimesOut` | lieksika_bot.py:432-439 | When a word timer fires, the card is stripped and cleared silently, the conversation and the timer end, and the invariant is kept. It raises KeyError exactly when the chat has no record, which only a timer without a conversation allows. |

## Left out

- Startup, environment checks, and webhook or polling selection (lieksika_bot.py:380-401 and 458-466; main.py): configuration and I/O. main.py imports a `LieksikaBot` class that lieksika_bot.py does not define; main.py is not part of this model.
- `error_handler` (lieksika_bot.py:50-70): it writes a file and sends it. The model records only that a handler raised KeyError.
- `about`, `start`, `help`, `unknown_command`, `dad_joke`, `ignore_update` and the group-1 registrations (lieksika_bot.py:99-160, 281-282, 442-452): static text and an HTTP call. They do not touch `conversation_context`. Texts are modelled only as opaque constants.
- Loading `photo_file_ids` from JSON (lieksika_bot.py:37-41): file I/O. The pool is a constructor parameter, required to be non-empty.
- `Photos.GetRandomPhotoObject`: numpy's draw is a caller-supplied index, so uniformity is not modelled.
- The 20-minute length of the timer (lieksika_bot.py:422, 439) is not modelled. A timer firing is an operation that may be invoked on any chat that has a pending timer.
- FeedbackTimesOut: models `feedback_timeout` with the calling convention its declaration `(bot, update)` expects. The model passes it the user of the update the timer holds. The repository does not pin a python-telegram-bot version. Release 13 with `use_context=True` (lieksika_bot.py:401) calls TIMEOUT handlers as `(update, context)`. Under that release, line 249 reads `effective_user` from the CallbackContext and raises AttributeError before anything is sent. The exception also skips the framework's ending of the conversation. That behaviour is not modelled.
- GetWordTimesOut: the same holds for `get_word_timeout` (lieksika_bot.py:363-364). Under the `(update, context)` convention the card would not be stripped and browsing would not end.
- Failures of transport calls are not modelled: every call is assumed to succeed. In `feedback_cleanup` the pending id is deleted (line 202) before the prompt is stripped (line 204). A failed strip would therefore leave a Verification conversation with a prompt but no pending id, and the next Yes press would raise KeyError at line 221. In `get_word_cleanup` a failed strip leaves the card key in place.
- Ids of forwarded copies are not tracked. Only ids of messages the bot sends are issued, from a counter.
- Concurrency: updates and timeouts are processed one at a time.
- Group chats: the model assumes chat id equals user id.
- src/utils.py (image cropping and upload) and src/sender.py (rate-limited queue): file, network and thread I/O; they are not part of this model.
