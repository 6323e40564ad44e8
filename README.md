# Thread-conversation store of a Discord chat bot

This project models the stateful core of a Discord bot that answers `/ask`
questions through a chat-completion API and keeps one conversation per
Discord thread. The bot holds a module-level map `THREAD_CONTEXT` from thread id to
that thread's ordered list of `{role, content}` messages. Four handlers change it:

- `/ask` opens a thread.
- A follow-up message in a thread continues it.
- Thread removal and thread deletion forget it.

Modules:

- `Conversation` (conversation.dfy): messages, the seed history built by
  `build_history`, and the shape every stored history keeps. That shape is
  one system message first, then user and assistant turns alternating,
  odd length, ending with an answer.
- `Handlers` (handlers.dfy): each handler as a pure step on the store. A
  step takes the store, the event and the completion's outcome. It returns the
  history sent to the completion (`None` when the completion is not
  called) and the new store. The module proves that each step preserves
  the store invariant, and that the invariant holds after any sequence of
  events from the empty store.
- `Bot` (bot.dfy): class `ThreadContext` with the field `context`. It has
  one method per handler. Each method updates the map in place the way the
  Python code does: append, then pop on failure. Each method's `ensures`
  ties the new `context` to the step function in `Handlers`.

The completion call (`generate_reply`) is an input. It is
`Success(text)` or `Failure` (any exception). The Discord side is reduced to
flags: whether the interaction has a guild, whether the channel is a text
channel or a thread, and whether the author is this bot or any bot. Thread
ids come from the platform as parameters.

The `/ask` handler assigns `THREAD_CONTEXT[thread.id]`. If that key already
had an entry, the entry is replaced, and the model does the same. The platform
hands out a fresh id for every new thread, so a failed `/ask` leaves no entry
for its thread (`AskFailureLeavesNoEntry`).

## Model

| member | source | states |
|---|---|---|
| `Conversation.BuildHistory` | bot.py:30-37 | exactly two messages: the fixed persona system message (`SystemPrompt`, bot.py:21-24), then a user turn `label + " asked:\n" + prompt`; the result awaits a reply |
| `Conversation.AnswerSettles` | bot.py:93-94 | appending the assistant reply to a history awaiting one gives a settled history ending in an assistant turn |
| `Conversation.QuestionAwaits` | bot.py:119-124 | appending a user turn to a settled history gives one awaiting a reply, which is not settled |
| `Conversation.PopUndoesAppend` | bot.py:134 | popping the last element after an append gives back the original history |
| `Conversation.SettledTurnsBalanced` | bot.py:82-137 | a settled history has exactly one system message and as many assistant turns as user turns, so no user turn is left unanswered |
| `Handlers.ThreadName` | bot.py:74-76 | the thread name is `display_name + "'s question"` cut to its first min(length, 100) characters |
| `Handlers.AskStep` | bot.py:60-94 | outside a guild text channel (`CanHostThread`, bot.py:62): no completion call and the store unchanged; otherwise the seed history is sent; on failure the store is unchanged; on success the new thread maps to exactly [system, user, assistant(reply)]; no other key changes |
| `Handlers.OnMessageStep` | bot.py:106-137 | the completion is called iff the filters of bot.py:107-116 pass (`Resumes`: the author is not the bot, the channel is a thread with an entry, the author is not a bot), and then with the old history plus the user turn `label + " said:\n" + content`; ignored or failed: store unchanged; success: the entry is the old history plus that user turn and the assistant reply (length + 2); keys and other entries unchanged |
| `Handlers.ThreadClosed` | bot.py:141-148 | the thread has no entry afterwards whether or not it had one; the other entries are unchanged |
| `Handlers.AskPreservesValid` | bot.py:82-94 | `/ask` keeps every stored history settled |
| `Handlers.OnMessagePreservesValid` | bot.py:115-137 | a follow-up keeps every stored history settled, on success and on failure |
| `Handlers.ThreadClosedPreservesValid` | bot.py:141-148 | closing a thread keeps every stored history settled |
| `Handlers.AskFailureLeavesNoEntry` | bot.py:83-91 | a failed `/ask` into a thread without an entry leaves it without one |
| `Handlers.PendingTurnUnsettles` | bot.py:119-134 | while the completion is outstanding, or if the failure notice raises before the pop, the thread's history ends in an unanswered user turn and the store is not valid |
| `Handlers.FollowUpFailureKeepsEntry` | bot.py:126-135 | a failed follow-up keeps the thread's entry, equal to its value before the message |
| `Handlers.RunPreservesValid` | bot.py:27-148 | after any sequence of handled events starting from a valid store, every stored history is settled |
| `Handlers.ReachableHistoriesBalanced` | bot.py:27-148 | in every store reachable from the empty one, each history has one system message and equally many user and assistant turns |
| `Handlers.AskScenario` | bot.py:82-94 | `/ask "What is 2+2?"` answered "4" stores three messages, the last being the assistant's "4" |
| `Handlers.FollowUpFailureScenario` | bot.py:119-135 | a failed follow-up on a three-message history leaves it at three messages |
| `Bot.ThreadContext.constructor` | bot.py:27 | the store starts empty and valid |
| `Bot.ThreadContext.Ask` | bot.py:60-102 | returns the thread name (None when rejected) and the history sent; the new `context` is `AskStep`'s store; validity is preserved and the new thread's entry has as many assistant turns as user turns |
| `Bot.ThreadContext.OnMessage` | bot.py:105-138 | appends the user turn in place, pops it on failure, appends the reply on success; the new `context` and the history sent are `OnMessageStep`'s; the thread's entry keeps as many assistant turns as user turns |
| `Bot.ThreadContext.OnThreadRemove` | bot.py:141-143 | the new `context` is the old one without the thread |
| `Bot.ThreadContext.OnThreadDelete` | bot.py:146-148 | the new `context` is the old one without the thread |
| `Bot.AskFollowUpClose` | bot.py:60-148 | answer "4" gives a three-message entry; a failed follow-up leaves the store as it was; deleting the thread empties the store |

## Left out

- `services/openai_client.py` is not part of this model. Its result appears only as the `Completion` input. The model leaves out the client set-up, the worker-thread dispatch, exception translation, whitespace trimming of the reply, the model name and the `temperature` float.
- Discord I/O is not modelled: command sync, `on_ready` logging, `defer`, `followup.send`, `thread.send`, the typing indicator, `create_thread` and `process_commands` (bot.py:47-56, 69-73, 77-80, 96-102, 110, 127, 131-133, 138). The model takes every one of these calls to succeed. The user-visible texts and the ephemeral notices are not modelled.
- Handlers.OnMessageStep: proved only for runs where every Discord call succeeds. In bot.py the failure notice at bot.py:131 is sent before the `pop()` at bot.py:134. If that send raises, the pop is skipped, the exception leaves the handler, and the stored history keeps the unanswered user turn (`PendingTurnUnsettles` shows that this store is not valid). If the typing indicator at bot.py:127 raises, the completion is not called, yet the step reports a request.
- Handlers.AskStep: proved only for runs where every Discord call succeeds. If `defer`, `followup.send` or `create_thread` (bot.py:69-80) raises, `/ask` stops before the completion is called, yet the step reports a request. The store is unchanged in that case, as the step says.
- Handlers.RunPreservesValid: holds only for runs where every Discord call succeeds, for the reason given under `Handlers.OnMessageStep`. `Handlers.ReachableHistoriesBalanced` depends on it and has the same limit.
- Concurrency is not modelled: each handler is one atomic step. The race is therefore out of reach. In it, two overlapping follow-ups on one thread both append before either completion returns, and the `pop()` at bot.py:134 can then remove the other message's turn.
- Logging, environment and configuration loading (`load_dotenv`, the `DISCORD_TOKEN` check in `main`) are not modelled.
- Strings are sequences of Unicode scalar values. For every string without lone surrogates (U+D800 to U+DFFF, which a Python `str` can hold and a Dafny `char` cannot), the 100-character cut matches Python's slicing by code point.
