/** What each event handler of bot.py does to the thread store, as values:
    the store before, the event and the completion's outcome go in; the
    history handed to the completion (if any) and the store after come out.
    Each handler is one atomic step. */
module Handlers {
  import opened Conversation

  datatype Option<T> = None | Some(value: T)

  /** The platform-assigned id of a thread. */
  type ThreadId = int

  /** THREAD_CONTEXT: thread id to that thread's history. */
  type Store = map<ThreadId, History>

  /** What the completion call produced: reply text, or a raised error. */
  datatype Completion = Success(text: string) | Failure

  /** Where a `/ask` was invoked: whether the interaction has a guild, and
      whether its channel is a server text channel. */
  datatype AskContext = AskContext(inGuild: bool, inTextChannel: bool)

  /** A message event: whether its author is this bot's own user, whether
      its channel is a thread (and which), whether its author is any bot,
      the author's display name and the message text. */
  datatype Post = Post(fromSelf: bool, inThread: bool, channel: ThreadId,
                       authorIsBot: bool, authorLabel: string, content: string)

  /** The outcome of one handler: the history sent to the completion
      (None: the completion was not called) and the new store. */
  datatype Step = Step(request: Option<History>, after: Store)

  /** Every stored history is settled. */
  ghost predicate StoreValid(store: Store)
  {
    forall t :: t in store ==> Settled(store[t])
  }

  /** `/ask` can open a thread only from a server text channel. */
  predicate CanHostThread(ctx: AskContext)
  {
    ctx.inGuild && ctx.inTextChannel
  }

  /** Thread names are capped at 100 characters. */
  const MaxThreadName: nat := 100

  /** The name `/ask` gives the new thread: the asker's display name and
      "'s question", cut to the first 100 characters. */
  function ThreadName(displayName: string): (name: string)
    ensures var full := displayName + "'s question";
      && |name| == (if |full| <= MaxThreadName then |full| else MaxThreadName)
      && name == full[..|name|]
  {
    var full := displayName + "'s question";
    if |full| <= MaxThreadName then full else full[..MaxThreadName]
  }

  /** `/ask`: reject outside a server text channel; otherwise send the seed
      history to the completion, and only on success store it, answered,
      under the new thread's id. */
  function AskStep(store: Store, ctx: AskContext, thread: ThreadId,
                   displayName: string, prompt: string, reply: Completion): (s: Step)
    ensures s.request.Some? <==> CanHostThread(ctx)
    ensures s.request.Some? ==> s.request.value == BuildHistory(prompt, displayName)
    ensures !CanHostThread(ctx) || reply.Failure? ==> s.after == store
    ensures CanHostThread(ctx) && reply.Success? ==>
      && s.after.Keys == store.Keys + {thread}
      && s.after[thread] == [SystemMessage(), Message(User, Asked(displayName, prompt)),
                             Message(Assistant, reply.text)]
    ensures forall t :: t in store && t != thread ==> t in s.after && s.after[t] == store[t]
  {
    if !CanHostThread(ctx) then Step(None, store)
    else
      var history := BuildHistory(prompt, displayName);
      match reply
      case Failure => Step(Some(history), store)
      case Success(text) => Step(Some(history), store[thread := history + [Message(Assistant, text)]])
  }

  /** on_message goes on only for a human's message in a thread that has a
      stored history; everything else returns early. */
  predicate Resumes(store: Store, post: Post)
  {
    !post.fromSelf && post.inThread && post.channel in store && !post.authorIsBot
  }

  /** on_message: append the user turn to the thread's stored history, call
      the completion with it, then append the reply on success or pop the
      user turn again on failure. */
  function OnMessageStep(store: Store, post: Post, reply: Completion): (s: Step)
    ensures s.request.Some? <==> Resumes(store, post)
    ensures s.request.Some? ==>
      s.request.value == store[post.channel] + [Message(User, Said(post.authorLabel, post.content))]
    ensures !Resumes(store, post) || reply.Failure? ==> s.after == store
    ensures s.after.Keys == store.Keys
    ensures forall t :: t in store && t != post.channel ==> s.after[t] == store[t]
    ensures Resumes(store, post) && reply.Success? ==>
      var before, now := store[post.channel], s.after[post.channel];
      && |now| == |before| + 2
      && now[..|before|] == before
      && now[|before|] == Message(User, Said(post.authorLabel, post.content))
      && now[|before| + 1] == Message(Assistant, reply.text)
  {
    if !Resumes(store, post) then Step(None, store)
    else
      var history := store[post.channel] + [Message(User, Said(post.authorLabel, post.content))];
      match reply
      case Failure =>
        PopUndoesAppend(store[post.channel], history[|history| - 1]);
        Step(Some(history), store[post.channel := history[..|history| - 1]])
      case Success(text) =>
        Step(Some(history), store[post.channel := history + [Message(Assistant, text)]])
  }

  /** on_thread_remove and on_thread_delete: forget the thread, present or not. */
  function ThreadClosed(store: Store, thread: ThreadId): (r: Store)
    ensures thread !in r
    ensures r.Keys == store.Keys - {thread}
    ensures forall t :: t in r ==> r[t] == store[t]
  {
    store - {thread}
  }

  /** `/ask` stores only settled histories. */
  lemma AskPreservesValid(store: Store, ctx: AskContext, thread: ThreadId,
                          displayName: string, prompt: string, reply: Completion)
    requires StoreValid(store)
    ensures StoreValid(AskStep(store, ctx, thread, displayName, prompt, reply).after)
  {
    if CanHostThread(ctx) && reply.Success? {
      AnswerSettles(BuildHistory(prompt, displayName), reply.text);
    }
  }

  /** A follow-up leaves every history settled, answered or rolled back. */
  lemma OnMessagePreservesValid(store: Store, post: Post, reply: Completion)
    requires StoreValid(store)
    ensures StoreValid(OnMessageStep(store, post, reply).after)
  {
    if Resumes(store, post) {
      var content := Said(post.authorLabel, post.content);
      QuestionAwaits(store[post.channel], content);
      if reply.Success? {
        AnswerSettles(store[post.channel] + [Message(User, content)], reply.text);
      }
    }
  }

  /** Forgetting a thread keeps the other histories settled. */
  lemma ThreadClosedPreservesValid(store: Store, thread: ThreadId)
    requires StoreValid(store)
    ensures StoreValid(ThreadClosed(store, thread))
  {
  }

  /** A failed `/ask` into a fresh thread leaves no entry for it. */
  lemma AskFailureLeavesNoEntry(store: Store, ctx: AskContext, thread: ThreadId,
                                displayName: string, prompt: string)
    requires thread !in store
    ensures thread !in AskStep(store, ctx, thread, displayName, prompt, Failure).after
  {
  }

  /** A failed follow-up keeps the thread's entry, exactly as it was. */
  lemma FollowUpFailureKeepsEntry(store: Store, post: Post)
    requires Resumes(store, post)
    ensures post.channel in OnMessageStep(store, post, Failure).after
    ensures OnMessageStep(store, post, Failure).after[post.channel] == store[post.channel]
  {
  }

  /** The store on_message leaves while the completion is outstanding, and
      also if the failure notice raises before the pop: the thread's history
      then ends in an unanswered user turn and the store is no longer valid. */
  lemma PendingTurnUnsettles(store: Store, post: Post)
    requires StoreValid(store) && Resumes(store, post)
    ensures var pending := store[post.channel] + [Message(User, Said(post.authorLabel, post.content))];
      && AwaitingReply(pending)
      && !StoreValid(store[post.channel := pending])
  {
    var pending := store[post.channel] + [Message(User, Said(post.authorLabel, post.content))];
    QuestionAwaits(store[post.channel], Said(post.authorLabel, post.content));
    assert store[post.channel := pending][post.channel] == pending;
  }

  /** Every handler event, with the completion outcome it would meet. */
  datatype Event =
    | AskEvent(ctx: AskContext, thread: ThreadId, displayName: string, prompt: string, reply: Completion)
    | MessageEvent(post: Post, reply: Completion)
    | ThreadRemoveEvent(thread: ThreadId)
    | ThreadDeleteEvent(thread: ThreadId)

  function Apply(store: Store, e: Event): Store
  {
    match e
    case AskEvent(ctx, thread, name, prompt, reply) => AskStep(store, ctx, thread, name, prompt, reply).after
    case MessageEvent(post, reply) => OnMessageStep(store, post, reply).after
    case ThreadRemoveEvent(thread) => ThreadClosed(store, thread)
    case ThreadDeleteEvent(thread) => ThreadClosed(store, thread)
  }

  /** The store after handling `events` in order, starting from `store`. */
  function Run(store: Store, events: seq<Event>): Store
    decreases |events|
  {
    if events == [] then store
    else Apply(Run(store, events[..|events| - 1]), events[|events| - 1])
  }

  /** From a store whose histories are all settled, any sequence of handled
      events leaves every stored history settled. */
  lemma {:induction false} RunPreservesValid(store: Store, events: seq<Event>)
    requires StoreValid(store)
    ensures StoreValid(Run(store, events))
    decreases |events|
  {
    if events != [] {
      var prefix := events[..|events| - 1];
      RunPreservesValid(store, prefix);
      var mid := Run(store, prefix);
      match events[|events| - 1]
      case AskEvent(ctx, thread, name, prompt, reply) => AskPreservesValid(mid, ctx, thread, name, prompt, reply);
      case MessageEvent(post, reply) => OnMessagePreservesValid(mid, post, reply);
      case ThreadRemoveEvent(thread) => ThreadClosedPreservesValid(mid, thread);
      case ThreadDeleteEvent(thread) => ThreadClosedPreservesValid(mid, thread);
    }
  }

  /** In every store reachable from the empty one, each history holds one
      system message and as many assistant turns as user turns. */
  lemma ReachableHistoriesBalanced(events: seq<Event>, t: ThreadId)
    requires t in Run(map[], events)
    ensures var h := Run(map[], events)[t];
      CountRole(h, System) == 1 && CountRole(h, User) == CountRole(h, Assistant)
  {
    RunPreservesValid(map[], events);
    SettledTurnsBalanced(Run(map[], events)[t]);
  }

  /** `/ask "What is 2+2?"` answered "4" creates a three-message entry
      whose last message is the reply. */
  lemma AskScenario()
    ensures var s := AskStep(map[], AskContext(true, true), 7, "ann", "What is 2+2?", Success("4"));
      7 in s.after && |s.after[7]| == 3 && s.after[7][2] == Message(Assistant, "4")
  {
  }

  /** A failed follow-up on a three-message history leaves it at three. */
  lemma FollowUpFailureScenario(store: Store, post: Post)
    requires Resumes(store, post) && |store[post.channel]| == 3
    ensures |OnMessageStep(store, post, Failure).after[post.channel]| == 3
  {
  }
}
