/** The bot's module-level THREAD_CONTEXT and the handlers that change it,
    as a class whose methods update the map field in place. */
module Bot {
  import opened Conversation
  import opened Handlers

  class ThreadContext {
    /** Thread id to that thread's history. */
    var context: Store

    ghost predicate Valid()
      reads this
    {
      StoreValid(context)
    }

    /** The bot starts with no thread contexts. */
    constructor ()
      ensures Valid() && context == map[]
    {
      context := map[];
    }

    /** `/ask`: returns the name of the thread it opens and the history it
        sends to the completion (both None when rejected); `reply` is what
        the completion returned. */
    method Ask(ctx: AskContext, thread: ThreadId, displayName: string, prompt: string,
               reply: Completion)
      returns (threadName: Option<string>, request: Option<History>)
      requires Valid()
      modifies this
      ensures Valid()
      ensures threadName == (if CanHostThread(ctx) then Some(ThreadName(displayName)) else None)
      ensures var s := AskStep(old(context), ctx, thread, displayName, prompt, reply);
        request == s.request && context == s.after
      ensures thread in context ==>
        CountRole(context[thread], User) == CountRole(context[thread], Assistant)
    {
      if thread in context {
        SettledTurnsBalanced(context[thread]);
      }
      if !ctx.inGuild || !ctx.inTextChannel {
        return None, None;
      }
      threadName := Some(ThreadName(displayName));
      var history := BuildHistory(prompt, displayName);
      request := Some(history);
      if reply.Failure? {
        return;
      }
      history := history + [Message(Assistant, reply.text)];
      AskPreservesValid(context, ctx, thread, displayName, prompt, reply);
      context := context[thread := history];
      SettledTurnsBalanced(history);
    }

    /** on_message: returns the history sent to the completion (None when
        the message is ignored). */
    method OnMessage(post: Post, reply: Completion) returns (request: Option<History>)
      requires Valid()
      modifies this
      ensures Valid()
      ensures var s := OnMessageStep(old(context), post, reply);
        request == s.request && context == s.after
      ensures post.channel in context ==>
        CountRole(context[post.channel], User) == CountRole(context[post.channel], Assistant)
    {
      if post.channel in context {
        SettledTurnsBalanced(context[post.channel]);
      }
      if post.fromSelf || !post.inThread {
        return None;
      }
      if post.channel !in context || post.authorIsBot {
        return None;
      }
      OnMessagePreservesValid(context, post, reply);
      var history := context[post.channel];
      history := history + [Message(User, Said(post.authorLabel, post.content))];
      context := context[post.channel := history];
      request := Some(history);
      if reply.Failure? {
        history := history[..|history| - 1];
        context := context[post.channel := history];
        return;
      }
      history := history + [Message(Assistant, reply.text)];
      context := context[post.channel := history];
      SettledTurnsBalanced(history);
    }

    /** on_thread_remove: drop the thread's entry if there is one. */
    method OnThreadRemove(thread: ThreadId)
      requires Valid()
      modifies this
      ensures Valid()
      ensures context == ThreadClosed(old(context), thread)
    {
      context := context - {thread};
    }

    /** on_thread_delete: drop the thread's entry if there is one. */
    method OnThreadDelete(thread: ThreadId)
      requires Valid()
      modifies this
      ensures Valid()
      ensures context == ThreadClosed(old(context), thread)
    {
      context := context - {thread};
    }
  }

  /** A question answered "4", then a follow-up whose completion fails,
      then the thread is deleted. */
  method AskFollowUpClose() returns (afterAsk: Store, afterFollowUp: Store, afterClose: Store)
    ensures 7 in afterAsk && |afterAsk[7]| == 3 && afterAsk[7][2] == Message(Assistant, "4")
    ensures afterFollowUp == afterAsk
    ensures afterClose == map[]
  {
    var bot := new ThreadContext();
    var name, request := bot.Ask(AskContext(true, true), 7, "ann", "What is 2+2?", Success("4"));
    afterAsk := bot.context;
    request := bot.OnMessage(Post(false, true, 7, false, "ann", "And 3+3?"), Failure);
    afterFollowUp := bot.context;
    bot.OnThreadDelete(7);
    afterClose := bot.context;
  }
}
