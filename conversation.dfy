/** Messages and thread histories: the `{role, content}` dictionaries of
    bot.py and the shape every stored history keeps. */
module Conversation {

  datatype Role = System | User | Assistant

  /** One turn of a conversation, as handed to the completion API. */
  datatype Message = Message(role: Role, content: string)

  /** The ordered prompt context of one thread. */
  type History = seq<Message>

  /** The fixed assistant persona sent as the first message of every thread. */
  const SystemPrompt: string :=
    "You are a helpful assistant living in a Discord server. "
    + "Respond concisely, keep a friendly tone, and cite code snippets when useful."

  function SystemMessage(): Message
  {
    Message(System, SystemPrompt)
  }

  /** Content of the opening user turn of a `/ask` thread. */
  function Asked(userLabel: string, prompt: string): string
  {
    userLabel + " asked:\n" + prompt
  }

  /** Content of a follow-up user turn posted inside a thread. */
  function Said(userLabel: string, content: string): string
  {
    userLabel + " said:\n" + content
  }

  /** The seed history of a new question: the persona, then the question. */
  function BuildHistory(prompt: string, userLabel: string): (h: History)
    ensures |h| == 2
    ensures h[0] == SystemMessage()
    ensures h[1].role == User && h[1].content == Asked(userLabel, prompt)
    ensures AwaitingReply(h)
  {
    [SystemMessage(), Message(User, Asked(userLabel, prompt))]
  }

  /** The system message comes first and only there; after it user and
      assistant turns alternate, starting with a user turn. */
  ghost predicate Alternates(h: History)
  {
    && |h| >= 1
    && h[0] == SystemMessage()
    && forall i :: 1 <= i < |h| ==> h[i].role == (if i % 2 == 1 then User else Assistant)
  }

  /** A history whose last user turn has not been answered yet: the state
      a history is in while the completion call is outstanding. */
  ghost predicate AwaitingReply(h: History)
  {
    Alternates(h) && |h| % 2 == 0
  }

  /** A history at rest in the store: at least one question and its answer,
      odd length, ending with an assistant turn. */
  ghost predicate Settled(h: History)
  {
    Alternates(h) && |h| % 2 == 1 && |h| >= 3
  }

  /** Answering a history that awaits its reply settles it. */
  lemma AnswerSettles(h: History, reply: string)
    requires AwaitingReply(h)
    ensures Settled(h + [Message(Assistant, reply)])
  {
  }

  /** Appending a user turn to a settled history makes it await a reply;
      until the reply or the rollback, that history is not settled. */
  lemma QuestionAwaits(h: History, content: string)
    requires Settled(h)
    ensures AwaitingReply(h + [Message(User, content)])
    ensures !Settled(h + [Message(User, content)])
  {
  }

  /** Dropping the last element undoes an append (the rollback of a
      failed follow-up). */
  lemma PopUndoesAppend(h: History, m: Message)
    ensures (h + [m])[..|h|] == h
  {
  }

  /** The number of messages of `h` with role `r`. */
  function CountRole(h: History, r: Role): nat
  {
    if h == [] then 0
    else CountRole(h[..|h| - 1], r) + (if h[|h| - 1].role == r then 1 else 0)
  }

  /** A settled history holds exactly one system message, and every user
      turn in it is answered: there are as many assistant turns as user turns. */
  lemma {:induction false} SettledTurnsBalanced(h: History)
    requires Settled(h)
    ensures CountRole(h, System) == 1
    ensures CountRole(h, User) == |h| / 2
    ensures CountRole(h, Assistant) == |h| / 2
  {
    var n := |h|;
    var lead := h[..n - 2];
    assert h[..n - 1][..n - 2] == lead;
    assert h[n - 2].role == User && h[n - 1].role == Assistant;
    if n == 3 {
      assert lead[..0] == [];
      assert lead[0].role == System;
      assert CountRole(lead, System) == 1;
      assert CountRole(lead, User) == 0 && CountRole(lead, Assistant) == 0;
    } else {
      assert Settled(lead) by {
        forall i | 1 <= i < |lead|
          ensures lead[i].role == (if i % 2 == 1 then User else Assistant)
        {
          assert lead[i] == h[i];
        }
      }
      SettledTurnsBalanced(lead);
    }
  }
}
