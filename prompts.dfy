/**
 * Chat messages as the planning strategies build them: a list of
 * `{"role": ..., "content": ...}` records whose user message opens with the
 * context header and the serialised world state.
 */
module Prompts {
  import opened Wrappers

  datatype Role = System | User | Assistant

  datatype Message = Message(role: Role, content: string)

  /** The label every builder puts before the serialised context. */
  const ContextHeader: string := "CONTEXT_JSON:\n"

  /**
   * The serialised context inside a user text of the form header, context,
   * `tail`; `None` when the text has another shape.
   */
  function ContextText(user: string, tail: string): Option<string> {
    if |ContextHeader| + |tail| <= |user|
       && user[..|ContextHeader|] == ContextHeader
       && user[|user| - |tail|..] == tail
    then Some(user[|ContextHeader|..|user| - |tail|])
    else None
  }

  /** Reading back the context of a user text built from it gives that context. */
  lemma ContextRecovered(context: string, tail: string)
    ensures ContextText(ContextHeader + context + tail, tail) == Some(context)
  {
    var user := ContextHeader + context + tail;
    assert user[..|ContextHeader|] == ContextHeader;
    assert user[|user| - |tail|..] == tail;
    assert user[|ContextHeader|..|user| - |tail|] == context;
  }

  /** Only such a text gives back a context: `ContextText` is the exact inverse. */
  lemma ContextTextExact(user: string, context: string, tail: string)
    requires ContextText(user, tail) == Some(context)
    ensures user == ContextHeader + context + tail
  {
    assert user == user[..|ContextHeader|] + user[|ContextHeader|..|user| - |tail|] + user[|user| - |tail|..];
  }

  /**
   * The common shape of every builder's output: a system message with
   * `system`, then a user message made of the header, `context` and `tail`.
   */
  predicate IsPlanningPrompt(r: seq<Message>, system: string, context: string, tail: string) {
    && |r| == 2
    && r[0] == Message(System, system)
    && r[1].role == User
    && ContextText(r[1].content, tail) == Some(context)
  }

  /** The prompt shape pins the whole list down: two prompts of one shape are equal. */
  lemma PlanningPromptUnique(r1: seq<Message>, r2: seq<Message>, system: string, context: string, tail: string)
    requires IsPlanningPrompt(r1, system, context, tail) && IsPlanningPrompt(r2, system, context, tail)
    ensures r1 == r2
  {
    ContextTextExact(r1[1].content, context, tail);
    ContextTextExact(r2[1].content, context, tail);
  }

  /** The two-message list `[system, user]` with the user text built from `context` and `tail`. */
  function PlanningPrompt(system: string, context: string, tail: string): (r: seq<Message>)
    ensures IsPlanningPrompt(r, system, context, tail)
  {
    ContextRecovered(context, tail);
    [Message(System, system), Message(User, ContextHeader + context + tail)]
  }
}
