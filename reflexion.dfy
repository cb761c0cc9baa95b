/**
 * The Reflexion message builder (reasoning/reflexion.py): the constant system
 * prompt, then the context and, when the scratchpad is truthy, a scratchpad
 * section holding its serialisation.
 */
module Reflexion {
  import opened JsonData
  import opened Prompts

  const SystemPrompt: string :=
    "\n"
    + "You are a Reflexion-based disaster planner.\n"
    + "Use context and optional SCRATCHPAD (past errors, rules).\n"
    + "Always output FINAL_JSON matching schema.\n"
    + "If SCRATCHPAD mentions invalid JSON, fix that issue.\n"

  const ScratchpadHeader: string := "\n\nSCRATCHPAD:\n"

  /** What follows the context: the scratchpad section, or nothing for a falsy scratchpad. */
  function Tail(dumps: Json -> string, scratchpad: Json): string {
    if Truthy(scratchpad) then ScratchpadHeader + dumps(scratchpad) else ""
  }

  /** `build_messages(context_json, scratchpad=None)`. */
  function BuildMessages(dumps: Json -> string, context: Json, scratchpad: Json := JNull): (r: seq<Message>)
    ensures IsPlanningPrompt(r, SystemPrompt, dumps(context), Tail(dumps, scratchpad))
  {
    PlanningPrompt(SystemPrompt, dumps(context), Tail(dumps, scratchpad))
  }

  /** The user text is exactly the context part when the scratchpad is falsy, and has the section otherwise. */
  lemma SectionIffTruthy(dumps: Json -> string, context: Json, scratchpad: Json)
    ensures BuildMessages(dumps, context, scratchpad)[1].content == ContextHeader + dumps(context)
            <==> !Truthy(scratchpad)
    ensures BuildMessages(dumps, context, scratchpad)[1].content
            == ContextHeader + dumps(context) + ScratchpadHeader + dumps(scratchpad)
            <==> Truthy(scratchpad)
  {
    var base := ContextHeader + dumps(context);
    var content := BuildMessages(dumps, context, scratchpad)[1].content;
    ContextTextExact(content, dumps(context), Tail(dumps, scratchpad));
    if Truthy(scratchpad) {
      assert |content| > |base|;
    } else {
      assert content == base;
      assert |base + ScratchpadHeader + dumps(scratchpad)| > |base|;
    }
  }

  /** A falsy scratchpad (`None`, `""`, `[]`, `{}`, `0`, `False`) builds what no scratchpad builds. */
  lemma FalsyScratchpadIsNone(dumps: Json -> string, context: Json, scratchpad: Json)
    requires !Truthy(scratchpad)
    ensures BuildMessages(dumps, context, scratchpad) == BuildMessages(dumps, context)
  {
  }
}
