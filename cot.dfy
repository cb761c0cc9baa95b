/**
 * The chain-of-thought message builder (reasoning/cot.py): the constant system
 * prompt, then the bare context.
 */
module Cot {
  import opened JsonData
  import opened Prompts

  const SystemPrompt: string :=
    "\n"
    + "You are a Chain-of-Thought planner.\n"
    + "Think step by step (prefix each with \"Thought:\") about which actions agents should take.\n"
    + "End with FINAL_JSON matching schema.\n"

  /** `build_messages(context_json, scratchpad=None)`: nothing follows the context. */
  function BuildMessages(dumps: Json -> string, context: Json, scratchpad: Json := JNull): (r: seq<Message>)
    ensures IsPlanningPrompt(r, SystemPrompt, dumps(context), "")
    ensures r[1].content == ContextHeader + dumps(context)
  {
    PlanningPrompt(SystemPrompt, dumps(context), "")
  }

  lemma ScratchpadIgnored(dumps: Json -> string, context: Json, s1: Json, s2: Json)
    ensures BuildMessages(dumps, context, s1) == BuildMessages(dumps, context, s2)
  {
  }
}
