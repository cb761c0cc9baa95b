/**
 * The tree-of-thought message builder (reasoning/tot.py): the constant system
 * prompt, then the context and the request to explore branches.
 */
module Tot {
  import opened JsonData
  import opened Prompts

  const SystemPrompt: string :=
    "\n"
    + "You are a Tree-of-Thought (ToT) disaster planner.\n"
    + "Explore multiple reasoning branches (prefix with \"Thought A:\", \"Thought B:\", etc).\n"
    + "Then select the best branch and output FINAL_JSON strictly following schema.\n"

  const Tail: string := "\n\nExplore branches, then decide."

  /** `build_messages(context_json, scratchpad=None)`. */
  function BuildMessages(dumps: Json -> string, context: Json, scratchpad: Json := JNull): (r: seq<Message>)
    ensures IsPlanningPrompt(r, SystemPrompt, dumps(context), Tail)
  {
    PlanningPrompt(SystemPrompt, dumps(context), Tail)
  }

  lemma ScratchpadIgnored(dumps: Json -> string, context: Json, s1: Json, s2: Json)
    ensures BuildMessages(dumps, context, s1) == BuildMessages(dumps, context, s2)
  {
  }
}
