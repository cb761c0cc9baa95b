/**
 * The plan-and-execute message builder (reasoning/plan_execute.py): the
 * constant system prompt, then the context and the request for a plan.
 */
module PlanExecute {
  import opened JsonData
  import opened Prompts

  const SystemPrompt: string :=
    "\n"
    + "You are a disaster response planner using Plan-and-Execute.\n"
    + "First, write a PLAN: a short ordered list of intended steps in natural language.\n"
    + "Then, immediately produce FINAL_JSON: <Action JSON> that enacts the first step(s).\n"
    + "Schema reminder:\n"
    + "{ \"commands\":[ {\"agent_id\":\"<id>\", \"type\":\"move\"|\"act\",\n"
    + "  \"to\":[x,y] (if move),\n"
    + "  \"action_name\":\"pickup_survivor\"|\"drop_at_hospital\"|\"extinguish_fire\"|\"clear_rubble\"|\"recharge\"|\"resupply\"} ] }\n"
    + "No extra text after FINAL_JSON line.\n"

  const Tail: string := "\n\nOutput PLAN then FINAL_JSON."

  /** `build_messages(context_json, scratchpad=None)`. */
  function BuildMessages(dumps: Json -> string, context: Json, scratchpad: Json := JNull): (r: seq<Message>)
    ensures IsPlanningPrompt(r, SystemPrompt, dumps(context), Tail)
  {
    PlanningPrompt(SystemPrompt, dumps(context), Tail)
  }

  lemma ScratchpadIgnored(dumps: Json -> string, context: Json, s1: Json, s2: Json)
    ensures BuildMessages(dumps, context, s1) == BuildMessages(dumps, context, s2)
  {
  }
}
