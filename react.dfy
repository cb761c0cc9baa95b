/**
 * The ReAct message builder (reasoning/react.py): the constant system prompt,
 * then the context followed by the allowed-actions line and a one-shot
 * example of a final answer.
 */
module React {
  import opened Wrappers
  import opened JsonData
  import opened JsonWrite
  import opened ActionValidation
  import opened CommandText
  import opened Prompts

  const SystemPrompt: string :=
    "\n"
    + "You are an autonomous disaster response planner.\n"
    + "You must output final actions strictly as JSON following this schema:\n"
    + "{ \"commands\":[ {\"agent_id\":\"<id>\", \"type\":\"move\"|\"act\",\n"
    + "  \"to\":[x,y] (if type=move),\n"
    + "  \"action_name\":\"pickup_survivor\"|\"drop_at_hospital\"|\"extinguish_fire\"|\"clear_rubble\"|\"recharge\"|\"resupply\"} ] }\n"
    + "\n"
    + "Rules:\n"
    + "- You may write internal reasoning in lines prefixed with \"Thought:\".\n"
    + "- Your final line MUST be: FINAL_JSON: <the json object>.\n"
    + "- Limit reasoning to <= 3 steps.\n"
    + "- Use only agent IDs and entities present in CONTEXT_JSON.\n"
    + "- If unsure, return {\"commands\": []}.\n"

  const AllowedActions: string := "\n\nAllowed actions: move, act. Follow schema exactly."

  /** The object shown in the demonstration. */
  const ExampleJson: string :=
    "{\"commands\":[" + "{\"agent_id\":\"2\"," + "\"type\":\"act\"," + "\"action_name\":\"pickup_survivor\"}" + "]}"

  /** The thought line and the `FINAL_JSON: ` label before the object. */
  const ExamplePrefix: string := "Thought: Medic 2 is" + " at same tile as survivor.\n" + "FINAL_JSON: "

  /** The demonstrated reply: one thought line, then the final line. */
  const ExampleReply: string := ExamplePrefix + ExampleJson + "\n"

  const Example: string := "\n\nExample:\n" + ExampleReply

  /** What follows the serialised context in the user message. */
  const Tail: string := AllowedActions + Example

  /** `build_messages(context_json, scratchpad=None)`; `dumps` stands for `json.dumps`. */
  function BuildMessages(dumps: Json -> string, context: Json, scratchpad: Json := JNull): (r: seq<Message>)
    ensures IsPlanningPrompt(r, SystemPrompt, dumps(context), Tail)
  {
    PlanningPrompt(SystemPrompt, dumps(context), Tail)
  }

  /** The scratchpad is accepted and ignored. */
  lemma ScratchpadIgnored(dumps: Json -> string, context: Json, s1: Json, s2: Json)
    ensures BuildMessages(dumps, context, s1) == BuildMessages(dumps, context, s2)
  {
  }

  /** The command the demonstration shows: medic 2 picks up the survivor on its tile. */
  const ExampleCommand: Command := Command("2", Act, None, Some("pickup_survivor"))

  /** The demonstrated reply passes `validate_action_json` as a batch of that one command. */
  lemma ExampleAccepted()
    ensures ValidateActionJson(ExampleReply) == Ok(BatchJson([ExampleCommand]))
  {
    ExampleJsonWritten();
    ExampleCommandPlain();
    ExamplePrefixOpen();
    BatchAccepted(ExamplePrefix, [ExampleCommand], "\n");
  }

  lemma ExampleJsonWritten()
    ensures ExampleJson == Write(BatchDoc([ExampleCommand]))
  {
    ExampleCommandWritten();
    BatchOfOne(ExampleCommand);
  }

  lemma ExampleCommandWritten()
    ensures Write(CommandDoc(ExampleCommand)) ==
      "{\"agent_id\":\"2\"," + "\"type\":\"act\"," + "\"action_name\":\"pickup_survivor\"}"
  {
    var m1 := "\"agent_id\":\"2\"";
    var m2 := "\"type\":\"act\"";
    var m3 := "\"action_name\":\"pickup_survivor\"";
    ExampleMembersWritten();
    ObjectOfThreeText(m1, m2, m3);
    assert "{" + m1 + "," == "{\"agent_id\":\"2\",";
    assert m2 + "," == "\"type\":\"act\",";
    assert m3 + "}" == "\"action_name\":\"pickup_survivor\"}";
  }

  lemma ExampleMembersWritten()
    ensures WriteMembers(CommandMembers(ExampleCommand)) ==
      "\"agent_id\":\"2\"" + "," + ("\"type\":\"act\"" + "," + "\"action_name\":\"pickup_survivor\"")
  {
    var a, b, c := ("agent_id", DStr("2")), ("type", DStr("act")), ("action_name", DStr("pickup_survivor"));
    assert CommandMembers(ExampleCommand) == [a, b, c];
    WriteMembersOfThree(a, b, c);
    IdMemberText();
    TypeMemberText();
    ActionMemberText();
  }

  lemma IdMemberText()
    ensures WriteMember(("agent_id", DStr("2"))) == "\"agent_id\":\"2\""
  {
  }

  lemma TypeMemberText()
    ensures WriteMember(("type", DStr("act"))) == "\"type\":\"act\""
  {
  }

  lemma ActionMemberText()
    ensures WriteMember(("action_name", DStr("pickup_survivor"))) == "\"action_name\":\"pickup_survivor\""
  {
  }

  lemma ExampleCommandPlain()
    ensures PlainCommand(ExampleCommand)
  {
    assert PlainText("2") by { assert "2"[0] == '2'; }
    forall k | 0 <= k < |"pickup_survivor"|
      ensures PlainChar("pickup_survivor"[k])
    {
      assert "pickup_survivor"[k] in "abcdefghijklmnopqrstuvwxyz_";
    }
  }

  lemma ExamplePrefixOpen()
    ensures '{' !in ExamplePrefix
  {
    LineOpen("Thought: Medic 2 is", " at same tile as survivor.\n");
    LineOpen("Thought: Medic 2 is" + " at same tile as survivor.\n", "FINAL_JSON: ");
  }

  lemma LineOpen(a: string, b: string)
    requires '{' !in a && '{' !in b
    ensures '{' !in a + b
  {
  }
}
