# Crisis-simulator planning core in Dafny

This project models the action-planning and validation pipeline of the crisis simulator, and proves properties of that model. The pipeline has five stages:

- **Strategy dispatch.** A strategy tag (`react`, `reflexion`, `plan_execute`, `cot`, `tot`) picks a message builder.
- **Message builders.** The builder turns the serialised world state into a system/user message pair.
- **Provider gateway.** The messages go to a text-generation provider. The gateway retries with exponential backoff.
- **Validation.** The reply is cut down to the span from its first `{` to its last `}`. That span is decoded and checked against the closed command-batch schema `ACTION_SCHEMA`.
- **Orchestration.** An invalid reply is answered with one corrective re-prompt. If the second reply is also invalid, the result is the empty batch `{"commands": []}`.

Two pieces of self-contained logic are modelled as well:

- **Resource helpers.** Energy consumption with its dead-battery flip, and the inventory lookup by agent id (`tools/resources.py`).
- **Grid-size inference.** How the server works out the grid size from a map configuration (`server.py`).

## Modules

| file | module | models |
|---|---|---|
| `wrappers.dfy` | `Wrappers` | `Option` and `Result` |
| `json_data.dfy` | `JsonData` | Decoded JSON/YAML values; Python truthiness; jsonschema's "integer" |
| `json_decode.dfy` | `JsonDecode` | `json.loads` on text, as CPython's scanner reads it |
| `json_write.dfy` | `JsonWrite` | A compact JSON writer, with the round trip `Loads(Write(d)) == Some(ToJson(d))` |
| `action_validation.dfy` | `ActionValidation` | `ACTION_SCHEMA` and `validate_action_json` |
| `command_text.dfy` | `CommandText` | Command batches as written in replies, and the validator's verdict on such replies |
| `prompts.dfy` | `Prompts` | Chat messages and the shared `CONTEXT_JSON:` prompt shape |
| `react.dfy`, `cot.dfy`, `reflexion.dfy`, `plan_execute.dfy`, `tot.dfy` | `React`, `Cot`, `Reflexion`, `PlanExecute`, `Tot` | The five `build_messages` builders and their system prompts |
| `llm_client.dfy` | `LlmClient` | `call_llm`, its provider dispatch, `_call_mock` and the Gemini prompt flattening |
| `validated_actions.dfy` | `ValidatedActions` | `get_validated_actions` and `get_validated_actions_with_logging` |
| `planner.dfy` | `Planner` | `make_plan` and `make_plan_with_logging` |
| `resources.dfy` | `Resources` | `consume_energy` (a method on an `Agent` object) and `inventory_state` |
| `grid_size.dfy` | `GridSize` | `_iter_points_from_cfg` and `infer_grid_size` |

### What becomes a parameter

- **Backends.** The remote backends are an oracle `backend(request, n)`. It gives the reply to the `n`-th backend call of a planning run: either `Answer(text)` or `Fault(detail)`.
- **`call_llm` results.** A call of `call_llm` that starts at index `start` uses the indices `start`, `start + 1`, and so on. It returns three things:
  - the outcome;
  - the number of attempts;
  - the delays it would have slept.
- **The provider.** It is an explicit `Provider` argument, instead of an environment variable read at import time.
- **`json.dumps`.** It is an uninterpreted function `dumps: Json -> string` in the builders.

### Where the code and the design description disagree

The model follows the code in each case.

- **The non-network provider.** It is `_call_mock`, which always answers `FINAL_JSON: {"commands":[]}`. The code has no greedy nearest-target dispatch policy and no cap on the number of commands.
- **Provider failures.** They are not turned into an empty batch. An `LLMError` re-raised by `call_llm` propagates out of `get_validated_actions` and out of `make_plan`.
- **Inventory defaults.** A missing battery, energy, water or tools value is `None` in the inventory record, not "full".
- **The schema.** It does not tie `to` to `move` or `action_name` to `act`, and it does not restrict the action names.
- **Strategy selection.** It cannot work as the module stands: see "## Findings".

## Model

| member | source | states |
|---|---|---|
| ActionValidation.Find | reasoning/utils.py:53 | `str.find`: -1 exactly when the character is absent, otherwise the index of its first occurrence |
| ActionValidation.RFind | reasoning/utils.py:54 | `str.rfind`: -1 exactly when absent, otherwise the index of the last occurrence |
| ActionValidation.CandidateSpan | reasoning/utils.py:53-57 | Reference definition of the slice `s[s.find('{'):s.rfind('}')+1]`, empty when the last `}` comes before the first `{`; `SpanOfSurrounded` and `CloseOnlyBeforeOpenRejected` pin it down |
| ActionValidation.CommandConforms | reasoning/utils.py:15-30 | Reference definition of one command under `ACTION_SCHEMA`: an object with no keys beyond `agent_id`, `type`, `to` and `action_name`; a string `agent_id`; a `type` of `move` or `act`; a `to` of exactly two integers when present; a string `action_name` when present. `CommandText.CommandConformsAlways`, `ExtraKeyRejected`, `MissingAgentRejected` and `TargetLengthRejected` test it from both sides |
| ActionValidation.SchemaValid | reasoning/utils.py:10-35 | Reference definition of the whole schema: an object whose only key is `commands`, an array all of whose elements conform; `CommandText.BatchSchemaValid` and `ExtraKeyRejected` test it |
| ActionValidation.ValidateActionJson | reasoning/utils.py:38-67 | An accepted value satisfies `ACTION_SCHEMA`; it is what `json.loads` makes of the first-`{`-to-last-`}` span; "no JSON object" is raised exactly when the text has no `{` |
| ActionValidation.ValidateAccepts | reasoning/utils.py:53-67 | A reply is accepted if and only if it has a `{` and its span decodes to a schema-valid value, and the result is then that decoded value |
| ActionValidation.NonConformingRejected | reasoning/utils.py:62-65 | A span that decodes but breaks the schema raises the schema error |
| ActionValidation.SurroundingTextIgnored | reasoning/utils.py:53-57 | A prefix without `{` (`Thought:` lines, `FINAL_JSON: `) and a suffix without `}` leave the span and the verdict unchanged |
| ActionValidation.SpanOfSurrounded | reasoning/utils.py:53-57 | The span of such a surrounded object is exactly that object's text |
| ActionValidation.SameSpanSameVerdict | reasoning/utils.py:53-67 | Two replies with the same span get the same verdict |
| ActionValidation.MissingCloseBraceRejected | reasoning/utils.py:53-60 | A reply without `}` is rejected: as malformed JSON when it has a `{` (the `end == -1` guard never fires, the empty slice fails to decode), otherwise as "no JSON object" |
| ActionValidation.CloseOnlyBeforeOpenRejected | reasoning/utils.py:53-60 | When every `}` lies before the first `{`, the slice is empty and the reply is rejected as malformed |
| JsonWrite.LoadsWrite | reasoning/utils.py:58 | `json.loads` of compactly written JSON with escape-free strings gives back the written value (round trip through the decoder) |
| JsonDecode.Loads | reasoning/utils.py:58 | Reference definition of `json.loads`: one value with optional surrounding whitespace (space, tab, newline, carriage return), a leading byte-order mark refused, a repeated key keeping its last value; `JsonWrite.LoadsWrite` proves it reads back every compactly written value, and `CommandText.TrailingTextRejected` that trailing text is refused |
| CommandText.CommandConformsAlways | reasoning/utils.py:15-30 | Every command with a string id, a `move`/`act` type, an optional integer pair and an optional action name conforms to the item schema |
| CommandText.BatchSchemaValid | reasoning/utils.py:10-35 | Every such batch is schema-valid, the empty batch among them |
| CommandText.BatchRead | reasoning/utils.py:58 | A written batch decodes to the batch's own value |
| CommandText.WrittenReplyVerdict | reasoning/utils.py:53-67 | For a written object surrounded as above, the verdict is acceptance of its value when that value is schema-valid, and the schema error otherwise |
| CommandText.BatchAccepted | reasoning/utils.py:53-67 | A reply holding a written batch between such texts is accepted as exactly that batch |
| CommandText.TrailingTextRejected | reasoning/utils.py:58-60 | A written object followed by anything other than whitespace does not decode ("Extra data") |
| CommandText.TwoObjectsRejected | reasoning/utils.py:53-60 | A reply with two objects spans from the first `{` to the second object's `}`, does not decode, and is rejected |
| CommandText.EmptyBatchAccepted | reasoning/utils.py:53-67 | `{"commands":[]}`, bare or surrounded, is accepted as the empty batch |
| CommandText.ExtraKeyRejected | reasoning/utils.py:62-65 | A second top-level key next to `commands` is a schema error (`additionalProperties` is false, line 34) |
| CommandText.MissingAgentRejected | reasoning/utils.py:28 | A command object without `agent_id` is a schema error |
| CommandText.TargetLengthRejected | reasoning/utils.py:20-25 | A `to` that does not hold exactly two values is a schema error |
| Prompts.ContextRecovered | reasoning/react.py:20 | The serialised context can be read back, whole, from right after `CONTEXT_JSON:\n` |
| Prompts.ContextTextExact | reasoning/react.py:20 | Reading a context back is the exact inverse of building the user text: only header + context + tail gives it |
| Prompts.PlanningPromptUnique | reasoning/cot.py:12-15 | The shape (system prompt, context, tail) determines the message list completely |
| Prompts.PlanningPrompt | reasoning/cot.py:12-15 | The list is two messages: the system prompt, then the user text made of header, context and tail |
| React.BuildMessages | reasoning/react.py:19-32 | Two messages: `SYSTEM_PROMPT`, then a user text of `CONTEXT_JSON:\n`, the context, the allowed-actions line and the example |
| React.ScratchpadIgnored | reasoning/react.py:19-32 | The scratchpad has no effect on the output |
| React.ExampleAccepted | reasoning/react.py:24-28 | The reply shown in the example passes `validate_action_json` as one `act` command of agent `2` picking up a survivor |
| React.ExampleJsonWritten | reasoning/react.py:27 | The example object is the compact text of that one-command batch |
| Cot.BuildMessages | reasoning/cot.py:10-15 | Two messages: `SYSTEM_PROMPT`, then exactly `CONTEXT_JSON:\n` + context with nothing appended |
| Cot.ScratchpadIgnored | reasoning/cot.py:10-15 | The scratchpad has no effect on the output |
| Reflexion.BuildMessages | reasoning/reflexion.py:11-18 | Two messages: `SYSTEM_PROMPT`, then `CONTEXT_JSON:\n` + context followed by the scratchpad section for a truthy scratchpad |
| Reflexion.Tail | reasoning/reflexion.py:13-14 | Reference definition of the scratchpad section: `\n\nSCRATCHPAD:\n` + the serialised scratchpad when it is truthy, nothing otherwise; `SectionIffTruthy` states both directions |
| Reflexion.SectionIffTruthy | reasoning/reflexion.py:13-14 | The user text is the bare context part if and only if the scratchpad is falsy, and carries `\n\nSCRATCHPAD:\n` + its serialisation if and only if it is truthy |
| Reflexion.FalsyScratchpadIsNone | reasoning/reflexion.py:13 | A falsy scratchpad builds what no scratchpad builds |
| PlanExecute.BuildMessages | reasoning/plan_execute.py:15-20 | Two messages: `SYSTEM_PROMPT`, then `CONTEXT_JSON:\n` + context + `\n\nOutput PLAN then FINAL_JSON.` |
| PlanExecute.ScratchpadIgnored | reasoning/plan_execute.py:15-20 | The scratchpad has no effect on the output |
| Tot.BuildMessages | reasoning/tot.py:10-15 | Two messages: `SYSTEM_PROMPT`, then `CONTEXT_JSON:\n` + context + `\n\nExplore branches, then decide.` |
| Tot.ScratchpadIgnored | reasoning/tot.py:10-15 | The scratchpad has no effect on the output |
| LlmClient.SelectProvider | reasoning/llm_client.py:81-86 | `groq` selects Groq and `gemini` selects Gemini; every other name (`mock`, `ollama`, ...) selects the mock |
| LlmClient.ModelOr | reasoning/llm_client.py:21 | An absent or empty model name selects the backend's default |
| LlmClient.Upper | reasoning/llm_client.py:39 | Upper-casing keeps the length and maps each character |
| LlmClient.RenderTurns | reasoning/llm_client.py:39 | One rendered `ROLE: content` line per message, in order |
| LlmClient.FlattenPrompt | reasoning/llm_client.py:39 | Reference definition of the Gemini prompt: the `ROLE: content` lines joined by `\n`; `FlattenSingle` and `FlattenAppend` fix it message by message |
| LlmClient.JoinLinesAppend | reasoning/llm_client.py:39 | Joining with `\n` one more part appends a newline and that part |
| LlmClient.FlattenAppend | reasoning/llm_client.py:39 | Appending a message appends `\n` + its `ROLE: content` line to the Gemini prompt |
| LlmClient.FlattenSingle | reasoning/llm_client.py:39 | A single message flattens to its one line |
| LlmClient.RoleLabels | reasoning/llm_client.py:39 | The rendered roles are `SYSTEM`, `USER`, `ASSISTANT` |
| LlmClient.Dispatch | reasoning/llm_client.py:81-86 | The mock always answers its constant reply; a Groq or Gemini attempt fails if and only if its backend faults, and the failure is an `LLMError` with the backend's name and the fault's text |
| LlmClient.DispatchFaithful | reasoning/llm_client.py:25-30 | A backend's answer is returned unchanged |
| LlmClient.IsRetryOutcome | reasoning/llm_client.py:79-91 | Loop-free description of one `call_llm`: `None` for `retries <= 0`; otherwise every attempt but the last failed and was followed by its non-negative wait `backoff * 2^k`, and the last attempt answered, or was the `retries`-th and its error is re-raised, or failed with a negative wait, which `time.sleep` rejects |
| LlmClient.RetryFrom | reasoning/llm_client.py:79-91 | The loop from attempt `k` on makes between `k+1` and `retries` attempts, with one wait per failed attempt that is not the last; it never ends in `None`, and never in the sleep error when the backoff is non-negative |
| LlmClient.Retry | reasoning/llm_client.py:79-91 | The whole retry: not `None` when `retries > 0`, not the sleep error when the backoff is non-negative; `RetryMeetsOutcome` ties it to `IsRetryOutcome` |
| LlmClient.RetryFromMeetsOutcome | reasoning/llm_client.py:79-91 | The loop from any attempt on returns the first answer, records `backoff * 2^k` after each failure but the last, and re-raises the last failure |
| LlmClient.RetryMeetsOutcome | reasoning/llm_client.py:79-91 | The retry definition meets the loop-free description: at most `retries` attempts, `None` for `retries <= 0`, every attempt before the last failed |
| LlmClient.RetryOutcomeUnique | reasoning/llm_client.py:79-91 | That description admits exactly one outcome |
| LlmClient.DelaysNonDecreasing | reasoning/llm_client.py:88-89 | For a non-negative base the delays never decrease; each one doubles the previous |
| LlmClient.DelayNegativeIff | reasoning/llm_client.py:89 | The wait `backoff * 2^k` is negative if and only if the backoff is |
| LlmClient.NegativeBackoffRejected | reasoning/llm_client.py:87-89 | With a negative backoff, a first attempt that fails and is not the last ends the call with the `ValueError` of `time.sleep`, after one attempt and no wait |
| LlmClient.MockAnswersAtOnce | reasoning/llm_client.py:49-54 | With the mock there is one attempt, no wait, and the constant reply |
| LlmClient.FaultingBackendExhaustsRetries | reasoning/llm_client.py:28-30 | With a non-negative backoff, a Groq or Gemini backend that faults on every attempt is wrapped as `LLMError` each time, so all `retries` attempts are made with `retries - 1` waits, and the last fault is re-raised as "Groq call failed: ..." or "Gemini call failed: ..." |
| LlmClient.AlwaysFailingExhaustsRetries | reasoning/llm_client.py:87-91 | With a non-negative backoff, a backend failing every time is tried exactly `retries` times, with `retries - 1` waits, and its last error is re-raised |
| LlmClient.CallLlm | reasoning/llm_client.py:57-91 | The loop's outcome, attempt count and delays meet the loop-free description of the retry behaviour, including the `ValueError` of `time.sleep` for a negative wait, and equal `Retry`'s |
| ValidatedActions.Reprompt | reasoning/utils.py:87-95 | The re-prompt list is the original list with exactly one system message, the corrective text, appended |
| ValidatedActions.Fallback | reasoning/utils.py:96-104 | After an invalid first reply, the run makes two calls, and anything it returns is schema-valid |
| ValidatedActions.Orchestrate | reasoning/utils.py:70-104 | The result is schema-valid unless the provider raises; one or two `call_llm` calls; at most two attempts each |
| ValidatedActions.SecondCallOnlyAfterInvalid | reasoning/utils.py:78-100 | The provider is called a second time if and only if the first reply came back and failed validation |
| ValidatedActions.FirstValidIsFinal | reasoning/utils.py:81-82 | A valid first reply is the result, paired with its own text |
| ValidatedActions.ResultFromLastReply | reasoning/utils.py:116-144 | The returned text is the first reply after one call and the re-prompted reply after two; the returned actions are that reply's validated value, or the empty batch when that reply was the second and invalid |
| ValidatedActions.SecondValidIsFinal | reasoning/utils.py:135-140 | An invalid first reply followed by a valid re-prompted reply gives that reply's batch with its text, after two calls |
| ValidatedActions.BothInvalidFallBack | reasoning/utils.py:99-104 | Two invalid replies give `{"commands": []}` with the second reply's text |
| ValidatedActions.ProviderErrorsPropagate | reasoning/utils.py:78-97 | An error re-raised by either `call_llm` is the outcome: nothing catches it |
| ValidatedActions.MockReplyAccepted | reasoning/llm_client.py:49-54 | The mock's reply validates as `{"commands": []}` |
| ValidatedActions.MockPlansNothing | reasoning/utils.py:78-82 | With the mock, one call of one attempt yields the empty batch and the mock's text |
| ValidatedActions.GetValidatedActionsWithLogging | reasoning/utils.py:107-144 | The method's actions, text and attempt count are those of the orchestration; its actions are schema-valid |
| ValidatedActions.GetValidatedActions | reasoning/utils.py:70-104 | The method's actions or error and attempt count are those of the orchestration; its actions are schema-valid |
| Planner.SelectStrategy | reasoning/planner.py:28-40 | Each known tag selects its own strategy; any other tag selects ReAct |
| Planner.SelectTagOf | reasoning/planner.py:28-37 | Selecting by a strategy's tag gives that strategy back |
| Planner.SelectionInjective | reasoning/planner.py:28-37 | Distinct known tags select distinct strategies |
| Planner.BuildFor | reasoning/planner.py:28-40 | Reference definition of the builder each strategy calls, with the scratchpad passed on; `TagSelectsItsBuilder` ties each tag to it |
| Planner.PlanMessages | reasoning/planner.py:15-40 | Reference definition of the messages `make_plan` builds, with the defaults `strategy="react"` and `scratchpad=""`; `PlanMessagesShape`, `UnknownTagFallsBackToReact` and `DefaultScratchpadAddsNothing` state its properties |
| Planner.PlanMessagesShape | reasoning/planner.py:15-40 | Whatever the tag, the built list is a two-message planning prompt (system, then user) that carries the serialised context |
| Planner.TagSelectsItsBuilder | reasoning/planner.py:28-37 | Each of the five tags reaches its own module's `build_messages` (React, Reflexion, PlanExecute, Cot, Tot), with the scratchpad passed on unchanged |
| Planner.UnknownTagFallsBackToReact | reasoning/planner.py:38-40 | An unknown tag builds the ReAct messages and nothing is raised |
| Planner.DefaultScratchpadAddsNothing | reasoning/planner.py:15 | With the default scratchpad `""`, Reflexion adds no scratchpad section |
| Planner.MakePlan | reasoning/planner.py:15-44 | `make_plan` returns exactly what the validated call returns for the built messages, so its actions are schema-valid |
| Planner.MakePlanWithLogging | reasoning/planner.py:47-76 | It returns the actions, the very messages it built, and the last reply's text |
| Planner.MockPlansEmptyBatch | reasoning/planner.py:43-44 | With the mock, every strategy plans the empty batch in one attempt |
| Planner.FirstUnresolved | reasoning/planner.py:6-10 | Reports no failing import exactly when every imported name is defined; otherwise one import whose name is missing |
| Planner.ImportsAsWrittenFail | reasoning/planner.py:6-10 | The imports as written fail at `react_plan` |
| Planner.CorrectedImportsResolve | reasoning/planner.py:6-10 | Importing every strategy module's `build_messages` resolves, for all five strategies |
| Resources.EnergyAfter | tools/resources.py:17 | The new energy is the larger of 0 and old minus cost, with a missing energy read as 0 |
| Resources.EnergyNeverIncreases | tools/resources.py:17 | A non-negative cost never raises a non-negative energy |
| Resources.DepletedIff | tools/resources.py:17-19 | The energy becomes 0 if and only if the cost reaches what was left |
| Resources.ConsumptionComposes | tools/resources.py:17 | Two non-negative costs in a row act as their sum |
| Resources.StatusAfter | tools/resources.py:18-19 | The status becomes `dead_battery` when the new energy is 0, and otherwise stays as it was |
| Resources.ConsumeEnergy | tools/resources.py:15-19 | The agent's energy and status are updated as above, and all its other fields are unchanged |
| Resources.Agent.constructor | tools/resources.py:6-10 | A fresh agent has the given id and energy, and none of the other attributes the helpers read |
| Resources.DeadStaysDead | tools/resources.py:17-19 | A flat battery stays flat and dead under further non-negative costs |
| Resources.Record | tools/resources.py:4-11 | The record has exactly the six keys and the id as a string; `battery`, `water` and `tools` are the agent's values, or `None` when it lacks them; `energy` is the agent's integer or `None`; `carrying` is the agent's value or `False` |
| Resources.FirstMatch | tools/resources.py:2-3 | The index of the first agent with the id, or none exactly when no agent has it |
| Resources.Inventory | tools/resources.py:1-12 | Reference definition of `inventory_state`: the record of the first agent whose id matches, else the `agent_not_found` record; `NotFoundIff` and `LaterAgentsIgnored` state its properties, and `InventoryState` is proved equal to it |
| Resources.NotFoundIff | tools/resources.py:1-12 | `agent_not_found` comes back if and only if no agent has the id |
| Resources.LaterAgentsIgnored | tools/resources.py:2-5 | Agents after the first match do not affect the answer |
| Resources.InventoryState | tools/resources.py:1-12 | The search loop returns the record of the first match, or the error record; it changes nothing |
| GridSize.IntTextConverts | server.py:89 | `int(str(n)) == n`: the decimal text of every integer converts back to that integer |
| GridSize.ToInt | server.py:71 | Reference definition of Python's `int()` on a decoded value: booleans give 0 or 1, numbers are truncated toward zero, NaN raises `ValueError`, infinities raise `OverflowError`, decimal text converts, other text raises `ValueError`, and `None`, lists and mappings raise `TypeError`; `IntTextConverts` and `ToIntTruncates` state its properties |
| GridSize.ToIntTruncates | server.py:71 | `int()` of a fractional number cuts toward zero, dropping less than one |
| GridSize.TruncDivBounds | server.py:71 | Division rounding toward zero leaves a remainder smaller than the divisor, with the dividend's sign |
| GridSize.IntPair | server.py:89 | A pair converts if and only if both values convert; the first conversion error wins |
| GridSize.PointOf | server.py:75-82 | Reference definition of one entry's point: a 2-element list, or for a survivor a mapping whose `pos` is one; `NonPairSkipped` states that anything else yields nothing |
| GridSize.Entries | server.py:74 | Reference definition of iterating `value or []`: a falsy value is empty, a list gives its items, text gives its characters, a mapping gives its keys (no pairs), other values raise `TypeError` |
| GridSize.PointsOfAppend | server.py:73-82 | Entries are read in order: the points of a concatenation are the points of each part, in turn, and the first error stops everything |
| GridSize.NonPairSkipped | server.py:75-82 | An entry that is not a 2-element list, nor a survivor record holding one, yields nothing |
| GridSize.PointsAgree | server.py:67-82 | Only `depot`, the four location lists and `survivors_list` determine the points |
| GridSize.PointsFromCfg | server.py:67-82 | Reference definition of `_iter_points_from_cfg`: the depot, then `hospitals`, `rubble`, `initial_fires` and `buildings`, then `survivors_list`, with the first conversion error ending the run; `PointsAgree` and `PointsOfAppend` state its order |
| GridSize.MaxAlong | server.py:94-97 | The running maximum starts at -1 |
| GridSize.MaxAlongIsMaximum | server.py:94-97 | The running maximum bounds every coordinate and is attained by one, or is -1 |
| GridSize.MaxAlongStep | server.py:96-97 | One more point raises the maximum to its coordinate when that is larger |
| GridSize.GridMappingFirst | server.py:87-89 | A `grid` mapping with `w` and `h` decides the size; no other key matters |
| GridSize.IncompleteGridIgnored | server.py:87-88 | A `grid` value without both `w` and `h` is as good as absent |
| GridSize.WidthHeightNext | server.py:91-92 | Otherwise `width` and `height` decide the size; the point keys do not matter |
| GridSize.PointsDecideSize | server.py:94-101 | Otherwise the size is one more than the largest coordinates: every point lies inside and some point touches each far edge. When no x or no y is non-negative, the default is used |
| GridSize.GridSize | server.py:85-101 | Reference definition of `infer_grid_size`: the `grid` mapping first, then `width`/`height`, then one more than the largest coordinates, else the default; `GridMappingFirst`, `IncompleteGridIgnored`, `WidthHeightNext` and `PointsDecideSize` state each branch, and `InferGridSize` is proved equal to it |
| GridSize.InferGridSize | server.py:85-101 | The method's precedence branches and maximum loop compute the specified size or error |

## Left out

- Logging (`logger.warning`, `logger.error`, the `logger` argument) is left out. It has no effect on results.
- `time.sleep` is not performed. The delays are returned instead, and `backoff` is a real number. A negative delay ends the call with the `ValueError` that `time.sleep` raises (`SleepRejected`). The orchestration always passes the default backoff 2.0, so that outcome never reaches it.
- The Groq and Gemini wire calls, API keys and the `raw` response field are replaced by the oracle. The environment-variable reads are replaced by the explicit provider argument. The `.lower()` applied where `LLM_PROVIDER` is read (reasoning/llm_client.py:7) is part of that read: the argument is the already lower-cased name, so `GROQ` in the environment is the model's `Groq`.
- The oracle's `Answer(text)` always carries a string. `resp.choices[0].message.content` (reasoning/llm_client.py:26) can be `None` in the source. Then `None.find` fails inside `validate_action_json`, which raises it again as the "malformed json" `ValueError` (reasoning/utils.py:59-60), and that leads to the re-prompt. The model cannot express a `None` reply, so this path is not modelled.
- `json.dumps` is left uninterpreted in the builders. The compact writer in `JsonWrite` covers only the replies whose acceptance is proved, with integers and escape-free strings.
- The decoder's number values do not separate Python `int` from `float`. Numbers are exact decimals, and jsonschema's "integer" is any number without a fractional part. Decoder error messages are not modelled: the validator only sees one `ValueError`.
- The decoder rejects lone-surrogate `\u` escapes, which Python would accept. Dafny characters cannot hold surrogates.
- LlmClient.Upper: upper-cases ASCII letters only. Role names are ASCII.
- Resources: agent ids are compared through their `str()` text. The `str()` conversion of non-string ids is not modelled. Energies are integers, not floats. Only the attributes the two helpers read or write are fields of `Agent`.
- GridSize.ParseIntText: accepts an optional sign followed by ASCII digits. Python's `int()` also allows surrounding whitespace, `_` digit separators and non-ASCII digits; the model rejects these.
- GridSize: the configuration is a mapping with string keys. Configurations with non-string keys and top-level documents that are not mappings are not modelled. Tuples do not occur in decoded YAML, so lists stand for both.
- GridSize: iterating a mapping-valued section yields its keys, which are strings and never pairs. The model represents this as no entries.
- `load_cfg`, the GUI panels and the portrayal function in `server.py` are not modelled. They are file I/O and Mesa interface code.
- Planner: the warning for an unknown strategy is not modelled (logging only).

## Findings

| source | as written | input that shows it | evidently intended | confidence | as-written member | corrected member |
|---|---|---|---|---|---|---|
| reasoning/planner.py:6-10 | Imports `react_plan`, `reflexion_plan`, `plan_execute_plan`, `cot_plan` and `tot_plan`. The strategy modules define only `json`, `SYSTEM_PROMPT` and `build_messages`. | Importing `reasoning.planner` at all: line 6 raises `ImportError` for `react_plan` | Import each strategy module's `build_messages` and dispatch each tag to it | not executed | Planner.ImportsAsWrittenFail | Planner.CorrectedImportsResolve |
