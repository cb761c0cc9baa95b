/**
 * The top-level planner (reasoning/planner.py): a strategy tag picks one of
 * the five message builders, with the ReAct builder for every unknown tag,
 * and the built messages go through the two-attempt validated call.
 */
module Planner {
  import opened Wrappers
  import opened JsonData
  import opened Prompts
  import opened LlmClient
  import opened ActionValidation
  import ValidatedActions
  import React
  import Reflexion
  import PlanExecute
  import Cot
  import Tot

  datatype Strategy = ReactStrategy | ReflexionStrategy | PlanExecuteStrategy | CotStrategy | TotStrategy

  /** The tag the dispatcher compares against for each strategy. */
  function TagOf(s: Strategy): string {
    match s
    case ReactStrategy => "react"
    case ReflexionStrategy => "reflexion"
    case PlanExecuteStrategy => "plan_execute"
    case CotStrategy => "cot"
    case TotStrategy => "tot"
  }

  const KnownTags: set<string> := {"react", "reflexion", "plan_execute", "cot", "tot"}

  /** The if/elif chain: each known tag selects its strategy, everything else ReAct. */
  function SelectStrategy(tag: string): (s: Strategy)
    ensures tag in KnownTags ==> TagOf(s) == tag
    ensures tag !in KnownTags ==> s == ReactStrategy
  {
    if tag == "react" then ReactStrategy
    else if tag == "reflexion" then ReflexionStrategy
    else if tag == "plan_execute" then PlanExecuteStrategy
    else if tag == "cot" then CotStrategy
    else if tag == "tot" then TotStrategy
    else ReactStrategy
  }

  /** Tags and strategies are in one-to-one correspondence: selecting by a strategy's own tag gives it back. */
  lemma SelectTagOf(s: Strategy)
    ensures TagOf(s) in KnownTags && SelectStrategy(TagOf(s)) == s
  {
  }

  /** Each known tag selects a different strategy. */
  lemma SelectionInjective(t1: string, t2: string)
    requires t1 in KnownTags && t2 in KnownTags && SelectStrategy(t1) == SelectStrategy(t2)
    ensures t1 == t2
  {
  }

  /** The builder of a strategy, called with the scratchpad as given. */
  function BuildFor(s: Strategy, dumps: Json -> string, context: Json, scratchpad: Json): seq<Message> {
    match s
    case ReactStrategy => React.BuildMessages(dumps, context, scratchpad)
    case ReflexionStrategy => Reflexion.BuildMessages(dumps, context, scratchpad)
    case PlanExecuteStrategy => PlanExecute.BuildMessages(dumps, context, scratchpad)
    case CotStrategy => Cot.BuildMessages(dumps, context, scratchpad)
    case TotStrategy => Tot.BuildMessages(dumps, context, scratchpad)
  }

  /** The messages both entry points build; defaults `strategy="react"` and `scratchpad=""`. */
  function PlanMessages(dumps: Json -> string, context: Json, strategy: string := "react",
                        scratchpad: Json := JString("")): seq<Message> {
    BuildFor(SelectStrategy(strategy), dumps, context, scratchpad)
  }

  /** Whatever the tag, the list is a two-message planning prompt carrying the serialised context. */
  lemma PlanMessagesShape(dumps: Json -> string, context: Json, strategy: string, scratchpad: Json)
    ensures var r := PlanMessages(dumps, context, strategy, scratchpad);
      |r| == 2 && r[0].role == System && r[1].role == User
      && exists system, tail :: IsPlanningPrompt(r, system, dumps(context), tail)
  {
    var r := PlanMessages(dumps, context, strategy, scratchpad);
    match SelectStrategy(strategy)
    case ReactStrategy =>
      assert IsPlanningPrompt(r, React.SystemPrompt, dumps(context), React.Tail);
    case ReflexionStrategy =>
      assert IsPlanningPrompt(r, Reflexion.SystemPrompt, dumps(context), Reflexion.Tail(dumps, scratchpad));
    case PlanExecuteStrategy =>
      assert IsPlanningPrompt(r, PlanExecute.SystemPrompt, dumps(context), PlanExecute.Tail);
    case CotStrategy =>
      assert IsPlanningPrompt(r, Cot.SystemPrompt, dumps(context), "");
    case TotStrategy =>
      assert IsPlanningPrompt(r, Tot.SystemPrompt, dumps(context), Tot.Tail);
  }

  /** Each known tag reaches its own strategy's builder, with the scratchpad passed on unchanged. */
  lemma TagSelectsItsBuilder(s: Strategy, dumps: Json -> string, context: Json, scratchpad: Json)
    ensures PlanMessages(dumps, context, TagOf(s), scratchpad) == BuildFor(s, dumps, context, scratchpad)
  {
    SelectTagOf(s);
  }

  /** An unknown tag builds the ReAct messages; nothing is raised. */
  lemma UnknownTagFallsBackToReact(dumps: Json -> string, context: Json, strategy: string, scratchpad: Json)
    requires strategy !in KnownTags
    ensures PlanMessages(dumps, context, strategy, scratchpad) == PlanMessages(dumps, context, "react", scratchpad)
    ensures PlanMessages(dumps, context, strategy, scratchpad) == React.BuildMessages(dumps, context, scratchpad)
  {
  }

  /** With the default scratchpad `""` the Reflexion strategy adds no scratchpad section. */
  lemma DefaultScratchpadAddsNothing(dumps: Json -> string, context: Json)
    ensures PlanMessages(dumps, context, "reflexion")[1].content == ContextHeader + dumps(context)
  {
    Reflexion.SectionIffTruthy(dumps, context, JString(""));
  }

  /** `make_plan(context, strategy, scratchpad)`: the validated actions for the built messages. */
  method MakePlan(provider: Provider, backend: (Request, nat) -> BackendReply, start: nat,
                  dumps: Json -> string, context: Json, strategy: string := "react", scratchpad: Json := JString(""))
    returns (result: Result<Json, LLMError>, attempts: nat)
    ensures var run := ValidatedActions.Orchestrate(provider, PlanMessages(dumps, context, strategy, scratchpad),
                                                    None, 0.2, backend, start);
      && attempts == run.attempts
      && (run.result.Ok? ==> result == Ok(run.result.value.0))
      && (run.result.Err? ==> result == Err(run.result.error))
    ensures result.Ok? ==> SchemaValid(result.value)
  {
    var messages := BuildFor(SelectStrategy(strategy), dumps, context, scratchpad);
    result, attempts := ValidatedActions.GetValidatedActions(provider, messages, backend, start);
  }

  /**
   * `make_plan_with_logging(context, strategy, scratchpad)`: the actions, the
   * very messages that were sent, and the text of the last reply.
   */
  method MakePlanWithLogging(provider: Provider, backend: (Request, nat) -> BackendReply, start: nat,
                             dumps: Json -> string, context: Json, strategy: string := "react",
                             scratchpad: Json := JString(""))
    returns (result: Result<(Json, seq<Message>, string), LLMError>, attempts: nat)
    ensures var messages := PlanMessages(dumps, context, strategy, scratchpad);
      var run := ValidatedActions.Orchestrate(provider, messages, None, 0.2, backend, start);
      && attempts == run.attempts
      && (run.result.Ok? ==> result == Ok((run.result.value.0, messages, run.result.value.1)))
      && (run.result.Err? ==> result == Err(run.result.error))
    ensures result.Ok? ==> SchemaValid(result.value.0)
  {
    var messages := BuildFor(SelectStrategy(strategy), dumps, context, scratchpad);
    var run;
    run, attempts := ValidatedActions.GetValidatedActionsWithLogging(provider, messages, backend, start);
    match run
    case Ok((actions, text)) => result := Ok((actions, messages, text));
    case Err(e) => result := Err(e);
  }

  /** With the mock provider every strategy plans `{"commands": []}` in one attempt. */
  lemma MockPlansEmptyBatch(backend: (Request, nat) -> BackendReply, start: nat,
                            dumps: Json -> string, context: Json, strategy: string, scratchpad: Json)
    ensures ValidatedActions.Orchestrate(Mock, PlanMessages(dumps, context, strategy, scratchpad), None, 0.2, backend, start)
            == ValidatedActions.Run(Ok((EmptyBatch, MockReply)), 1, 1)
  {
    ValidatedActions.MockPlansNothing(PlanMessages(dumps, context, strategy, scratchpad), None, 0.2, backend, start);
  }

  // The module imports as written, against what the strategy modules define.

  datatype SourceModule = ReactModule | ReflexionModule | PlanExecuteModule | CotModule | TotModule

  /** The top-level names each strategy module binds: `json`, `SYSTEM_PROMPT`, `build_messages`. */
  function Defines(m: SourceModule): set<string> {
    {"json", "SYSTEM_PROMPT", "build_messages"}
  }

  /** `from .<module> import <name>` lines, in order. */
  type ImportLine = (SourceModule, string)

  /** The first import line naming something its module does not define, if any. */
  function FirstUnresolved(lines: seq<ImportLine>): (r: Option<ImportLine>)
    ensures r.None? <==> forall i :: 0 <= i < |lines| ==> lines[i].1 in Defines(lines[i].0)
    ensures r.Some? ==> r.value in lines && r.value.1 !in Defines(r.value.0)
  {
    if |lines| == 0 then None
    else if lines[0].1 !in Defines(lines[0].0) then Some(lines[0])
    else FirstUnresolved(lines[1..])
  }

  /** The imports as they stand in the planner. */
  const ImportsAsWritten: seq<ImportLine> := [
    (ReactModule, "react_plan"),
    (ReflexionModule, "reflexion_plan"),
    (PlanExecuteModule, "plan_execute_plan"),
    (CotModule, "cot_plan"),
    (TotModule, "tot_plan")
  ]

  /** Loading the planner stops at its first strategy import: `react_plan` does not exist. */
  lemma ImportsAsWrittenFail()
    ensures FirstUnresolved(ImportsAsWritten) == Some((ReactModule, "react_plan"))
  {
  }

  /** The module whose `build_messages` a strategy uses. */
  function ModuleOf(s: Strategy): SourceModule {
    match s
    case ReactStrategy => ReactModule
    case ReflexionStrategy => ReflexionModule
    case PlanExecuteStrategy => PlanExecuteModule
    case CotStrategy => CotModule
    case TotStrategy => TotModule
  }

  /** The intended imports: every strategy's own `build_messages`, which the dispatcher above uses. */
  const CorrectedImports: seq<ImportLine> := [
    (ModuleOf(ReactStrategy), "build_messages"),
    (ModuleOf(ReflexionStrategy), "build_messages"),
    (ModuleOf(PlanExecuteStrategy), "build_messages"),
    (ModuleOf(CotStrategy), "build_messages"),
    (ModuleOf(TotStrategy), "build_messages")
  ]

  /** All intended imports resolve, and they cover every strategy's module. */
  lemma CorrectedImportsResolve()
    ensures FirstUnresolved(CorrectedImports) == None
    ensures forall s: Strategy :: (ModuleOf(s), "build_messages") in CorrectedImports
  {
  }
}
