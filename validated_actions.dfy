/**
 * `get_validated_actions` and `get_validated_actions_with_logging`
 * (reasoning/utils.py): call the provider, validate the reply, re-prompt
 * once with an extra system message when it is invalid, and fall back to
 * `{"commands": []}` when the second reply is invalid too. Provider errors
 * are not caught.
 */
module ValidatedActions {
  import opened Wrappers
  import opened JsonData
  import opened Prompts
  import opened LlmClient
  import opened ActionValidation
  import opened CommandText

  /** The system message added for the second attempt. */
  const RepromptText: string :=
    "Your previous output was invalid JSON / schema mismatch. "
    + "Produce ONLY the final JSON matching schema and nothing else."

  /** `messages + [{"role": "system", "content": ...}]`: a new list; the caller's is left as it was. */
  function Reprompt(messages: seq<Message>): (r: seq<Message>)
    ensures |r| == |messages| + 1 && r[..|messages|] == messages
    ensures r[|messages|] == Message(System, RepromptText)
  {
    messages + [Message(System, RepromptText)]
  }

  /**
   * A run of the orchestrator: the actions with the text they came from, or
   * the provider's error; how many times `call_llm` ran; how many backend
   * calls were made (`start`, `start + 1`, ... are the oracle indices used).
   */
  datatype Run = Run(result: Result<(Json, string), LLMError>, calls: nat, attempts: nat)

  /** The first `call_llm` of a run. */
  function FirstCall(provider: Provider, messages: seq<Message>, model: Option<string>, temperature: real,
                     backend: (Request, nat) -> BackendReply, start: nat): Call {
    Call(provider, messages, model, temperature, backend, start)
  }

  /** The second `call_llm`, on the re-prompted list, after the `used` backend calls of the first. */
  function SecondCall(provider: Provider, messages: seq<Message>, model: Option<string>, temperature: real,
                      backend: (Request, nat) -> BackendReply, start: nat, used: nat): Call {
    Call(provider, Reprompt(messages), model, temperature, backend, start + used)
  }

  /** The second half of a run, once the first reply was invalid: validate the re-prompted reply or fall back. */
  function Fallback(second: (CallResult, nat, seq<real>), firstAttempts: nat): (r: Run)
    requires second.0.Returned? || second.0.Raised?
    ensures r.calls == 2 && r.attempts == firstAttempts + second.1
    ensures r.result.Ok? ==> SchemaValid(r.result.value.0)
  {
    if second.0.Raised? then Run(Err(second.0.error), 2, firstAttempts + second.1)
    else
      var text2 := second.0.content;
      match ValidateActionJson(text2)
      case Ok(actions) => Run(Ok((actions, text2)), 2, firstAttempts + second.1)
      case Err(_) =>
        BatchSchemaValid([]);
        Run(Ok((EmptyBatch, text2)), 2, firstAttempts + second.1)
  }

  /** The whole orchestration, with `call_llm`'s defaults (two attempts, backoff 2.0). */
  function Orchestrate(provider: Provider, messages: seq<Message>, model: Option<string>, temperature: real,
                       backend: (Request, nat) -> BackendReply, start: nat): (r: Run)
    ensures r.result.Ok? ==> SchemaValid(r.result.value.0)
    ensures 1 <= r.calls <= 2 && r.calls <= r.attempts <= 2 * r.calls
  {
    var first := Retry(FirstCall(provider, messages, model, temperature, backend, start), 2, 2.0);
    if first.0.Raised? then Run(Err(first.0.error), 1, first.1)
    else
      var text := first.0.content;
      match ValidateActionJson(text)
      case Ok(actions) => Run(Ok((actions, text)), 1, first.1)
      case Err(_) =>
        Fallback(Retry(SecondCall(provider, messages, model, temperature, backend, start, first.1), 2, 2.0), first.1)
  }

  /** The reply text of the first call, when it returned one. */
  function FirstReply(provider: Provider, messages: seq<Message>, model: Option<string>, temperature: real,
                      backend: (Request, nat) -> BackendReply, start: nat): Option<string> {
    var first := Retry(FirstCall(provider, messages, model, temperature, backend, start), 2, 2.0);
    if first.0.Returned? then Some(first.0.content) else None
  }

  /** The reply text of the second call, made after the first call's attempts, when it returned one. */
  function SecondReply(provider: Provider, messages: seq<Message>, model: Option<string>, temperature: real,
                       backend: (Request, nat) -> BackendReply, start: nat): Option<string> {
    var used := Retry(FirstCall(provider, messages, model, temperature, backend, start), 2, 2.0).1;
    var second := Retry(SecondCall(provider, messages, model, temperature, backend, start, used), 2, 2.0);
    if second.0.Returned? then Some(second.0.content) else None
  }

  /** The provider is asked a second time exactly when its first reply came back and failed validation. */
  lemma SecondCallOnlyAfterInvalid(provider: Provider, messages: seq<Message>, model: Option<string>, temperature: real,
                                   backend: (Request, nat) -> BackendReply, start: nat)
    ensures Orchestrate(provider, messages, model, temperature, backend, start).calls == 2 <==>
      var reply := FirstReply(provider, messages, model, temperature, backend, start);
      reply.Some? && ValidateActionJson(reply.value).Err?
  {
  }

  /** A first reply that validates is the result, paired with its own text. */
  lemma FirstValidIsFinal(provider: Provider, messages: seq<Message>, model: Option<string>, temperature: real,
                          backend: (Request, nat) -> BackendReply, start: nat, text: string, actions: Json)
    requires FirstReply(provider, messages, model, temperature, backend, start) == Some(text)
    requires ValidateActionJson(text) == Ok(actions)
    ensures Orchestrate(provider, messages, model, temperature, backend, start).result == Ok((actions, text))
  {
  }

  /**
   * Whatever is returned comes from the last reply obtained: the returned
   * text is the first reply after one call and the second reply after two,
   * and the actions are that reply's validated value, or the empty batch
   * when that reply was the second and failed validation as well.
   */
  lemma ResultFromLastReply(provider: Provider, messages: seq<Message>, model: Option<string>, temperature: real,
                            backend: (Request, nat) -> BackendReply, start: nat)
    ensures var r := Orchestrate(provider, messages, model, temperature, backend, start);
      r.result.Ok? && r.calls == 1 ==>
        FirstReply(provider, messages, model, temperature, backend, start) == Some(r.result.value.1)
    ensures var r := Orchestrate(provider, messages, model, temperature, backend, start);
      r.result.Ok? && r.calls == 2 ==>
        SecondReply(provider, messages, model, temperature, backend, start) == Some(r.result.value.1)
    ensures var r := Orchestrate(provider, messages, model, temperature, backend, start);
      r.result.Ok? ==>
        ValidateActionJson(r.result.value.1) == Ok(r.result.value.0)
        || (r.calls == 2 && ValidateActionJson(r.result.value.1).Err? && r.result.value.0 == EmptyBatch)
  {
    var first := Retry(FirstCall(provider, messages, model, temperature, backend, start), 2, 2.0);
    if first.0.Returned? && ValidateActionJson(first.0.content).Err? {
      var second := Retry(SecondCall(provider, messages, model, temperature, backend, start, first.1), 2, 2.0);
      assert Orchestrate(provider, messages, model, temperature, backend, start) == Fallback(second, first.1);
    }
  }

  /** First reply invalid, re-prompted reply valid: the second reply's batch, with its text. */
  lemma SecondValidIsFinal(provider: Provider, messages: seq<Message>, model: Option<string>, temperature: real,
                           backend: (Request, nat) -> BackendReply, start: nat, text: string, actions: Json)
    requires FirstReply(provider, messages, model, temperature, backend, start).Some?
    requires ValidateActionJson(FirstReply(provider, messages, model, temperature, backend, start).value).Err?
    requires SecondReply(provider, messages, model, temperature, backend, start) == Some(text)
    requires ValidateActionJson(text) == Ok(actions)
    ensures var r := Orchestrate(provider, messages, model, temperature, backend, start);
      r.result == Ok((actions, text)) && r.calls == 2
  {
  }

  /** Both replies invalid: `{"commands": []}` with the second reply's text. */
  lemma BothInvalidFallBack(provider: Provider, messages: seq<Message>, model: Option<string>, temperature: real,
                            backend: (Request, nat) -> BackendReply, start: nat, text: string)
    requires FirstReply(provider, messages, model, temperature, backend, start).Some?
    requires ValidateActionJson(FirstReply(provider, messages, model, temperature, backend, start).value).Err?
    requires var used := Retry(FirstCall(provider, messages, model, temperature, backend, start), 2, 2.0).1;
      Retry(SecondCall(provider, messages, model, temperature, backend, start, used), 2, 2.0).0 == Returned(text)
    requires ValidateActionJson(text).Err?
    ensures Orchestrate(provider, messages, model, temperature, backend, start).result == Ok((EmptyBatch, text))
  {
  }

  /** An error re-raised by either `call_llm` is the run's outcome: nothing catches it. */
  lemma ProviderErrorsPropagate(provider: Provider, messages: seq<Message>, model: Option<string>, temperature: real,
                                backend: (Request, nat) -> BackendReply, start: nat)
    ensures var first := Retry(FirstCall(provider, messages, model, temperature, backend, start), 2, 2.0);
      first.0.Raised? ==> Orchestrate(provider, messages, model, temperature, backend, start).result == Err(first.0.error)
    ensures var first := Retry(FirstCall(provider, messages, model, temperature, backend, start), 2, 2.0);
      var second := Retry(SecondCall(provider, messages, model, temperature, backend, start, first.1), 2, 2.0);
      first.0.Returned? && ValidateActionJson(first.0.content).Err? && second.0.Raised? ==>
        Orchestrate(provider, messages, model, temperature, backend, start).result == Err(second.0.error)
  {
  }

  /** `_call_mock`'s reply is accepted as the empty batch. */
  lemma MockReplyAccepted()
    ensures ValidateActionJson(MockReply) == Ok(EmptyBatch)
  {
    var pre, batch := "FINAL_JSON: ", "{\"commands\":[]}";
    assert MockReply == pre + batch + "";
    assert '{' !in pre;
    EmptyBatchAccepted(pre, "");
  }

  /** With the mock provider one call of one attempt plans the empty batch. */
  lemma MockPlansNothing(messages: seq<Message>, model: Option<string>, temperature: real,
                         backend: (Request, nat) -> BackendReply, start: nat)
    ensures Orchestrate(Mock, messages, model, temperature, backend, start) == Run(Ok((EmptyBatch, MockReply)), 1, 1)
  {
    MockAnswersAtOnce(FirstCall(Mock, messages, model, temperature, backend, start), 2, 2.0);
    MockReplyAccepted();
  }

  /** `get_validated_actions_with_logging(messages, model, temperature)`. */
  method GetValidatedActionsWithLogging(provider: Provider, messages: seq<Message>,
                                        backend: (Request, nat) -> BackendReply, start: nat,
                                        model: Option<string> := None, temperature: real := 0.2)
    returns (result: Result<(Json, string), LLMError>, attempts: nat)
    ensures Run(result, Orchestrate(provider, messages, model, temperature, backend, start).calls, attempts)
      == Orchestrate(provider, messages, model, temperature, backend, start)
    ensures result.Ok? ==> SchemaValid(result.value.0)
  {
    ghost var run := Orchestrate(provider, messages, model, temperature, backend, start);
    var outcome, n, delays := CallLlm(FirstCall(provider, messages, model, temperature, backend, start));
    attempts := n;
    if outcome.Raised? {
      return Err(outcome.error), attempts;
    }
    var text := outcome.content;
    var verdict := ValidateActionJson(text);
    if verdict.Ok? {
      return Ok((verdict.value, text)), attempts;
    }
    var outcome2, n2, delays2 := CallLlm(SecondCall(provider, messages, model, temperature, backend, start, n));
    assert run == Fallback((outcome2, n2, delays2), n);
    attempts := n + n2;
    if outcome2.Raised? {
      return Err(outcome2.error), attempts;
    }
    var text2 := outcome2.content;
    var verdict2 := ValidateActionJson(text2);
    if verdict2.Ok? {
      result := Ok((verdict2.value, text2));
    } else {
      result := Ok((EmptyBatch, text2));
    }
  }

  /** `get_validated_actions(messages, model, temperature)`: the same run, without the text. */
  method GetValidatedActions(provider: Provider, messages: seq<Message>,
                             backend: (Request, nat) -> BackendReply, start: nat,
                             model: Option<string> := None, temperature: real := 0.2)
    returns (result: Result<Json, LLMError>, attempts: nat)
    ensures var run := Orchestrate(provider, messages, model, temperature, backend, start);
      && attempts == run.attempts
      && (run.result.Ok? ==> result == Ok(run.result.value.0))
      && (run.result.Err? ==> result == Err(run.result.error))
    ensures result.Ok? ==> SchemaValid(result.value)
  {
    var outcome, n, delays := CallLlm(FirstCall(provider, messages, model, temperature, backend, start));
    attempts := n;
    if outcome.Raised? {
      return Err(outcome.error), attempts;
    }
    var verdict := ValidateActionJson(outcome.content);
    if verdict.Ok? {
      return Ok(verdict.value), attempts;
    }
    var outcome2, n2, delays2 := CallLlm(SecondCall(provider, messages, model, temperature, backend, start, n));
    attempts := n + n2;
    if outcome2.Raised? {
      return Err(outcome2.error), attempts;
    }
    var verdict2 := ValidateActionJson(outcome2.content);
    if verdict2.Ok? {
      result := Ok(verdict2.value);
    } else {
      result := Ok(EmptyBatch);
      BatchSchemaValid([]);
    }
  }
}
