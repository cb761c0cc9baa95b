/**
 * The provider gateway (reasoning/llm_client.py): a provider chosen by name,
 * the Groq and Gemini backends seen through an oracle that answers or fails,
 * the constant mock reply, the Gemini prompt flattening and the
 * bounded retry loop of `call_llm` with exponential backoff.
 *
 * The oracle `backend(request, n)` is the reply to the `n`-th backend call of
 * a run; a call of `call_llm` starting at `start` uses indices `start`,
 * `start + 1`, ... for its attempts. Waiting is not performed: the delays are
 * returned instead.
 */
module LlmClient {
  import opened Wrappers
  import opened Prompts

  /** `LLMError`: the only exception `call_llm` treats as retryable. */
  datatype LLMError = LLMError(message: string)

  datatype Provider = Groq | Gemini | Mock

  /** `PROVIDER`: `"groq"` and `"gemini"` pick their backends, every other name the mock. */
  function SelectProvider(name: string): (p: Provider)
    ensures p == Groq <==> name == "groq"
    ensures p == Gemini <==> name == "gemini"
    ensures p == Mock <==> name != "groq" && name != "gemini"
  {
    if name == "groq" then Groq else if name == "gemini" then Gemini else Mock
  }

  const GroqDefaultModel: string := "llama-3.3-70b-versatile"
  const GeminiDefaultModel: string := "gemini-1.5-flash"

  /** `_call_mock`'s constant reply. */
  const MockReply: string := "FINAL_JSON: {\"commands\":[]}"

  /** What a backend is asked: Groq takes the chat list, Gemini one flattened prompt. */
  datatype Request =
    | ChatRequest(model: string, messages: seq<Message>, temperature: real)
    | PromptRequest(model: string, prompt: string, temperature: real)

  /** A backend's text, or the description of the exception it raised. */
  datatype BackendReply = Answer(content: string) | Fault(detail: string)

  /** `model or default`: an absent or empty model name selects the default. */
  function ModelOr(model: Option<string>, default: string): (r: string)
    ensures model.Some? && model.value != "" ==> r == model.value
    ensures model.None? || model.value == "" ==> r == default
  {
    match model
    case Some(name) => if name != "" then name else default
    case None => default
  }

  function RoleName(role: Role): string {
    match role
    case System => "system"
    case User => "user"
    case Assistant => "assistant"
  }

  function UpperChar(c: char): char {
    if 'a' <= c <= 'z' then (c as int - 32) as char else c
  }

  /** `str.upper()` on ASCII text. */
  function Upper(s: string): (r: string)
    ensures |r| == |s| && forall k :: 0 <= k < |s| ==> r[k] == UpperChar(s[k])
  {
    if s == [] then [] else [UpperChar(s[0])] + Upper(s[1..])
  }

  /** One line of the Gemini prompt: `ROLE: content`. */
  function RenderTurn(m: Message): string {
    Upper(RoleName(m.role)) + ": " + m.content
  }

  /** `"\n".join(parts)`. */
  function JoinLines(parts: seq<string>): string {
    if parts == [] then ""
    else if |parts| == 1 then parts[0]
    else parts[0] + "\n" + JoinLines(parts[1..])
  }

  function RenderTurns(messages: seq<Message>): (r: seq<string>)
    ensures |r| == |messages| && forall k :: 0 <= k < |messages| ==> r[k] == RenderTurn(messages[k])
  {
    if messages == [] then [] else [RenderTurn(messages[0])] + RenderTurns(messages[1..])
  }

  /** The Gemini prompt: the messages in order, one rendered turn each, joined by newlines. */
  function FlattenPrompt(messages: seq<Message>): string {
    JoinLines(RenderTurns(messages))
  }

  lemma {:induction false} JoinLinesAppend(parts: seq<string>, last: string)
    requires parts != []
    ensures JoinLines(parts + [last]) == JoinLines(parts) + "\n" + last
    decreases |parts|
  {
    if |parts| == 1 {
      assert parts + [last] == [parts[0], last];
    } else {
      assert (parts + [last])[1..] == parts[1..] + [last];
      JoinLinesAppend(parts[1..], last);
    }
  }

  /** Appending a message appends one line `ROLE: content` to the flattened prompt. */
  lemma FlattenAppend(messages: seq<Message>, m: Message)
    requires messages != []
    ensures FlattenPrompt(messages + [m]) == FlattenPrompt(messages) + "\n" + RenderTurn(m)
  {
    assert RenderTurns(messages + [m]) == RenderTurns(messages) + [RenderTurn(m)];
    JoinLinesAppend(RenderTurns(messages), RenderTurn(m));
  }

  /** The flattened prompt of one message is its single line. */
  lemma FlattenSingle(m: Message)
    ensures FlattenPrompt([m]) == Upper(RoleName(m.role)) + ": " + m.content
  {
  }

  /** Upper-casing the lower-case role names gives `SYSTEM`, `USER`, `ASSISTANT`. */
  lemma RoleLabels()
    ensures Upper(RoleName(System)) == "SYSTEM"
    ensures Upper(RoleName(User)) == "USER"
    ensures Upper(RoleName(Assistant)) == "ASSISTANT"
  {
    UpperIs("system", "SYSTEM");
    UpperIs("user", "USER");
    UpperIs("assistant", "ASSISTANT");
  }

  /** Upper-casing gives `t` when it maps each character of `s` to the one of `t` at its place. */
  lemma UpperIs(s: string, t: string)
    requires |s| == |t| && forall k :: 0 <= k < |s| ==> UpperChar(s[k]) == t[k]
    ensures Upper(s) == t
  {
  }

  /**
   * One attempt: `_call_groq`, `_call_gemini` or `_call_mock`. A backend
   * failure becomes an `LLMError` naming the backend; the mock answers
   * without consulting any backend.
   */
  function Dispatch(provider: Provider, messages: seq<Message>, model: Option<string>, temperature: real,
                    backend: (Request, nat) -> BackendReply, index: nat): (r: Result<string, LLMError>)
    ensures provider == Mock ==> r == Ok(MockReply)
    ensures provider == Groq ==>
      (r.Err? <==> backend(ChatRequest(ModelOr(model, GroqDefaultModel), messages, temperature), index).Fault?)
    ensures provider == Gemini ==>
      (r.Err? <==> backend(PromptRequest(ModelOr(model, GeminiDefaultModel), FlattenPrompt(messages), temperature), index).Fault?)
    ensures r.Err? && provider == Groq ==>
      backend(ChatRequest(ModelOr(model, GroqDefaultModel), messages, temperature), index).Fault?
      && r.error.message == "Groq call failed: " + backend(ChatRequest(ModelOr(model, GroqDefaultModel), messages, temperature), index).detail
    ensures r.Err? && provider == Gemini ==>
      backend(PromptRequest(ModelOr(model, GeminiDefaultModel), FlattenPrompt(messages), temperature), index).Fault?
      && r.error.message == "Gemini call failed: " + backend(PromptRequest(ModelOr(model, GeminiDefaultModel), FlattenPrompt(messages), temperature), index).detail
  {
    match provider
    case Groq =>
      (match backend(ChatRequest(ModelOr(model, GroqDefaultModel), messages, temperature), index)
       case Answer(content) => Ok(content)
       case Fault(detail) => Err(LLMError("Groq call failed: " + detail)))
    case Gemini =>
      (match backend(PromptRequest(ModelOr(model, GeminiDefaultModel), FlattenPrompt(messages), temperature), index)
       case Answer(content) => Ok(content)
       case Fault(detail) => Err(LLMError("Gemini call failed: " + detail)))
    case Mock => Ok(MockReply)
  }

  /** A backend that answers returns its text unchanged; one that fails is wrapped, never lost. */
  lemma DispatchFaithful(provider: Provider, messages: seq<Message>, model: Option<string>, temperature: real,
                         backend: (Request, nat) -> BackendReply, index: nat, content: string)
    requires provider == Groq ==> backend(ChatRequest(ModelOr(model, GroqDefaultModel), messages, temperature), index) == Answer(content)
    requires provider == Gemini ==> backend(PromptRequest(ModelOr(model, GeminiDefaultModel), FlattenPrompt(messages), temperature), index) == Answer(content)
    requires provider == Mock ==> content == MockReply
    ensures Dispatch(provider, messages, model, temperature, backend, index) == Ok(content)
  {
  }

  /** The fixed part of one `call_llm`: who is called, with what, from which backend index on. */
  datatype Call = Call(provider: Provider, messages: seq<Message>, model: Option<string>, temperature: real,
                       backend: (Request, nat) -> BackendReply, start: nat)

  /** Attempt `k` (0-based) of a call. */
  function Attempt(call: Call, k: nat): Result<string, LLMError> {
    Dispatch(call.provider, call.messages, call.model, call.temperature, call.backend, call.start + k)
  }

  /**
   * How `call_llm` ends: a reply, the re-raised error of the last attempt,
   * the `ValueError` that `time.sleep` raises for a negative wait, or `None`
   * when it never tried.
   */
  datatype CallResult = Returned(content: string) | Raised(error: LLMError) | SleepRejected | ReturnedNone

  function Pow2(k: nat): (r: nat)
    ensures r >= 1
  {
    if k == 0 then 1 else 2 * Pow2(k - 1)
  }

  /** The wait after failed attempt `k`: `backoff * 2 ** k`. */
  function Delay(backoff: real, k: nat): real {
    backoff * Pow2(k) as real
  }

  /**
   * Everything `call_llm` promises about one run, stated without the loop:
   * with `retries <= 0` nothing is tried and `None` comes back; otherwise
   * every attempt but the last failed and was followed by its backoff delay,
   * which was not negative, and the last attempt either answered (its text is
   * returned), or was the `retries`-th and its error is re-raised without a
   * further wait, or failed earlier and its wait was negative, which `sleep`
   * rejects.
   */
  predicate IsRetryOutcome(call: Call, retries: int, backoff: real, outcome: CallResult, attempts: nat, delays: seq<real>) {
    if retries <= 0 then outcome == ReturnedNone && attempts == 0 && delays == []
    else
      && 1 <= attempts <= retries
      && (forall k: nat :: k < attempts - 1 ==> Attempt(call, k).Err?)
      && |delays| == attempts - 1
      && (forall k :: 0 <= k < |delays| ==> delays[k] == Delay(backoff, k) && delays[k] >= 0.0)
      && match Attempt(call, attempts - 1)
         case Ok(text) => outcome == Returned(text)
         case Err(e) =>
           if attempts == retries then outcome == Raised(e)
           else outcome == SleepRejected && Delay(backoff, attempts - 1) < 0.0
  }

  /** The loop of `call_llm` from attempt `attempt` on, as a recursive definition. */
  function RetryFrom(call: Call, retries: int, backoff: real, attempt: nat): (r: (CallResult, nat, seq<real>))
    requires attempt < retries
    ensures r.0 != ReturnedNone && attempt < r.1 <= retries && |r.2| == r.1 - attempt - 1
    ensures backoff >= 0.0 ==> r.0 != SleepRejected
    decreases retries - attempt
  {
    match Attempt(call, attempt)
    case Ok(text) => (Returned(text), attempt + 1, [])
    case Err(e) =>
      if attempt < retries - 1 then
        if Delay(backoff, attempt) < 0.0 then (SleepRejected, attempt + 1, [])
        else
          var rest := RetryFrom(call, retries, backoff, attempt + 1);
          (rest.0, rest.1, [Delay(backoff, attempt)] + rest.2)
      else (Raised(e), attempt + 1, [])
  }

  /** `call_llm(messages, model, temperature, retries, backoff)`: outcome, attempts made, delays waited. */
  function Retry(call: Call, retries: int, backoff: real): (r: (CallResult, nat, seq<real>))
    ensures retries > 0 ==> r.0 != ReturnedNone
    ensures backoff >= 0.0 ==> r.0 != SleepRejected
  {
    if retries <= 0 then (ReturnedNone, 0, []) else RetryFrom(call, retries, backoff, 0)
  }

  lemma {:induction false} RetryFromMeetsOutcome(call: Call, retries: int, backoff: real, attempt: nat)
    requires attempt < retries
    requires forall k: nat :: k < attempt ==> Attempt(call, k).Err?
    ensures var r := RetryFrom(call, retries, backoff, attempt);
      && (forall k: nat :: k < r.1 - 1 ==> Attempt(call, k).Err?)
      && (forall k :: 0 <= k < |r.2| ==> r.2[k] == Delay(backoff, attempt + k) && r.2[k] >= 0.0)
      && match Attempt(call, r.1 - 1)
         case Ok(text) => r.0 == Returned(text)
         case Err(e) =>
           if r.1 == retries then r.0 == Raised(e)
           else r.0 == SleepRejected && Delay(backoff, r.1 - 1) < 0.0
    decreases retries - attempt
  {
    var r := RetryFrom(call, retries, backoff, attempt);
    if Attempt(call, attempt).Err? && attempt < retries - 1 && Delay(backoff, attempt) >= 0.0 {
      RetryFromMeetsOutcome(call, retries, backoff, attempt + 1);
      var rest := RetryFrom(call, retries, backoff, attempt + 1);
      assert r.2 == [Delay(backoff, attempt)] + rest.2;
      forall k | 0 <= k < |r.2|
        ensures r.2[k] == Delay(backoff, attempt + k) && r.2[k] >= 0.0
      {
        if k > 0 {
          assert r.2[k] == rest.2[k - 1];
        }
      }
    }
  }

  /** The recursive definition meets the loop-free description. */
  lemma RetryMeetsOutcome(call: Call, retries: int, backoff: real)
    ensures var r := Retry(call, retries, backoff); IsRetryOutcome(call, retries, backoff, r.0, r.1, r.2)
  {
    if retries > 0 {
      RetryFromMeetsOutcome(call, retries, backoff, 0);
    }
  }

  /** The description leaves no freedom: at most one outcome meets it. */
  lemma RetryOutcomeUnique(call: Call, retries: int, backoff: real,
                           o1: CallResult, n1: nat, d1: seq<real>, o2: CallResult, n2: nat, d2: seq<real>)
    requires IsRetryOutcome(call, retries, backoff, o1, n1, d1)
    requires IsRetryOutcome(call, retries, backoff, o2, n2, d2)
    ensures o1 == o2 && n1 == n2 && d1 == d2
  {
  }

  /** With a non-negative base the waits never shrink: each is twice the previous. */
  lemma DelaysNonDecreasing(call: Call, retries: int, backoff: real, outcome: CallResult, attempts: nat, delays: seq<real>)
    requires IsRetryOutcome(call, retries, backoff, outcome, attempts, delays)
    requires backoff >= 0.0
    ensures forall k :: 0 <= k < |delays| - 1 ==> delays[k] <= delays[k + 1]
    ensures forall k :: 0 <= k < |delays| - 1 ==> delays[k + 1] == 2.0 * delays[k]
  {
    forall k | 0 <= k < |delays| - 1
      ensures delays[k + 1] == 2.0 * delays[k] && delays[k] <= delays[k + 1]
    {
      assert delays[k] == Delay(backoff, k);
      assert delays[k + 1] == Delay(backoff, k + 1);
      assert Pow2(k + 1) as real == 2.0 * Pow2(k) as real;
    }
  }

  /** The mock never fails: one attempt, no wait, the constant reply. */
  lemma MockAnswersAtOnce(call: Call, retries: int, backoff: real)
    requires call.provider == Mock && retries > 0
    ensures Retry(call, retries, backoff) == (Returned(MockReply), 1, [])
  {
  }

  /** A backend that fails on every attempt is tried exactly `retries` times and its last error re-raised. */
  /** The request `_call_groq` (chat messages) or `_call_gemini` (one flattened prompt) sends for a call. */
  function RemoteRequest(call: Call): Request {
    if call.provider == Gemini then
      PromptRequest(ModelOr(call.model, GeminiDefaultModel), FlattenPrompt(call.messages), call.temperature)
    else ChatRequest(ModelOr(call.model, GroqDefaultModel), call.messages, call.temperature)
  }

  /** What the backend gives attempt `k` of a remote call. */
  function ReplyAt(call: Call, k: nat): BackendReply {
    call.backend(RemoteRequest(call), call.start + k)
  }

  /**
   * A remote backend that faults on every attempt: each fault is wrapped as
   * an `LLMError`, so all `retries` attempts are made and the last fault,
   * wrapped with the backend's name, is re-raised.
   */
  lemma FaultingBackendExhaustsRetries(call: Call, retries: int, backoff: real)
    requires call.provider != Mock && retries > 0 && backoff >= 0.0
    requires forall k: nat :: k < retries ==> ReplyAt(call, k).Fault?
    ensures var r := Retry(call, retries, backoff);
      && r.1 == retries && |r.2| == retries - 1 && r.0.Raised?
      && r.0.error.message == (if call.provider == Groq then "Groq call failed: " else "Gemini call failed: ")
                              + ReplyAt(call, retries - 1).detail
  {
    forall k: nat | k < retries
      ensures Attempt(call, k).Err?
    {
      assert ReplyAt(call, k).Fault?;
    }
    AlwaysFailingExhaustsRetries(call, retries, backoff);
  }

  lemma AlwaysFailingExhaustsRetries(call: Call, retries: int, backoff: real)
    requires retries > 0 && backoff >= 0.0
    requires forall k: nat :: k < retries ==> Attempt(call, k).Err?
    ensures var r := Retry(call, retries, backoff);
      && r.1 == retries && r.0 == Raised(Attempt(call, retries - 1).error) && |r.2| == retries - 1
  {
    RetryMeetsOutcome(call, retries, backoff);
  }

  /** A wait is negative exactly when the backoff base is. */
  lemma DelayNegativeIff(backoff: real, k: nat)
    ensures Delay(backoff, k) < 0.0 <==> backoff < 0.0
  {
    var p := Pow2(k) as real;
    assert p >= 1.0;
    if backoff < 0.0 {
      assert backoff * p <= backoff * 1.0;
    } else {
      assert backoff * p >= 0.0;
    }
  }

  /**
   * A negative backoff does not retry: the first failure that is not the last
   * ends the call with the `ValueError` of `time.sleep`, before any wait.
   */
  lemma NegativeBackoffRejected(call: Call, retries: int, backoff: real)
    requires retries > 1 && backoff < 0.0 && Attempt(call, 0).Err?
    ensures Retry(call, retries, backoff) == (SleepRejected, 1, [])
  {
    DelayNegativeIff(backoff, 0);
  }

  /**
   * `call_llm`: `for attempt in range(retries)`, return the first reply,
   * wait `backoff * 2 ** attempt` after a failure that is not the last (a
   * negative wait raises `ValueError`), and re-raise the last failure.
   */
  method CallLlm(call: Call, retries: int := 2, backoff: real := 2.0)
    returns (outcome: CallResult, attempts: nat, delays: seq<real>)
    ensures IsRetryOutcome(call, retries, backoff, outcome, attempts, delays)
    ensures (outcome, attempts, delays) == Retry(call, retries, backoff)
  {
    outcome := ReturnedNone;
    attempts := 0;
    delays := [];
    var attempt: nat := 0;
    while attempt < retries
      invariant retries > 0 ==> attempt < retries
      invariant retries <= 0 ==> attempt == 0
      invariant attempts == attempt && |delays| == attempt
      invariant forall k: nat :: k < attempt ==> Attempt(call, k).Err?
      invariant forall k :: 0 <= k < |delays| ==> delays[k] == Delay(backoff, k) && delays[k] >= 0.0
      invariant outcome == ReturnedNone
      decreases retries - attempt
    {
      var reply := Dispatch(call.provider, call.messages, call.model, call.temperature, call.backend, call.start + attempt);
      attempts := attempt + 1;
      match reply {
        case Ok(text) =>
          outcome := Returned(text);
          RetryMeetsOutcome(call, retries, backoff);
          RetryOutcomeUnique(call, retries, backoff, outcome, attempts, delays,
                             Retry(call, retries, backoff).0, Retry(call, retries, backoff).1, Retry(call, retries, backoff).2);
          return;
        case Err(e) =>
          if attempt < retries - 1 {
            var wait := Delay(backoff, attempt);
            if wait < 0.0 {
              outcome := SleepRejected;
              RetryMeetsOutcome(call, retries, backoff);
              RetryOutcomeUnique(call, retries, backoff, outcome, attempts, delays,
                                 Retry(call, retries, backoff).0, Retry(call, retries, backoff).1, Retry(call, retries, backoff).2);
              return;
            }
            delays := delays + [wait];
            attempt := attempt + 1;
          } else {
            outcome := Raised(e);
            RetryMeetsOutcome(call, retries, backoff);
            RetryOutcomeUnique(call, retries, backoff, outcome, attempts, delays,
                               Retry(call, retries, backoff).0, Retry(call, retries, backoff).1, Retry(call, retries, backoff).2);
            return;
          }
      }
    }
    RetryMeetsOutcome(call, retries, backoff);
  }
}
