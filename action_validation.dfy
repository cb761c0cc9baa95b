/**
 * `ACTION_SCHEMA` and `validate_action_json` (reasoning/utils.py): the
 * candidate text is the slice from the first `{` through the last `}`, it is
 * decoded with `json.loads`, and the decoded value must satisfy the closed
 * command-batch schema.
 */
module ActionValidation {
  import opened Wrappers
  import opened JsonData
  import opened JsonDecode

  /** The three ways `validate_action_json` raises `ValueError`. */
  datatype Invalid =
    | NoJsonObject    // "malformed json: no JSON object found in string"
    | MalformedJson   // "malformed json: ..." from json.loads
    | SchemaMismatch  // "schema validation error: ..."

  const CommandKeys: set<string> := {"agent_id", "type", "to", "action_name"}

  /** `"to"`: an array of exactly two integers. */
  predicate IsCoordinatePair(v: Json) {
    v.JArray? && |v.items| == 2 && IsInteger(v.items[0]) && IsInteger(v.items[1])
  }

  /** One element of `"commands"` under `ACTION_SCHEMA`. */
  predicate CommandConforms(c: Json) {
    && c.JObject?
    && c.fields.Keys <= CommandKeys
    && "agent_id" in c.fields && c.fields["agent_id"].JString?
    && "type" in c.fields && c.fields["type"] in {JString("move"), JString("act")}
    && ("to" in c.fields ==> IsCoordinatePair(c.fields["to"]))
    && ("action_name" in c.fields ==> c.fields["action_name"].JString?)
  }

  /** The whole of `ACTION_SCHEMA`: an object whose only key is `"commands"`, an array of conforming commands. */
  predicate SchemaValid(v: Json) {
    && v.JObject?
    && v.fields.Keys == {"commands"}
    && v.fields["commands"].JArray?
    && forall c :: c in v.fields["commands"].items ==> CommandConforms(c)
  }

  /** `{"commands": []}`, the fail-safe batch. */
  const EmptyBatch: Json := JObject(map["commands" := JArray([])])

  /** `str.find`: index of the first `c`, or -1. */
  function Find(s: string, c: char): (r: int)
    ensures r == -1 <==> c !in s
    ensures r != -1 ==> 0 <= r < |s| && s[r] == c && c !in s[..r]
  {
    if s == [] then -1
    else if s[0] == c then 0
    else
      var k := Find(s[1..], c);
      assert s[1..][..if k == -1 then 0 else k] == s[1..1 + if k == -1 then 0 else k];
      if k == -1 then -1 else k + 1
  }

  /** `str.rfind`: index of the last `c`, or -1. */
  function RFind(s: string, c: char): (r: int)
    ensures r == -1 <==> c !in s
    ensures r != -1 ==> 0 <= r < |s| && s[r] == c && c !in s[r + 1..]
  {
    if s == [] then -1
    else if s[|s| - 1] == c then |s| - 1
    else
      var k := RFind(s[..|s| - 1], c);
      assert k != -1 ==> s[k + 1..] == s[..|s| - 1][k + 1..] + [s[|s| - 1]];
      k
  }

  /** `s[start:end]` for indices already inside the text: empty when `end <= start`. */
  function Slice(s: string, start: nat, end: nat): string
    requires end <= |s|
  {
    if start < end then s[start..end] else ""
  }

  /** The candidate JSON text: from the first `{` through the last `}` (empty if the last `}` comes first). */
  function CandidateSpan(s: string): string
    requires '{' in s
  {
    Slice(s, Find(s, '{'), RFind(s, '}') + 1)
  }

  function ValidateActionJson(s: string): (r: Result<Json, Invalid>)
    ensures r.Ok? ==> SchemaValid(r.value)
    ensures r.Ok? ==> '{' in s && Loads(CandidateSpan(s)) == Some(r.value)
    ensures r == Err(NoJsonObject) <==> '{' !in s
  {
    var start := Find(s, '{');
    var end := RFind(s, '}') + 1;
    if start == -1 || end == -1 then Err(NoJsonObject)
    else
      match Loads(Slice(s, start, end))
      case None => Err(MalformedJson)
      case Some(data) => if SchemaValid(data) then Ok(data) else Err(SchemaMismatch)
  }

  lemma FindIs(s: string, c: char, x: nat)
    requires x < |s| && s[x] == c && c !in s[..x]
    ensures Find(s, c) == x
  {
  }

  lemma RFindIs(s: string, c: char, x: nat)
    requires x < |s| && s[x] == c && c !in s[x + 1..]
    ensures RFind(s, c) == x
  {
  }

  /** Accepted exactly when the span decodes to a schema-valid value, and then that value is the result. */
  lemma ValidateAccepts(s: string)
    ensures ValidateActionJson(s).Ok? <==>
      '{' in s && Loads(CandidateSpan(s)).Some? && SchemaValid(Loads(CandidateSpan(s)).value)
    ensures ValidateActionJson(s).Ok? ==> ValidateActionJson(s).value == Loads(CandidateSpan(s)).value
  {
  }

  /** A decoded span that breaks the schema (extra key, missing field, bad `to`) is a schema error. */
  lemma NonConformingRejected(s: string)
    requires '{' in s && Loads(CandidateSpan(s)).Some? && !SchemaValid(Loads(CandidateSpan(s)).value)
    ensures ValidateActionJson(s) == Err(SchemaMismatch)
  {
  }

  /**
   * Text around the object is ignored: a prefix without `{` (say `Thought:` lines and
   * `FINAL_JSON: `) and a suffix without `}` change nothing.
   */
  lemma SurroundingTextIgnored(pre: string, body: string, post: string)
    requires '{' !in pre && '}' !in post
    requires |body| > 0 && body[0] == '{' && body[|body| - 1] == '}'
    ensures CandidateSpan(pre + body + post) == body
    ensures ValidateActionJson(pre + body + post) == ValidateActionJson(body)
  {
    SpanOfSurrounded(pre, body, post);
    SameSpanSameVerdict(pre + body + post, body);
  }

  lemma SpanOfSurrounded(pre: string, body: string, post: string)
    requires '{' !in pre && '}' !in post
    requires |body| > 0 && body[0] == '{' && body[|body| - 1] == '}'
    ensures '{' in pre + body + post && CandidateSpan(pre + body + post) == body
    ensures CandidateSpan(body) == body
  {
    var s := pre + body + post;
    assert Find(s, '{') == |pre| by {
      assert s[..|pre|] == pre;
      FindIs(s, '{', |pre|);
    }
    assert RFind(s, '}') == |pre| + |body| - 1 by {
      assert s[|pre| + |body|..] == post;
      RFindIs(s, '}', |pre| + |body| - 1);
    }
    assert s[|pre|..|pre| + |body|] == body;
    SpanOfWhole(body);
  }

  lemma SpanOfWhole(body: string)
    requires |body| > 0 && body[0] == '{' && body[|body| - 1] == '}'
    ensures CandidateSpan(body) == body
  {
    assert body[..0] == [];
    FindIs(body, '{', 0);
    assert body[|body|..] == [];
    RFindIs(body, '}', |body| - 1);
  }

  lemma SameSpanSameVerdict(s1: string, s2: string)
    requires '{' in s1 && '{' in s2 && CandidateSpan(s1) == CandidateSpan(s2)
    ensures ValidateActionJson(s1) == ValidateActionJson(s2)
  {
  }

  /** No `}` at all: the `end == -1` guard never fires, the empty slice fails to decode. */
  lemma MissingCloseBraceRejected(s: string)
    requires '}' !in s
    ensures ValidateActionJson(s) == if '{' in s then Err(MalformedJson) else Err(NoJsonObject)
  {
  }

  /** Every `}` lies before the first `{`: the slice is empty and is rejected. */
  lemma CloseOnlyBeforeOpenRejected(s: string)
    requires '{' in s && '}' !in s[Find(s, '{')..]
    ensures ValidateActionJson(s) == Err(MalformedJson)
  {
  }
}
