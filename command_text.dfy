/**
 * Command batches as a model writes them in its reply, and what
 * `validate_action_json` (reasoning/utils.py) makes of such a reply: a
 * compactly written object between a prefix without `{` and a suffix
 * without `}` is accepted exactly when its value meets `ACTION_SCHEMA`.
 */
module CommandText {
  import opened Wrappers
  import opened JsonData
  import opened JsonDecode
  import opened JsonWrite
  import opened ActionValidation

  datatype CommandType = Move | Act

  /** One element of `"commands"`: who acts, how, and the two optional fields. */
  datatype Command = Command(agentId: string, kind: CommandType, to: Option<(int, int)>, actionName: Option<string>)

  function TypeName(t: CommandType): string {
    match t
    case Move => "move"
    case Act => "act"
  }

  /** The members of a written command, in the order `agent_id`, `type`, `to`, `action_name`. */
  function CommandMembers(c: Command): seq<(string, Doc)> {
    [("agent_id", DStr(c.agentId)), ("type", DStr(TypeName(c.kind)))]
    + (match c.to case Some((x, y)) => [("to", DArr([DInt(x), DInt(y)]))] case None => [])
    + (match c.actionName case Some(a) => [("action_name", DStr(a))] case None => [])
  }

  function CommandDoc(c: Command): Doc {
    DObj(CommandMembers(c))
  }

  function CommandsDoc(cs: seq<Command>): (r: seq<Doc>)
    ensures |r| == |cs| && forall k :: 0 <= k < |cs| ==> r[k] == CommandDoc(cs[k])
  {
    if cs == [] then [] else [CommandDoc(cs[0])] + CommandsDoc(cs[1..])
  }

  /** `{"commands":[...]}` written out. */
  function BatchDoc(cs: seq<Command>): Doc {
    DObj([("commands", DArr(CommandsDoc(cs)))])
  }

  /** The decoded value of one command. */
  function CommandJson(c: Command): Json {
    JObject(
      map["agent_id" := JString(c.agentId), "type" := JString(TypeName(c.kind))]
      + (match c.to case Some((x, y)) => map["to" := JArray([JNumber(x, 0), JNumber(y, 0)])] case None => map[])
      + (match c.actionName case Some(a) => map["action_name" := JString(a)] case None => map[]))
  }

  function CommandsJson(cs: seq<Command>): (r: seq<Json>)
    ensures |r| == |cs| && forall k :: 0 <= k < |cs| ==> r[k] == CommandJson(cs[k])
  {
    if cs == [] then [] else [CommandJson(cs[0])] + CommandsJson(cs[1..])
  }

  function BatchJson(cs: seq<Command>): Json {
    JObject(map["commands" := JArray(CommandsJson(cs))])
  }

  /** Agent ids and action names that need no escape when written. */
  predicate PlainCommand(c: Command) {
    PlainText(c.agentId) && (c.actionName.Some? ==> PlainText(c.actionName.value))
  }

  /** A batch of one command is that command's text inside `{"commands":[` and `]}`. */
  lemma BatchOfOne(c: Command)
    ensures Write(BatchDoc([c])) == "{\"commands\":[" + Write(CommandDoc(c)) + "]}"
  {
    var w := Write(CommandDoc(c));
    assert CommandsDoc([c]) == [CommandDoc(c)];
    assert WriteItems([CommandDoc(c)]) == w;
    assert Quote("commands") + ":" == "\"commands\":";
    assert Write(DArr([CommandDoc(c)])) == "[" + w + "]";
    assert WriteMember(("commands", DArr([CommandDoc(c)]))) == Quote("commands") + ":" + ("[" + w + "]");
    assert WriteMembers([("commands", DArr([CommandDoc(c)]))]) == "\"commands\":" + ("[" + w + "]");
    assert "{" + ("\"commands\":" + ("[" + w + "]")) + "}" == "{\"commands\":[" + w + "]}";
  }

  lemma WriteMembersOfThree(a: (string, Doc), b: (string, Doc), c: (string, Doc))
    ensures WriteMembers([a, b, c]) == WriteMember(a) + "," + (WriteMember(b) + "," + WriteMember(c))
  {
    assert [a, b, c][1..] == [b, c];
    assert [b, c][1..] == [c];
    assert WriteMembers([c]) == WriteMember(c);
    assert WriteMembers([b, c]) == WriteMember(b) + "," + WriteMember(c);
  }

  /** Regrouping the text of a three-member object. */
  lemma ObjectOfThreeText(m1: string, m2: string, m3: string)
    ensures "{" + (m1 + "," + (m2 + "," + m3)) + "}" == ("{" + m1 + ",") + (m2 + ",") + (m3 + "}")
  {
  }

  /** Every command decodes to a value that `ACTION_SCHEMA` accepts. */
  lemma CommandConformsAlways(c: Command)
    ensures CommandConforms(CommandJson(c))
  {
    var f := CommandJson(c).fields;
    assert "agent_id" in f && "type" in f;
    if c.to.Some? {
      assert f["to"] == JArray([JNumber(c.to.value.0, 0), JNumber(c.to.value.1, 0)]);
    }
  }

  /** Every batch of commands decodes to a schema-valid value, the empty batch among them. */
  lemma BatchSchemaValid(cs: seq<Command>)
    ensures SchemaValid(BatchJson(cs))
    ensures BatchJson([]) == EmptyBatch
  {
    var items := CommandsJson(cs);
    forall v | v in items
      ensures CommandConforms(v)
    {
      var k :| 0 <= k < |items| && items[k] == v;
      CommandConformsAlways(cs[k]);
    }
  }

  /** Reading the written members of a command builds its field map. */
  lemma CommandMembersRead(c: Command)
    ensures MembersInto(map[], CommandMembers(c)) == CommandJson(c).fields
  {
    var idPart := [("agent_id", DStr(c.agentId))];
    var typePart := [("type", DStr(TypeName(c.kind)))];
    var toPart: seq<(string, Doc)> := match c.to case Some((x, y)) => [("to", DArr([DInt(x), DInt(y)]))] case None => [];
    var namePart: seq<(string, Doc)> := match c.actionName case Some(a) => [("action_name", DStr(a))] case None => [];
    assert CommandMembers(c) == idPart + typePart + toPart + namePart;
    MembersIntoAppend(map[], idPart + typePart + toPart, namePart);
    MembersIntoAppend(map[], idPart + typePart, toPart);
    MembersIntoAppend(map[], idPart, typePart);
    var m0 := MembersInto(map[], idPart);
    MembersIntoOne(map[], "agent_id", DStr(c.agentId));
    MembersIntoOne(m0, "type", DStr(TypeName(c.kind)));
    var m1 := MembersInto(m0, typePart);
    var m2 := MembersInto(m1, toPart);
    if c.to.Some? {
      var (x, y) := c.to.value;
      MembersIntoOne(m1, "to", DArr([DInt(x), DInt(y)]));
      assert ItemsJson([DInt(x), DInt(y)]) == [JNumber(x, 0), JNumber(y, 0)] by {
        assert [DInt(x), DInt(y)][1..] == [DInt(y)];
        assert [DInt(y)][1..] == [];
        assert ItemsJson([DInt(y)]) == [JNumber(y, 0)];
      }
    }
    if c.actionName.Some? {
      MembersIntoOne(m2, "action_name", DStr(c.actionName.value));
    }
  }

  lemma MembersIntoOne(acc: map<string, Json>, key: string, d: Doc)
    ensures MembersInto(acc, [(key, d)]) == acc[key := ToJson(d)]
  {
    assert [(key, d)][1..] == [];
  }

  lemma {:induction false} MembersIntoAppend(acc: map<string, Json>, a: seq<(string, Doc)>, b: seq<(string, Doc)>)
    ensures MembersInto(acc, a + b) == MembersInto(MembersInto(acc, a), b)
    decreases a
  {
    if a == [] {
      assert a + b == b;
    } else {
      assert (a + b)[0] == a[0] && (a + b)[1..] == a[1..] + b;
      MembersIntoAppend(acc[a[0].0 := MemberValue(a[0])], a[1..], b);
    }
  }

  /** A written batch decodes to the batch's value. */
  lemma BatchRead(cs: seq<Command>)
    ensures ToJson(BatchDoc(cs)) == BatchJson(cs)
  {
    var items := CommandsDoc(cs);
    CommandsRead(cs);
    MembersIntoOne(map[], "commands", DArr(items));
  }

  lemma {:induction false} CommandsRead(cs: seq<Command>)
    ensures ItemsJson(CommandsDoc(cs)) == CommandsJson(cs)
  {
    if cs != [] {
      CommandsRead(cs[1..]);
      CommandMembersRead(cs[0]);
      assert CommandsDoc(cs)[1..] == CommandsDoc(cs[1..]);
    }
  }

  /** The keys and type names the writer uses need no escape. */
  lemma FixedTextsPlain()
    ensures PlainText("agent_id") && PlainText("type") && PlainText("to")
    ensures PlainText("action_name") && PlainText("commands")
    ensures PlainText("move") && PlainText("act")
  {
    forall t | t in ["agent_id", "type", "to", "action_name", "commands", "move", "act"]
      ensures PlainText(t)
    {
      forall k | 0 <= k < |t|
        ensures PlainChar(t[k])
      {
        assert t[k] in "abcdefghijklmnopqrstuvwxyz_";
      }
    }
  }

  /** Commands with plain agent ids and action names write plain text. */
  lemma BatchPlain(cs: seq<Command>)
    requires forall k :: 0 <= k < |cs| ==> PlainCommand(cs[k])
    ensures Plain(BatchDoc(cs))
  {
    CommandsPlain(cs);
    FixedTextsPlain();
    PlainMembersOne("commands", DArr(CommandsDoc(cs)));
  }

  lemma {:induction false} CommandsPlain(cs: seq<Command>)
    requires forall k :: 0 <= k < |cs| ==> PlainCommand(cs[k])
    ensures PlainItems(CommandsDoc(cs))
  {
    if cs != [] {
      var c := cs[0];
      assert PlainCommand(c);
      FixedTextsPlain();
      var idPart := [("agent_id", DStr(c.agentId))];
      var typePart := [("type", DStr(TypeName(c.kind)))];
      var toPart: seq<(string, Doc)> := match c.to case Some((x, y)) => [("to", DArr([DInt(x), DInt(y)]))] case None => [];
      var namePart: seq<(string, Doc)> := match c.actionName case Some(a) => [("action_name", DStr(a))] case None => [];
      PlainMembersOne("agent_id", DStr(c.agentId));
      PlainMembersOne("type", DStr(TypeName(c.kind)));
      if c.to.Some? {
        var (x, y) := c.to.value;
        assert PlainItems([DInt(x), DInt(y)]) by {
          assert [DInt(x), DInt(y)][1..] == [DInt(y)];
          assert [DInt(y)][1..] == [];
          assert PlainItems([]);
          assert PlainItems([DInt(y)]);
        }
        PlainMembersOne("to", DArr([DInt(x), DInt(y)]));
      }
      if c.actionName.Some? {
        PlainMembersOne("action_name", DStr(c.actionName.value));
      }
      PlainMembersAppend(idPart, typePart);
      PlainMembersAppend(idPart + typePart, toPart);
      PlainMembersAppend(idPart + typePart + toPart, namePart);
      assert CommandMembers(c) == idPart + typePart + toPart + namePart;
      CommandsPlain(cs[1..]);
      assert CommandsDoc(cs)[1..] == CommandsDoc(cs[1..]);
    }
  }

  lemma PlainMembersOne(key: string, d: Doc)
    requires PlainText(key) && Plain(d)
    ensures PlainMembers([(key, d)])
  {
    assert [(key, d)][1..] == [];
  }

  lemma {:induction false} PlainMembersAppend(a: seq<(string, Doc)>, b: seq<(string, Doc)>)
    requires PlainMembers(a) && PlainMembers(b)
    ensures PlainMembers(a + b)
    decreases a
  {
    if a != [] {
      assert (a + b)[1..] == a[1..] + b;
      PlainMembersAppend(a[1..], b);
    } else {
      assert a + b == b;
    }
  }

  /** The verdict on a reply whose object is written compactly between text without `{` and text without `}`. */
  lemma WrittenReplyVerdict(pre: string, d: Doc, post: string)
    requires '{' !in pre && '}' !in post
    requires d.DObj? && Plain(d)
    ensures ValidateActionJson(pre + Write(d) + post) ==
      if SchemaValid(ToJson(d)) then Ok(ToJson(d)) else Err(SchemaMismatch)
  {
    var body := Write(d);
    assert body[0] == '{' && body[|body| - 1] == '}';
    SurroundingTextIgnored(pre, body, post);
    LoadsWrite(d);
  }

  /** A batch written between such texts is accepted as that batch. */
  lemma BatchAccepted(pre: string, cs: seq<Command>, post: string)
    requires '{' !in pre && '}' !in post
    requires forall k :: 0 <= k < |cs| ==> PlainCommand(cs[k])
    ensures ValidateActionJson(pre + Write(BatchDoc(cs)) + post) == Ok(BatchJson(cs))
  {
    BatchPlain(cs);
    BatchRead(cs);
    BatchSchemaValid(cs);
    WrittenReplyVerdict(pre, BatchDoc(cs), post);
  }

  /** A written object followed by anything that is not white space does not decode. */
  lemma TrailingTextRejected(d: Doc, rest: string, k: nat)
    requires d.DObj? && Plain(d)
    requires k < |rest| && !IsWs(rest[k])
    ensures Loads(Write(d) + rest) == None
  {
    var w := Write(d);
    var s := w + rest;
    assert s[0] == '{';
    AtRest(s, 0);
    assert s[0..] == w + rest;
    AtSplit(s, 0, w, rest);
    ParseWritten(s, 0, d);
    assert s[|w| + k] == rest[k];
    assert SkipWs(s, 0) == 0;
  }

  /**
   * Two objects in one reply: the span runs from the first one's `{` to the
   * second one's `}`, does not decode, and the reply is rejected.
   */
  lemma TwoObjectsRejected(pre: string, d1: Doc, mid: string, d2: Doc, post: string)
    requires '{' !in pre && '}' !in post
    requires d1.DObj? && Plain(d1) && d2.DObj?
    ensures ValidateActionJson(pre + Write(d1) + mid + Write(d2) + post) == Err(MalformedJson)
  {
    var w1 := Write(d1);
    var w2 := Write(d2);
    var body := w1 + (mid + w2);
    assert body[0] == '{' && body[|body| - 1] == w2[|w2| - 1] == '}';
    assert pre + Write(d1) + mid + Write(d2) + post == pre + body + post;
    SurroundingTextIgnored(pre, body, post);
    SpanOfSurrounded(pre, body, post);
    assert (mid + w2)[|mid|] == '{';
    TrailingTextRejected(d1, mid + w2, |mid|);
  }

  /** `{"commands":[]}`, alone or inside text as above, is accepted as the empty batch. */
  lemma EmptyBatchAccepted(pre: string, post: string)
    requires '{' !in pre && '}' !in post
    ensures Write(BatchDoc([])) == "{\"commands\":[]}"
    ensures ValidateActionJson(pre + "{\"commands\":[]}" + post) == Ok(EmptyBatch)
  {
    assert Write(BatchDoc([])) == "{\"commands\":[]}" by {
      assert CommandsDoc([]) == [];
      assert Write(DArr([])) == "[]";
      assert WriteMember(("commands", DArr([]))) == "\"commands\":[]";
      assert WriteMembers([("commands", DArr([]))]) == "\"commands\":[]";
    }
    BatchAccepted(pre, [], post);
    BatchSchemaValid([]);
  }

  /** The keys read from written members: those already there and every member's key. */
  lemma {:induction false} MembersIntoKeys(acc: map<string, Json>, ms: seq<(string, Doc)>)
    ensures MembersInto(acc, ms).Keys == acc.Keys + set m | m in ms :: m.0
    decreases ms
  {
    if ms != [] {
      MembersIntoKeys(acc[ms[0].0 := MemberValue(ms[0])], ms[1..]);
      assert ms == [ms[0]] + ms[1..];
      assert (set m | m in ms :: m.0) == {ms[0].0} + set m | m in ms[1..] :: m.0;
    }
  }

  /** A batch with a second top-level key next to `"commands"` is a schema error. */
  lemma ExtraKeyRejected(pre: string, cs: seq<Command>, key: string, value: Doc, post: string)
    requires '{' !in pre && '}' !in post
    requires forall k :: 0 <= k < |cs| ==> PlainCommand(cs[k])
    requires key != "commands" && PlainText(key) && Plain(value)
    ensures ValidateActionJson(pre + Write(DObj([("commands", DArr(CommandsDoc(cs))), (key, value)])) + post)
      == Err(SchemaMismatch)
  {
    var first := ("commands", DArr(CommandsDoc(cs)));
    var d := DObj([first, (key, value)]);
    assert Plain(d) by {
      BatchPlain(cs);
      PlainMembersOne(key, value);
      PlainMembersAppend([first], [(key, value)]);
      assert [first] + [(key, value)] == d.members;
    }
    MembersIntoKeys(map[], d.members);
    assert key in ToJson(d).fields;
    WrittenReplyVerdict(pre, d, post);
  }

  /** A command object without an `agent_id` key is a schema error. */
  lemma MissingAgentRejected(pre: string, ms: seq<(string, Doc)>, post: string)
    requires '{' !in pre && '}' !in post
    requires PlainMembers(ms) && forall m :: m in ms ==> m.0 != "agent_id"
    ensures ValidateActionJson(pre + Write(DObj([("commands", DArr([DObj(ms)]))])) + post) == Err(SchemaMismatch)
  {
    var c := DObj(ms);
    var d := DObj([("commands", DArr([c]))]);
    assert Plain(d) by {
      FixedTextsPlain();
      assert PlainItems([c]) by {
        assert [c][1..] == [];
        assert PlainItems([]);
      }
      PlainMembersOne("commands", DArr([c]));
    }
    MembersIntoKeys(map[], ms);
    MembersIntoOne(map[], "commands", DArr([c]));
    assert ItemsJson([c]) == [ToJson(c)] by { assert [c][1..] == []; }
    assert ToJson(c) in ToJson(d).fields["commands"].items;
    assert !CommandConforms(ToJson(c));
    WrittenReplyVerdict(pre, d, post);
  }

  /** A command whose `to` does not hold exactly two values is a schema error. */
  lemma TargetLengthRejected(pre: string, ms: seq<(string, Doc)>, target: seq<Doc>, post: string)
    requires '{' !in pre && '}' !in post
    requires PlainMembers(ms) && PlainItems(target) && |target| != 2
    ensures ValidateActionJson(pre + Write(DObj([("commands", DArr([DObj(ms + [("to", DArr(target))])]))])) + post)
      == Err(SchemaMismatch)
  {
    var c := DObj(ms + [("to", DArr(target))]);
    var d := DObj([("commands", DArr([c]))]);
    FixedTextsPlain();
    assert Plain(d) by {
      PlainMembersOne("to", DArr(target));
      PlainMembersAppend(ms, [("to", DArr(target))]);
      assert PlainItems([c]) by {
        assert [c][1..] == [];
        assert PlainItems([]);
      }
      PlainMembersOne("commands", DArr([c]));
    }
    assert ToJson(c).fields["to"] == JArray(ItemsJson(target)) by {
      MembersIntoAppend(map[], ms, [("to", DArr(target))]);
      MembersIntoOne(MembersInto(map[], ms), "to", DArr(target));
    }
    MembersIntoOne(map[], "commands", DArr([c]));
    assert ItemsJson([c]) == [ToJson(c)] by { assert [c][1..] == []; }
    assert ToJson(c) in ToJson(d).fields["commands"].items;
    assert !CommandConforms(ToJson(c));
    WrittenReplyVerdict(pre, d, post);
  }
}
