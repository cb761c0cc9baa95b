/**
 * A compact JSON writer (no whitespace, `","` and `":"` separators) for texts
 * made of plain strings, integers, arrays and objects, and its round trip
 * through the decoder: whatever it writes, `json.loads` reads back, wherever
 * the text sits inside a longer one.
 */
module JsonWrite {
  import opened Wrappers
  import opened JsonData
  import opened JsonDecode

  /** A JSON text to write; object members keep their written order. */
  datatype Doc =
    | DStr(text: string)
    | DInt(n: int)
    | DArr(items: seq<Doc>)
    | DObj(members: seq<(string, Doc)>)

  /** A string character the writer leaves unescaped. */
  predicate PlainChar(c: char) { c != '"' && c != '\\' && c >= ' ' }

  predicate PlainText(t: string) { forall k :: 0 <= k < |t| ==> PlainChar(t[k]) }

  /** Every string and key in the text needs no escape. */
  predicate Plain(d: Doc)
    decreases d
  {
    match d
    case DStr(t) => PlainText(t)
    case DInt(_) => true
    case DArr(items) => PlainItems(items)
    case DObj(members) => PlainMembers(members)
  }

  predicate PlainItems(items: seq<Doc>)
    decreases items
  {
    items != [] ==> Plain(items[0]) && PlainItems(items[1..])
  }

  predicate PlainMember(m: (string, Doc))
    decreases m
  {
    PlainText(m.0) && Plain(m.1)
  }

  predicate PlainMembers(members: seq<(string, Doc)>)
    decreases members
  {
    members != [] ==> PlainMember(members[0]) && PlainMembers(members[1..])
  }

  function DigitChar(n: nat): char
    requires n < 10
  {
    ('0' as int + n) as char
  }

  /** The decimal digits of `n`, most significant first, without leading zeros. */
  function NatText(n: nat): (r: string)
    ensures |r| > 0 && forall k :: 0 <= k < |r| ==> IsDigit(r[k])
    ensures r[0] == '0' ==> n == 0 && r == "0"
    ensures DigitsValue(r) == n
  {
    if n < 10 then [DigitChar(n)]
    else
      var r := NatText(n / 10) + [DigitChar(n % 10)];
      assert r[..|r| - 1] == NatText(n / 10);
      r
  }

  /** `str(n)` for an integer. */
  function IntText(n: int): string {
    if n < 0 then "-" + NatText(-n) else NatText(n)
  }

  function Quote(t: string): string { "\"" + t + "\"" }

  function Write(d: Doc): (r: string)
    decreases d
  {
    match d
    case DStr(t) => Quote(t)
    case DInt(n) => IntText(n)
    case DArr(items) => "[" + WriteItems(items) + "]"
    case DObj(members) => "{" + WriteMembers(members) + "}"
  }

  function WriteItems(items: seq<Doc>): string
    decreases items
  {
    if items == [] then ""
    else if |items| == 1 then Write(items[0])
    else Write(items[0]) + "," + WriteItems(items[1..])
  }

  function WriteMember(m: (string, Doc)): string
    decreases m
  {
    Quote(m.0) + ":" + Write(m.1)
  }

  function WriteMembers(members: seq<(string, Doc)>): string
    decreases members
  {
    if members == [] then ""
    else if |members| == 1 then WriteMember(members[0])
    else WriteMember(members[0]) + "," + WriteMembers(members[1..])
  }

  /** The value a text stands for; a repeated key keeps its last value, as `json.loads` does. */
  function ToJson(d: Doc): Json
    decreases d
  {
    match d
    case DStr(t) => JString(t)
    case DInt(n) => JNumber(n, 0)
    case DArr(items) => JArray(ItemsJson(items))
    case DObj(members) => JObject(MembersInto(map[], members))
  }

  function ItemsJson(items: seq<Doc>): (r: seq<Json>)
    ensures |r| == |items|
    decreases items
  {
    if items == [] then [] else [ToJson(items[0])] + ItemsJson(items[1..])
  }

  /** The values of `items` appended to `acc` one by one, as a reader collects them. */
  function ItemsInto(acc: seq<Json>, items: seq<Doc>): seq<Json>
    decreases items
  {
    if items == [] then acc else ItemsInto(acc + [ToJson(items[0])], items[1..])
  }

  function MemberValue(m: (string, Doc)): Json
    decreases m
  {
    ToJson(m.1)
  }

  function MembersInto(acc: map<string, Json>, members: seq<(string, Doc)>): map<string, Json>
    decreases members
  {
    if members == [] then acc
    else MembersInto(acc[members[0].0 := MemberValue(members[0])], members[1..])
  }

  /** Where a number token must stop: the end of the text or a character that cannot continue it. */
  predicate EndsNumber(s: string, k: nat) {
    k == |s| || (k < |s| && !IsDigit(s[k]) && s[k] != '.' && s[k] != 'e' && s[k] != 'E')
  }

  /** `t` occurs in `s` at position `i`. */
  predicate At(s: string, i: nat, t: string)
    decreases |t|
  {
    if t == [] then i <= |s| else i < |s| && s[i] == t[0] && At(s, i + 1, t[1..])
  }

  lemma {:induction false} AtSplit(s: string, i: nat, a: string, b: string)
    requires At(s, i, a + b)
    ensures At(s, i, a) && At(s, i + |a|, b)
    decreases |a|
  {
    if a == [] {
      assert a + b == b;
      AtBound(s, i, b);
    } else {
      assert (a + b)[1..] == a[1..] + b;
      AtSplit(s, i + 1, a[1..], b);
    }
  }

  lemma {:induction false} AtBound(s: string, i: nat, t: string)
    requires At(s, i, t)
    ensures i + |t| <= |s|
    decreases |t|
  {
    if t != [] {
      AtBound(s, i + 1, t[1..]);
    }
  }

  lemma {:induction false} AtChar(s: string, i: nat, t: string, k: nat)
    requires At(s, i, t) && k < |t|
    ensures i + k < |s| && s[i + k] == t[k]
    decreases k
  {
    if k > 0 {
      AtChar(s, i + 1, t[1..], k - 1);
    }
  }

  lemma {:induction false} AtSlice(s: string, i: nat, t: string)
    requires At(s, i, t)
    ensures i + |t| <= |s| && s[i..i + |t|] == t
  {
    AtBound(s, i, t);
    forall k | 0 <= k < |t|
      ensures s[i..i + |t|][k] == t[k]
    {
      AtChar(s, i, t, k);
    }
  }

  lemma {:induction false} AtRest(s: string, i: nat)
    requires i <= |s|
    ensures At(s, i, s[i..])
    decreases |s| - i
  {
    if i < |s| {
      assert s[i..][1..] == s[i + 1..];
      AtRest(s, i + 1);
    }
  }

  /** Every written text is non-empty and opens with a character that starts a value. */
  lemma WriteStarts(d: Doc)
    ensures |Write(d)| > 0
    ensures Write(d)[0] == '"' || Write(d)[0] == '[' || Write(d)[0] == '{' || Write(d)[0] == '-' || IsDigit(Write(d)[0])
  {
  }

  lemma {:induction false} PlainStringBody(s: string, i: nat, t: string)
    requires PlainText(t)
    requires At(s, i, t + "\"")
    ensures ParseStringBody(s, i) == Some((t, i + |t| + 1))
    decreases |t|
  {
    AtChar(s, i, t + "\"", 0);
    if t != [] {
      assert t + "\"" == [t[0]] + (t[1..] + "\"");
      AtSplit(s, i, [t[0]], t[1..] + "\"");
      PlainStringBody(s, i + 1, t[1..]);
      assert [t[0]] + t[1..] == t;
    }
  }

  lemma {:induction false} DigitsEndAt(s: string, i: nat, t: string)
    requires At(s, i, t) && forall k :: 0 <= k < |t| ==> IsDigit(t[k])
    requires i + |t| < |s| ==> !IsDigit(s[i + |t|])
    ensures DigitsEnd(s, i) == i + |t|
    decreases |t|
  {
    AtBound(s, i, t);
    if t != [] {
      AtChar(s, i, t, 0);
      assert t == [t[0]] + t[1..];
      AtSplit(s, i, [t[0]], t[1..]);
      DigitsEndAt(s, i + 1, t[1..]);
    }
  }

  /** The integer part of a token ends where its digits end. */
  lemma IntEndOfDigits(s: string, p: nat, digits: string)
    requires |digits| > 0 && forall k :: 0 <= k < |digits| ==> IsDigit(digits[k])
    requires digits[0] == '0' ==> |digits| == 1
    requires At(s, p, digits) && EndsNumber(s, p + |digits|)
    ensures p < |s| && IsDigit(s[p])
    ensures IntEnd(s, p) == p + |digits|
  {
    AtChar(s, p, digits, 0);
    if s[p] != '0' {
      assert digits == [digits[0]] + digits[1..];
      AtSplit(s, p, [digits[0]], digits[1..]);
      DigitsEndAt(s, p + 1, digits[1..]);
    }
  }

  /** The integer part `digits` written at `p` and ended properly: no fraction and no exponent follow. */
  lemma DigitsToken(s: string, p: nat, digits: string)
    requires |digits| > 0 && forall k :: 0 <= k < |digits| ==> IsDigit(digits[k])
    requires digits[0] == '0' ==> |digits| == 1
    requires At(s, p, digits) && EndsNumber(s, p + |digits|)
    ensures p < |s| && IsDigit(s[p]) && p + |digits| <= |s| && s[p..p + |digits|] == digits
    ensures IntEnd(s, p) == p + |digits|
    ensures FracEnd(s, p + |digits|) == p + |digits| && ExpPart(s, p + |digits|) == (p + |digits|, 0)
  {
    IntEndOfDigits(s, p, digits);
    NothingAfterDigits(s, p + |digits|);
    AtSlice(s, p, digits);
  }

  /** Where a number token must stop, no fraction and no exponent follow. */
  lemma NothingAfterDigits(s: string, end: nat)
    requires end <= |s| && EndsNumber(s, end)
    ensures FracEnd(s, end) == end && ExpPart(s, end) == (end, 0)
  {
  }

  /** The number token whose integer part `digits` ends at `end`, with no fraction or exponent after it. */
  lemma NumberFromParts(s: string, i: nat, p: nat, end: nat, negative: bool, digits: string)
    requires i < |s| && p < |s| && IsDigit(s[p]) && (negative <==> s[i] == '-')
    requires p == if s[i] == '-' then i + 1 else i
    requires IntEnd(s, p) == end && FracEnd(s, end) == end && ExpPart(s, end) == (end, 0)
    requires p <= end <= |s| && s[p..end] == digits
    ensures ParseNumber(s, i) ==
      Some((JNumber(if negative then -(DigitsValue(digits) as int) else DigitsValue(digits), 0), end))
  {
    assert s[p..end] + "" == s[p..end];
  }

  /** A text starting with a digit, or a minus sign and a digit, is read as a number token. */
  lemma ValueIsNumber(s: string, i: nat)
    requires i < |s|
    requires IsDigit(s[i]) || (s[i] == '-' && i + 1 < |s| && IsDigit(s[i + 1]))
    ensures ParseValue(s, i) == ParseNumber(s, i)
  {
    if s[i] == '-' && i + 9 <= |s| {
      assert s[i..i + 9][1] == s[i + 1];
    }
  }

  /** A written integer reads back as itself when nothing that could extend it follows. */
  lemma ParseWrittenInt(s: string, i: nat, n: int)
    requires At(s, i, IntText(n)) && EndsNumber(s, i + |IntText(n)|)
    ensures ParseValue(s, i) == Some((JNumber(n, 0), i + |IntText(n)|))
  {
    var digits := NatText(if n < 0 then -n else n);
    var p := if n < 0 then i + 1 else i;
    assert At(s, p, digits) && s[p] == digits[0] && (n < 0 <==> s[i] == '-') by {
      if n < 0 {
        AtSplit(s, i, "-", digits);
        AtChar(s, i, "-", 0);
      }
      AtChar(s, p, digits, 0);
    }
    DigitsToken(s, p, digits);
    NumberFromParts(s, i, p, p + |digits|, n < 0, digits);
    ValueIsNumber(s, i);
  }

  lemma ValueIsString(s: string, i: nat, t: string, j: nat)
    requires i < |s| && s[i] == '"' && i + 1 <= |s| && ParseStringBody(s, i + 1) == Some((t, j))
    ensures ParseValue(s, i) == Some((JString(t), j))
  {
  }

  lemma ValueIsArray(s: string, i: nat)
    requires i < |s| && s[i] == '['
    ensures ParseValue(s, i) == ParseArray(s, i + 1)
  {
  }

  lemma ValueIsObject(s: string, i: nat)
    requires i < |s| && s[i] == '{'
    ensures ParseValue(s, i) == ParseObject(s, i + 1)
  {
  }

  /** A written string reads back as itself. */
  lemma StringWritten(s: string, i: nat, t: string)
    requires PlainText(t) && At(s, i, Quote(t))
    ensures ParseValue(s, i) == Some((JString(t), i + |t| + 2))
  {
    assert At(s, i + 1, t + "\"") && s[i] == '"' by {
      assert Quote(t) == "\"" + (t + "\"");
      AtSplit(s, i, "\"", t + "\"");
      AtChar(s, i, "\"", 0);
    }
    PlainStringBody(s, i + 1, t);
    ValueIsString(s, i, t, i + |t| + 2);
  }

  lemma WriteItemsStarts(items: seq<Doc>)
    requires items != []
    ensures |WriteItems(items)| > 0 && WriteItems(items)[0] == Write(items[0])[0]
  {
    WriteStarts(items[0]);
  }

  lemma WriteMembersStarts(members: seq<(string, Doc)>)
    requires members != []
    ensures |WriteMembers(members)| > 0 && WriteMembers(members)[0] == '"'
  {
  }

  /**
   * A written text, found at position `i` of any text, reads back as the
   * value it stands for and ends where the writing ends.
   */
  lemma {:induction false} ParseWritten(s: string, i: nat, d: Doc)
    requires Plain(d)
    requires At(s, i, Write(d))
    requires d.DInt? ==> EndsNumber(s, i + |Write(d)|)
    ensures ParseValue(s, i) == Some((ToJson(d), i + |Write(d)|))
    decreases d, 2
  {
    match d
    case DStr(t) => StringWritten(s, i, t);
    case DInt(n) => ParseWrittenInt(s, i, n);
    case DArr(items) =>
      ArrayWritten(s, i, items);
      ValueCombine(ParseValue(s, i), JArray(ItemsJson(items)), ToJson(d),
                   i + |WriteItems(items)| + 2, i + |Write(d)|);
    case DObj(members) =>
      ObjectWritten(s, i, members);
      ValueCombine(ParseValue(s, i), JObject(MembersInto(map[], members)), ToJson(d),
                   i + |WriteMembers(members)| + 2, i + |Write(d)|);
  }

  /** Restating a read value and its end in another form. */
  lemma ValueCombine(p: Option<(Json, nat)>, v1: Json, v2: Json, e1: nat, e2: nat)
    requires p == Some((v1, e1)) && v1 == v2 && e1 == e2
    ensures p == Some((v2, e2))
  {
  }

  lemma {:induction false} ArrayWritten(s: string, i: nat, items: seq<Doc>)
    requires PlainItems(items)
    requires At(s, i, "[" + WriteItems(items) + "]")
    ensures ParseValue(s, i) == Some((JArray(ItemsJson(items)), i + |WriteItems(items)| + 2))
    decreases items, 4
  {
    assert s[i] == '[' && At(s, i + 1, WriteItems(items) + "]") by {
      assert "[" + WriteItems(items) + "]" == "[" + (WriteItems(items) + "]");
      AtSplit(s, i, "[", WriteItems(items) + "]");
      AtChar(s, i, "[", 0);
    }
    if items == [] {
      assert s[i + 1] == ']' by { AtChar(s, i + 1, "]", 0); }
      EmptyArrayRead(s, i);
      ValueCombine(ParseValue(s, i), JArray([]), JArray(ItemsJson(items)), i + 2, i + |WriteItems(items)| + 2);
    } else {
      ElementsWritten(s, i, items);
    }
  }

  /** The elements of a non-empty written array, read after its `[`. */
  lemma {:induction false} ElementsWritten(s: string, i: nat, items: seq<Doc>)
    requires items != [] && PlainItems(items)
    requires i < |s| && s[i] == '[' && At(s, i + 1, WriteItems(items) + "]")
    ensures ParseValue(s, i) == Some((JArray(ItemsJson(items)), i + |WriteItems(items)| + 2))
    decreases items, 3
  {
    ItemsOpen(s, i + 1, items);
    ParseWrittenItems(s, i + 1, items, []);
    ArrayRead(s, i, JArray(ItemsInto([], items)), i + 1 + |WriteItems(items)| + 1);
    ItemsIntoEmpty(items);
    ValueCombine(ParseValue(s, i), JArray(ItemsInto([], items)), JArray(ItemsJson(items)),
                 i + 1 + |WriteItems(items)| + 1, i + |WriteItems(items)| + 2);
  }

  /** `[]` reads as the empty array. */
  lemma EmptyArrayRead(s: string, i: nat)
    requires i + 1 < |s| && s[i] == '[' && s[i + 1] == ']'
    ensures ParseValue(s, i) == Some((JArray([]), i + 2))
  {
    ValueIsArray(s, i);
    SkipWsAt(s, i + 1);
  }

  /** An array whose first element starts right after the `[` reads its elements from there. */
  lemma ArrayRead(s: string, i: nat, v: Json, e: nat)
    requires i + 1 < |s| && s[i] == '[' && !IsWs(s[i + 1]) && s[i + 1] != ']'
    requires ParseElements(s, i + 1, []) == Some((v, e))
    ensures ParseValue(s, i) == Some((v, e))
  {
    ValueIsArray(s, i);
    SkipWsAt(s, i + 1);
  }

  lemma {:induction false} ParseWrittenItems(s: string, i: nat, items: seq<Doc>, acc: seq<Json>)
    requires items != [] && PlainItems(items)
    requires At(s, i, WriteItems(items) + "]")
    ensures ParseElements(s, i, acc) == Some((JArray(ItemsInto(acc, items)), i + |WriteItems(items)| + 1))
    decreases items, 2
  {
    var k := ItemsHead(s, i, items, acc);
    if |items| > 1 {
      ItemsRestWritten(s, i, items, acc, k);
    } else {
      assert ItemsInto(acc, items) == ItemsInto(acc + [ToJson(items[0])], []);
      ValueCombine(ParseElements(s, i, acc), JArray(acc + [ToJson(items[0])]), JArray(ItemsInto(acc, items)),
                      k + 1, i + |WriteItems(items)| + 1);
    }
  }

  /** After the first of several elements, the others are read into the grown `acc`. */
  lemma {:induction false} ItemsRestWritten(s: string, i: nat, items: seq<Doc>, acc: seq<Json>, k: nat)
    requires |items| > 1 && PlainItems(items) && i <= |s|
    requires k + 1 + |WriteItems(items[1..])| == i + |WriteItems(items)|
    requires At(s, k + 1, WriteItems(items[1..]) + "]")
    requires ParseElements(s, i, acc) == ParseElements(s, k + 1, acc + [ToJson(items[0])])
    ensures ParseElements(s, i, acc) == Some((JArray(ItemsInto(acc, items)), i + |WriteItems(items)| + 1))
    decreases items, 1
  {
    ParseWrittenItems(s, k + 1, items[1..], acc + [ToJson(items[0])]);
    ValueCombine(ParseElements(s, i, acc), JArray(ItemsInto(acc + [ToJson(items[0])], items[1..])),
                    JArray(ItemsInto(acc, items)), k + 1 + |WriteItems(items[1..])| + 1, i + |WriteItems(items)| + 1);
  }

  /** Collecting into an empty start gives the items' values. */
  lemma ItemsIntoEmpty(items: seq<Doc>)
    ensures ItemsInto([], items) == ItemsJson(items)
  {
    ItemsIntoAppends([], items);
    assert [] + ItemsJson(items) == ItemsJson(items);
  }

  lemma {:induction false} ItemsIntoAppends(acc: seq<Json>, items: seq<Doc>)
    ensures ItemsInto(acc, items) == acc + ItemsJson(items)
    decreases items
  {
    if items != [] {
      ItemsIntoAppends(acc + [ToJson(items[0])], items[1..]);
      assert acc + [ToJson(items[0])] + ItemsJson(items[1..]) == acc + ItemsJson(items);
    }
  }

  /** The first written element read into `acc`, and where reading goes on. */
  lemma {:induction false} ItemsHead(s: string, i: nat, items: seq<Doc>, acc: seq<Json>) returns (k: nat)
    requires items != [] && PlainItems(items)
    requires At(s, i, WriteItems(items) + "]")
    ensures k == i + |Write(items[0])| && k < |s|
    ensures |items| == 1 ==> |WriteItems(items)| == |Write(items[0])|
    ensures |items| == 1 ==> ParseElements(s, i, acc) == Some((JArray(acc + [ToJson(items[0])]), k + 1))
    ensures |items| > 1 ==> |WriteItems(items)| == |Write(items[0])| + 1 + |WriteItems(items[1..])|
    ensures |items| > 1 ==> At(s, k + 1, WriteItems(items[1..]) + "]")
    ensures |items| > 1 ==> ParseElements(s, i, acc) == ParseElements(s, k + 1, acc + [ToJson(items[0])])
    decreases items, 0
  {
    k := ItemsLayout(s, i, items);
    ParseWritten(s, i, items[0]);
    SkipWsAt(s, k);
    ElementStep(s, i, ToJson(items[0]), k, acc);
    if |items| > 1 {
      ItemsOpen(s, k + 1, items[1..]);
    }
  }

  /** Where the first element of written elements ends, and what follows it. */
  lemma ItemsLayout(s: string, i: nat, items: seq<Doc>) returns (k: nat)
    requires items != [] && At(s, i, WriteItems(items) + "]")
    ensures k == i + |Write(items[0])| && At(s, i, Write(items[0]))
    ensures k < |s| && EndsNumber(s, k)
    ensures s[k] == (if |items| == 1 then ']' else ',')
    ensures |items| == 1 ==> |WriteItems(items)| == |Write(items[0])|
    ensures |items| > 1 ==> |WriteItems(items)| == |Write(items[0])| + 1 + |WriteItems(items[1..])|
    ensures |items| > 1 ==> At(s, k + 1, WriteItems(items[1..]) + "]")
  {
    var first := Write(items[0]);
    k := i + |first|;
    var rest := if |items| == 1 then "]" else "," + (WriteItems(items[1..]) + "]");
    assert WriteItems(items) + "]" == first + rest;
    AtSplit(s, i, first, rest);
    AtChar(s, k, rest, 0);
    if |items| > 1 {
      AtSplit(s, k, ",", WriteItems(items[1..]) + "]");
    }
  }

  /** Written elements open with a character that is not white space. */
  lemma ItemsOpen(s: string, i: nat, items: seq<Doc>)
    requires items != [] && At(s, i, WriteItems(items) + "]")
    ensures i < |s| && !IsWs(s[i]) && s[i] != ']' && SkipWs(s, i) == i
  {
    WriteItemsStarts(items);
    WriteStarts(items[0]);
    AtChar(s, i, WriteItems(items) + "]", 0);
    SkipWsAt(s, i);
  }

  /** One element read at `i`, followed by `,` or `]` at `k`. */
  lemma ElementStep(s: string, i: nat, v: Json, k: nat, acc: seq<Json>)
    requires i <= |s| && ParseValue(s, i) == Some((v, k))
    requires k < |s| && (s[k] == ',' || s[k] == ']') && SkipWs(s, k) == k
    ensures ParseElements(s, i, acc) ==
      if s[k] == ']' then Some((JArray(acc + [v]), k + 1))
      else ParseElements(s, SkipWs(s, k + 1), acc + [v])
  {
    assert ParseElement(s, i) == Some((v, k));
  }

  lemma {:induction false} ObjectWritten(s: string, i: nat, members: seq<(string, Doc)>)
    requires PlainMembers(members)
    requires At(s, i, "{" + WriteMembers(members) + "}")
    ensures ParseValue(s, i) == Some((JObject(MembersInto(map[], members)), i + |WriteMembers(members)| + 2))
    decreases members, 3
  {
    assert s[i] == '{' && At(s, i + 1, WriteMembers(members) + "}") by {
      assert "{" + WriteMembers(members) + "}" == "{" + (WriteMembers(members) + "}");
      AtSplit(s, i, "{", WriteMembers(members) + "}");
      AtChar(s, i, "{", 0);
    }
    ValueIsObject(s, i);
    if members == [] {
      assert s[i + 1] == '}' by { AtChar(s, i + 1, "}", 0); }
    } else {
      MembersOpen(s, i + 1, members);
      ParseWrittenMembers(s, i + 1, members, map[]);
    }
  }

  /** The value of one member reads back where the member writes it. */
  lemma {:induction false} MemberValueWritten(s: string, i: nat, m: (string, Doc))
    requires PlainMember(m)
    requires At(s, i, Write(m.1))
    requires i + |Write(m.1)| < |s| && (s[i + |Write(m.1)|] == ',' || s[i + |Write(m.1)|] == '}')
    ensures ParseValue(s, i) == Some((MemberValue(m), i + |Write(m.1)|))
    decreases m, 3
  {
    ParseWritten(s, i, m.1);
  }

  lemma SkipWsAt(s: string, k: nat)
    requires k < |s| && !IsWs(s[k])
    ensures SkipWs(s, k) == k
  {
  }

  /** One `"key":value` member read at `i`. */
  lemma MemberAt(s: string, i: nat, key: string, k: nat, value: Json, k3: nat)
    requires i < |s| && s[i] == '"'
    requires ParseStringBody(s, i + 1) == Some((key, k))
    requires SkipWs(s, k) == k && k < |s| && s[k] == ':'
    requires SkipWs(s, k + 1) == k + 1
    requires ParseValue(s, k + 1) == Some((value, k3))
    requires SkipWs(s, k3) == k3
    ensures ParseMember(s, i) == Some((key, value, k3))
  {
  }

  /** The members after one that ends at `k` with `,` or `}`. */
  lemma MemberStep(s: string, i: nat, key: string, value: Json, k: nat, acc: map<string, Json>)
    requires i <= |s| && ParseMember(s, i) == Some((key, value, k))
    requires k < |s| && (s[k] == ',' || s[k] == '}')
    ensures ParseMembers(s, i, acc) ==
      if s[k] == '}' then Some((JObject(acc[key := value]), k + 1))
      else ParseMembers(s, SkipWs(s, k + 1), acc[key := value])
  {
  }

  lemma {:induction false} ParseWrittenMembers(s: string, i: nat, members: seq<(string, Doc)>, acc: map<string, Json>)
    requires members != [] && PlainMembers(members)
    requires At(s, i, WriteMembers(members) + "}")
    ensures ParseMembers(s, i, acc) == Some((JObject(MembersInto(acc, members)), i + |WriteMembers(members)| + 1))
    decreases members, 2
  {
    var k3 := MembersHead(s, i, members, acc);
    if |members| > 1 {
      MembersRestWritten(s, i, members, acc, k3);
    } else {
      MembersIntoOne(acc, members);
      ValueCombine(ParseMembers(s, i, acc), JObject(acc[members[0].0 := MemberValue(members[0])]),
                   JObject(MembersInto(acc, members)), k3 + 1, i + |WriteMembers(members)| + 1);
    }
  }

  /** After the first of several members, the others are read into the grown `acc`. */
  lemma {:induction false} MembersRestWritten(s: string, i: nat, members: seq<(string, Doc)>, acc: map<string, Json>, k3: nat)
    requires |members| > 1 && PlainMembers(members) && i <= |s|
    requires k3 + 1 + |WriteMembers(members[1..])| == i + |WriteMembers(members)|
    requires At(s, k3 + 1, WriteMembers(members[1..]) + "}")
    requires ParseMembers(s, i, acc) == ParseMembers(s, k3 + 1, acc[members[0].0 := MemberValue(members[0])])
    ensures ParseMembers(s, i, acc) == Some((JObject(MembersInto(acc, members)), i + |WriteMembers(members)| + 1))
    decreases members, 1
  {
    var acc' := acc[members[0].0 := MemberValue(members[0])];
    ParseWrittenMembers(s, k3 + 1, members[1..], acc');
    ValueCombine(ParseMembers(s, i, acc), JObject(MembersInto(acc', members[1..])), JObject(MembersInto(acc, members)),
                 k3 + 1 + |WriteMembers(members[1..])| + 1, i + |WriteMembers(members)| + 1);
  }

  /** The first written member read into `acc`, and where reading goes on. */
  lemma MembersHead(s: string, i: nat, members: seq<(string, Doc)>, acc: map<string, Json>) returns (k3: nat)
    requires members != [] && PlainMembers(members)
    requires At(s, i, WriteMembers(members) + "}")
    ensures k3 < |s|
    ensures |members| == 1 ==> |WriteMembers(members)| == k3 - i
    ensures |members| > 1 ==> |WriteMembers(members)| == k3 - i + 1 + |WriteMembers(members[1..])|
    ensures |members| > 1 ==> At(s, k3 + 1, WriteMembers(members[1..]) + "}")
    ensures ParseMembers(s, i, acc) ==
      if |members| == 1 then Some((JObject(acc[members[0].0 := MemberValue(members[0])]), k3 + 1))
      else ParseMembers(s, k3 + 1, acc[members[0].0 := MemberValue(members[0])])
    decreases members, 0
  {
    k3 := MembersSplit(s, i, members);
    MemberWritten(s, i, members[0]);
    MemberStep(s, i, members[0].0, MemberValue(members[0]), k3, acc);
  }

  lemma MembersIntoOne(acc: map<string, Json>, members: seq<(string, Doc)>)
    requires |members| == 1
    ensures MembersInto(acc, members) == acc[members[0].0 := MemberValue(members[0])]
  {
    assert members[1..] == [];
  }

  /** A written member, followed by `,` or `}`, reads back as its key and value. */
  lemma {:induction false} MemberWritten(s: string, i: nat, m: (string, Doc))
    requires PlainMember(m) && At(s, i, WriteMember(m))
    requires i + |WriteMember(m)| < |s| && (s[i + |WriteMember(m)|] == ',' || s[i + |WriteMember(m)|] == '}')
    ensures ParseMember(s, i) == Some((m.0, MemberValue(m), i + |WriteMember(m)|))
    decreases m, 4
  {
    var k := MemberLayout(s, i, m);
    var k3 := k + 1 + |Write(m.1)|;
    assert k3 == i + |WriteMember(m)|;
    PlainStringBody(s, i + 1, m.0);
    MemberValueWritten(s, k + 1, m);
    SkipWsAt(s, k);
    SkipWsAt(s, k3);
    MemberAt(s, i, m.0, k, MemberValue(m), k3);
  }

  /** Where the first written member ends, and what follows it. */
  lemma MembersSplit(s: string, i: nat, members: seq<(string, Doc)>) returns (k3: nat)
    requires members != [] && At(s, i, WriteMembers(members) + "}")
    ensures k3 == i + |WriteMember(members[0])| && At(s, i, WriteMember(members[0]))
    ensures k3 < |s| && s[k3] == (if |members| == 1 then '}' else ',')
    ensures |members| == 1 ==> |WriteMembers(members)| == k3 - i
    ensures |members| > 1 ==> |WriteMembers(members)| == k3 - i + 1 + |WriteMembers(members[1..])|
    ensures |members| > 1 ==> At(s, k3 + 1, WriteMembers(members[1..]) + "}")
  {
    var first := WriteMember(members[0]);
    var rest := if |members| == 1 then "}" else "," + (WriteMembers(members[1..]) + "}");
    k3 := i + |first|;
    assert WriteMembers(members) + "}" == first + rest;
    AtSplit(s, i, first, rest);
    AtChar(s, k3, rest, 0);
    if |members| > 1 {
      AtSplit(s, k3, ",", WriteMembers(members[1..]) + "}");
    }
  }

  /** Where the key, the colon and the value of a written member lie. */
  lemma MemberLayout(s: string, i: nat, m: (string, Doc)) returns (k: nat)
    requires At(s, i, WriteMember(m))
    ensures k == i + |m.0| + 2 && |WriteMember(m)| == k + 1 + |Write(m.1)| - i
    ensures i < |s| && s[i] == '"' && At(s, i + 1, m.0 + "\"")
    ensures k < |s| && s[k] == ':' && At(s, k + 1, Write(m.1))
    ensures k + 1 < |s| && !IsWs(s[k + 1]) && SkipWs(s, k + 1) == k + 1
  {
    var key := m.0;
    var value := m.1;
    k := i + |key| + 2;
    assert WriteMember(m) == "\"" + (key + "\"") + (":" + Write(value));
    AtSplit(s, i, "\"" + (key + "\""), ":" + Write(value));
    AtSplit(s, i, "\"", key + "\"");
    AtChar(s, i, "\"", 0);
    AtSplit(s, k, ":", Write(value));
    AtChar(s, k, ":", 0);
    WriteStarts(value);
    AtChar(s, k + 1, Write(value), 0);
    SkipWsAt(s, k + 1);
  }

  /** Written members open with the quote of their first key. */
  lemma MembersOpen(s: string, i: nat, members: seq<(string, Doc)>)
    requires members != [] && At(s, i, WriteMembers(members) + "}")
    ensures i < |s| && s[i] == '"' && SkipWs(s, i) == i
  {
    WriteMembersStarts(members);
    AtChar(s, i, WriteMembers(members) + "}", 0);
    SkipWsAt(s, i);
  }

  /** `json.loads` reads back what the writer wrote. */
  lemma LoadsWrite(d: Doc)
    requires Plain(d)
    ensures Loads(Write(d)) == Some(ToJson(d))
  {
    var s := Write(d);
    AtRest(s, 0);
    assert s[0..] == s;
    WriteStarts(d);
    assert SkipWs(s, 0) == 0;
    ParseWritten(s, 0, d);
  }
}
