/**
 * Python's `json.loads` on a `str`, as CPython's C scanner implements it:
 * whitespace is space, tab, LF and CR; numbers follow
 * `-?(0|[1-9][0-9]*)(\.[0-9]+)?([eE][-+]?[0-9]+)?` with the exponent dropped
 * when no digit follows it; `NaN`, `Infinity` and `-Infinity` are accepted;
 * strings are strict (no raw control characters); a repeated object key keeps
 * its last value; anything but whitespace after the value is "Extra data".
 * Every parse error is `None`: the validator does not look at the message.
 *
 * Positions are absolute indices into the text; each parser returns the value
 * and the index just past it.
 */
module JsonDecode {
  import opened Wrappers
  import opened JsonData

  predicate IsWs(c: char) { c == ' ' || c == '\t' || c == '\n' || c == '\r' }

  predicate IsDigit(c: char) { '0' <= c <= '9' }

  function DigitValue(c: char): nat {
    if IsDigit(c) then c as int - '0' as int else 0
  }

  /** The value of a run of decimal digits. */
  function DigitsValue(ds: string): nat {
    if ds == [] then 0 else 10 * DigitsValue(ds[..|ds| - 1]) + DigitValue(ds[|ds| - 1])
  }

  function SkipWs(s: string, i: nat): (j: nat)
    requires i <= |s|
    ensures i <= j <= |s|
    ensures forall k :: i <= k < j ==> IsWs(s[k])
    ensures j < |s| ==> !IsWs(s[j])
    decreases |s| - i
  {
    if i < |s| && IsWs(s[i]) then SkipWs(s, i + 1) else i
  }

  function DigitsEnd(s: string, i: nat): (j: nat)
    requires i <= |s|
    ensures i <= j <= |s|
    ensures forall k :: i <= k < j ==> IsDigit(s[k])
    ensures j < |s| ==> !IsDigit(s[j])
    decreases |s| - i
  {
    if i < |s| && IsDigit(s[i]) then DigitsEnd(s, i + 1) else i
  }

  predicate HasAt(s: string, i: nat, lit: string) {
    i + |lit| <= |s| && s[i..i + |lit|] == lit
  }

  /** The end of the integer part `0 | [1-9][0-9]*` whose first digit is at `p`. */
  function IntEnd(s: string, p: nat): (r: nat)
    requires p < |s| && IsDigit(s[p])
    ensures p < r <= |s|
  {
    if s[p] == '0' then p + 1 else DigitsEnd(s, p + 1)
  }

  /** The end of a fraction `.[0-9]+` at `k`, or `k` when none is there. */
  function FracEnd(s: string, k: nat): (r: nat)
    requires k <= |s|
    ensures k <= r <= |s|
  {
    if k + 1 < |s| && s[k] == '.' && IsDigit(s[k + 1]) then DigitsEnd(s, k + 2) else k
  }

  /** The end and value of an exponent `[eE][-+]?[0-9]+` at `k`, or `(k, 0)` when none is there. */
  function ExpPart(s: string, k: nat): (r: (nat, int))
    requires k <= |s|
    ensures k <= r.0 <= |s|
  {
    if k < |s| && (s[k] == 'e' || s[k] == 'E') then
      var signed := k + 1 < |s| && (s[k + 1] == '+' || s[k + 1] == '-');
      var q := if signed then k + 2 else k + 1;
      if q < |s| && IsDigit(s[q]) then
        var end := DigitsEnd(s, q);
        var v: int := DigitsValue(s[q..end]);
        (end, if signed && s[k + 1] == '-' then -v else v)
      else (k, 0)
    else (k, 0)
  }

  /** A number token starting at `i` (a `-` or a digit). */
  function ParseNumber(s: string, i: nat): (r: Option<(Json, nat)>)
    requires i < |s|
    ensures r.Some? ==> i < r.value.1 <= |s|
  {
    var p := if s[i] == '-' then i + 1 else i;
    if p >= |s| || !IsDigit(s[p]) then None
    else
      var intEnd := IntEnd(s, p);
      var fracEnd := FracEnd(s, intEnd);
      var exponent := ExpPart(s, fracEnd);
      var fraction := if fracEnd > intEnd then s[intEnd + 1..fracEnd] else "";
      var magnitude: int := DigitsValue(s[p..intEnd] + fraction);
      var mantissa: int := if s[i] == '-' then -magnitude else magnitude;
      Some((JNumber(mantissa, exponent.1 - |fraction|), exponent.0))
  }

  function HexValue(c: char): Option<nat> {
    if '0' <= c <= '9' then Some(c as int - '0' as int)
    else if 'a' <= c <= 'f' then Some(c as int - 'a' as int + 10)
    else if 'A' <= c <= 'F' then Some(c as int - 'A' as int + 10)
    else None
  }

  /** The four hex digits of a `\u` escape, starting at `i`. */
  function Hex4(s: string, i: nat): (r: Option<nat>)
    ensures r.Some? ==> i + 4 <= |s| && r.value < 0x10000
  {
    if i + 4 > |s| then None
    else match (HexValue(s[i]), HexValue(s[i + 1]), HexValue(s[i + 2]), HexValue(s[i + 3]))
      case (Some(a), Some(b), Some(c), Some(d)) =>
        assert a < 16 && b < 16 && c < 16 && d < 16;
        Some(((a * 16 + b) * 16 + c) * 16 + d)
      case _ => None
  }

  /** The escape after a backslash; `i` is just past the backslash. */
  function ParseEscape(s: string, i: nat): (r: Option<(char, nat)>)
    requires i <= |s|
    ensures r.Some? ==> i < r.value.1 <= |s|
  {
    if i >= |s| then None
    else if s[i] == '"' then Some(('"', i + 1))
    else if s[i] == '\\' then Some(('\\', i + 1))
    else if s[i] == '/' then Some(('/', i + 1))
    else if s[i] == 'b' then Some(('\U{8}', i + 1))
    else if s[i] == 'f' then Some(('\U{C}', i + 1))
    else if s[i] == 'n' then Some(('\n', i + 1))
    else if s[i] == 'r' then Some(('\r', i + 1))
    else if s[i] == 't' then Some(('\t', i + 1))
    else if s[i] != 'u' then None
    else match Hex4(s, i + 1)
      case None => None
      case Some(c) =>
        if 0xD800 <= c <= 0xDBFF then
          // a high surrogate combines with a following `\uDC00`..`\uDFFF`
          if i + 11 <= |s| && s[i + 5] == '\\' && s[i + 6] == 'u' then
            match Hex4(s, i + 7)
            case Some(c2) =>
              if 0xDC00 <= c2 <= 0xDFFF then
                Some(((0x10000 + (c - 0xD800) * 0x400 + (c2 - 0xDC00)) as char, i + 11))
              else None
            case None => None
          else None
        else if 0xDC00 <= c <= 0xDFFF then None
        else Some((c as char, i + 5))
  }

  /** The rest of a string literal; `i` is just past the opening quote or a character already read. */
  function ParseStringBody(s: string, i: nat): (r: Option<(string, nat)>)
    requires i <= |s|
    ensures r.Some? ==> i < r.value.1 <= |s|
    decreases |s| - i
  {
    if i >= |s| then None
    else if s[i] == '"' then Some(("", i + 1))
    else if s[i] == '\\' then
      match ParseEscape(s, i + 1)
      case None => None
      case Some((c, k)) =>
        match ParseStringBody(s, k)
        case None => None
        case Some((rest, j)) => Some(([c] + rest, j))
    else if s[i] < ' ' then None
    else
      match ParseStringBody(s, i + 1)
      case None => None
      case Some((rest, j)) => Some(([s[i]] + rest, j))
  }

  /** One JSON value starting exactly at `i` (no leading whitespace). */
  function ParseValue(s: string, i: nat): (r: Option<(Json, nat)>)
    requires i <= |s|
    ensures r.Some? ==> i < r.value.1 <= |s|
    decreases |s| - i, 0
  {
    if i == |s| then None
    else if s[i] == '"' then
      match ParseStringBody(s, i + 1)
      case None => None
      case Some((str, j)) => Some((JString(str), j))
    else if s[i] == '{' then ParseObject(s, i + 1)
    else if s[i] == '[' then ParseArray(s, i + 1)
    else if s[i] == 'n' && HasAt(s, i, "null") then Some((JNull, i + 4))
    else if s[i] == 't' && HasAt(s, i, "true") then Some((JBool(true), i + 4))
    else if s[i] == 'f' && HasAt(s, i, "false") then Some((JBool(false), i + 5))
    else if s[i] == 'N' && HasAt(s, i, "NaN") then Some((JNonFinite(NaN), i + 3))
    else if s[i] == 'I' && HasAt(s, i, "Infinity") then Some((JNonFinite(PosInfinity), i + 8))
    else if s[i] == '-' && HasAt(s, i, "-Infinity") then Some((JNonFinite(NegInfinity), i + 9))
    else ParseNumber(s, i)
  }

  /** An object; `i` is just past the `{`. */
  function ParseObject(s: string, i: nat): (r: Option<(Json, nat)>)
    requires i <= |s|
    ensures r.Some? ==> i < r.value.1 <= |s|
    decreases |s| - i, 2
  {
    var j := SkipWs(s, i);
    if j < |s| && s[j] == '}' then Some((JObject(map[]), j + 1))
    else ParseMembers(s, j, map[])
  }

  /**
   * One `"key": value` member at `i`: the key, the value and the index past
   * the whitespace that follows the value.
   */
  function ParseMember(s: string, i: nat): (r: Option<(string, Json, nat)>)
    requires i <= |s|
    ensures r.Some? ==> i < r.value.2 <= |s|
    decreases |s| - i, 0
  {
    if i >= |s| || s[i] != '"' then None
    else match ParseStringBody(s, i + 1)
      case None => None
      case Some((key, k)) =>
        var k1 := SkipWs(s, k);
        if k1 >= |s| || s[k1] != ':' then None
        else
          match ParseValue(s, SkipWs(s, k1 + 1))
          case None => None
          case Some((v, k3)) => Some((key, v, SkipWs(s, k3)))
  }

  /** Members up to the closing `}`; `i` is where the next key's quote must be. A repeated key keeps its last value. */
  function ParseMembers(s: string, i: nat, acc: map<string, Json>): (r: Option<(Json, nat)>)
    requires i <= |s|
    ensures r.Some? ==> i < r.value.1 <= |s|
    decreases |s| - i, 1
  {
    match ParseMember(s, i)
    case None => None
    case Some((key, v, k)) =>
      if k < |s| && s[k] == '}' then Some((JObject(acc[key := v]), k + 1))
      else if k < |s| && s[k] == ',' then ParseMembers(s, SkipWs(s, k + 1), acc[key := v])
      else None
  }

  /** An array; `i` is just past the `[`. */
  function ParseArray(s: string, i: nat): (r: Option<(Json, nat)>)
    requires i <= |s|
    ensures r.Some? ==> i < r.value.1 <= |s|
    decreases |s| - i, 3
  {
    var j := SkipWs(s, i);
    if j < |s| && s[j] == ']' then Some((JArray([]), j + 1))
    else ParseElements(s, j, [])
  }

  /** One element at `i` and the index past the whitespace that follows it. */
  function ParseElement(s: string, i: nat): (r: Option<(Json, nat)>)
    requires i <= |s|
    ensures r.Some? ==> i < r.value.1 <= |s|
    decreases |s| - i, 1
  {
    match ParseValue(s, i)
    case None => None
    case Some((v, k)) => Some((v, SkipWs(s, k)))
  }

  /** Elements up to the closing `]`; `i` is where the next element must start. */
  function ParseElements(s: string, i: nat, acc: seq<Json>): (r: Option<(Json, nat)>)
    requires i <= |s|
    ensures r.Some? ==> i < r.value.1 <= |s|
    decreases |s| - i, 2
  {
    match ParseElement(s, i)
    case None => None
    case Some((v, k)) =>
      if k < |s| && s[k] == ']' then Some((JArray(acc + [v]), k + 1))
      else if k < |s| && s[k] == ',' then ParseElements(s, SkipWs(s, k + 1), acc + [v])
      else None
  }

  /** `json.loads(s)`: one value, optionally surrounded by whitespace, and nothing else. */
  function Loads(s: string): Option<Json> {
    if |s| > 0 && s[0] == '\U{FEFF}' then None
    else
      match ParseValue(s, SkipWs(s, 0))
      case None => None
      case Some((v, j)) => if SkipWs(s, j) == |s| then Some(v) else None
  }
}
