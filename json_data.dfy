/**
 * The values that Python's `json` module (and a YAML loader) hand to the
 * planning core. Numbers are exact decimals `mantissa * 10^exponent`: the
 * model does not distinguish Python `int` from `float` (see README).
 */
module JsonData {

  datatype NonFinite = NaN | PosInfinity | NegInfinity

  datatype Json =
    | JNull
    | JBool(b: bool)
    | JNumber(mantissa: int, exponent: int)
    | JNonFinite(kind: NonFinite)
    | JString(str: string)
    | JArray(items: seq<Json>)
    | JObject(fields: map<string, Json>)

  function Pow10(n: nat): (r: nat)
    ensures r >= 1
  {
    if n == 0 then 1 else 10 * Pow10(n - 1)
  }

  /** jsonschema's "integer" (drafts 6 and later): a number with no fractional part; booleans excluded. */
  predicate IsInteger(v: Json) {
    v.JNumber? && (v.exponent >= 0 || v.mantissa % Pow10(-v.exponent) == 0)
  }

  /** Python truthiness of a decoded value: None, False, 0, "", [] and {} are false. */
  predicate Truthy(v: Json) {
    match v
    case JNull => false
    case JBool(b) => b
    case JNumber(m, _) => m != 0
    case JNonFinite(_) => true
    case JString(s) => s != ""
    case JArray(items) => items != []
    case JObject(fields) => fields != map[]
  }
}
