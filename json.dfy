/**
 * JSON values as the backend sees them once decoded, and the few pieces of
 * Python semantics the handlers rely on: `dict.get`, truthiness and `str()`.
 * Floating-point numbers are not part of this model.
 */
module Json {

  datatype Json =
    | JNull
    | JBool(b: bool)
    | JInt(i: int)
    | JStr(s: string)
    | JList(items: seq<Json>)
    | JObject(fields: map<string, Json>)

  /** A JSON object, i.e. a Python `dict[str, Any]`. */
  type Record = map<string, Json>

  /** `d.get(key)`: the value under `key`, or `None` when the key is absent. */
  function Get(r: Record, key: string): Json
  {
    if key in r then r[key] else JNull
  }

  /** Python truthiness of a decoded JSON value. */
  predicate Truthy(j: Json)
  {
    match j
    case JNull => false
    case JBool(b) => b
    case JInt(i) => i != 0
    case JStr(s) => s != ""
    case JList(items) => items != []
    case JObject(fields) => fields != map[]
  }

  /** Whether Python can hash the value (lists and dicts cannot be set members). */
  predicate Hashable(j: Json)
  {
    !j.JList? && !j.JObject?
  }

  function DigitChar(d: nat): char
    requires d < 10
  {
    "0123456789"[d]
  }

  /** Decimal representation of a natural number. */
  function NatToString(n: nat): (s: string)
    ensures |s| >= 1
    decreases n
  {
    if n < 10 then [DigitChar(n)] else NatToString(n / 10) + [DigitChar(n % 10)]
  }

  /** Distinct numbers have distinct decimal representations. */
  lemma {:induction false} NatToStringInjective(a: nat, b: nat)
    requires NatToString(a) == NatToString(b)
    ensures a == b
    decreases a
  {
    var s := NatToString(a);
    if a >= 10 && b >= 10 {
      assert s[..|s| - 1] == NatToString(a / 10);
      assert NatToString(b)[..|s| - 1] == NatToString(b / 10);
      NatToStringInjective(a / 10, b / 10);
      assert s[|s| - 1] == DigitChar(a % 10) && s[|s| - 1] == DigitChar(b % 10);
    } else if a < 10 && b < 10 {
      assert s[0] == DigitChar(a) && s[0] == DigitChar(b);
    }
  }

  /**
   * Python's `str()` of a scalar JSON value. Containers would print their
   * Python repr, which this model does not reproduce: they yield "".
   */
  function StrOf(j: Json): string
  {
    match j
    case JNull => "None"
    case JBool(b) => if b then "True" else "False"
    case JInt(i) => if i < 0 then "-" + NatToString(-i) else NatToString(i)
    case JStr(s) => s
    case JList(_) => ""
    case JObject(_) => ""
  }
}
