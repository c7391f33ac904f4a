/** The JSON-like trees (Python dicts, lists, strings, ...) that the FHIR
    serialisers build and that the JSON columns hold. */
module JsonTree {
  import opened Wrappers
  import opened Text

  /** A Python dict is a `JObj`; its key order is not represented. */
  datatype Json =
    | JNull
    | JBool(b: bool)
    | JNum(n: int)
    | JStr(s: string)
    | JArr(items: seq<Json>)
    | JObj(fields: map<string, Json>)

  /** `d.get(key)` on a dict: None when the key is absent. */
  function DictGet(d: map<string, Json>, key: string): Json
  {
    if key in d then d[key] else JNull
  }

  /** The value under `key` of an object, or null; used to read trees back. */
  function Field(j: Json, key: string): Json
  {
    if j.JObj? then DictGet(j.fields, key) else JNull
  }

  /** The `i`-th element of a list, or null. */
  function Item(j: Json, i: int): Json
  {
    if j.JArr? && 0 <= i < |j.items| then j.items[i] else JNull
  }

  /** Number of elements of a list (0 for anything else). */
  function Length(j: Json): nat
  {
    if j.JArr? then |j.items| else 0
  }

  /** Python truthiness of a JSON value: None, False, 0, "" and empty
      lists and dicts are falsy. */
  predicate JsonTruthy(j: Json)
  {
    match j
    case JNull => false
    case JBool(b) => b
    case JNum(n) => n != 0
    case JStr(s) => s != ""
    case JArr(items) => items != []
    case JObj(fields) => fields != map[]
  }

  /** A `{"system": ..., "value": ...}` object: the shape of both a FHIR
      Identifier and a FHIR ContactPoint. */
  function SystemValue(system: string, value: string): Json
  {
    JObj(map["system" := JStr(system), "value" := JStr(value)])
  }

  /** A FHIR extension carrying a string value. */
  function Extension(url: string, value: string): Json
  {
    JObj(map["url" := JStr(url), "valueString" := JStr(value)])
  }

  /** A nullable string column as a JSON value. */
  function OptStr(o: Option<string>): Json
  {
    if o.Some? then JStr(o.value) else JNull
  }

  /** `str(n)` for any integer. */
  function IntToString(n: int): string
  {
    if n < 0 then "-" + Decimal(-n) else Decimal(n)
  }

  /** The value of `IntToString`'s output: `int(str(n)) == n`. */
  function ParseInt(s: string): int
  {
    if |s| > 0 && s[0] == '-' && AllDigits(s[1..]) then 0 - ParseDigits(s[1..]) as int
    else if AllDigits(s) then ParseDigits(s)
    else 0
  }

  lemma IntToStringRoundTrip(n: int)
    ensures ParseInt(IntToString(n)) == n
  {
    if n < 0 {
      var s := IntToString(n);
      assert s[1..] == Decimal(-n);
      DecimalRoundTrip(-n);
    } else {
      DecimalRoundTrip(n);
    }
  }

  /** `str(v)` (what an f-string inserts) for a value read from a JSON column.
      Strings stand for themselves, None prints as "None", booleans as
      "True"/"False", integers in decimal; the Python rendering of lists and
      dicts is supplied as `repr`. */
  function PyStr(j: Json, repr: Json -> string): (s: string)
    ensures j.JStr? ==> s == j.s
    ensures j == JNull ==> s == "None"
    ensures j.JBool? ==> s == (if j.b then "True" else "False")
    ensures j.JNum? ==> ParseInt(s) == j.n
  {
    match j
    case JNull => "None"
    case JBool(b) => if b then "True" else "False"
    case JNum(n) => IntToStringRoundTrip(n); IntToString(n)
    case JStr(s) => s
    case JArr(_) => repr(j)
    case JObj(_) => repr(j)
  }
}
