/**
 * The values `json.loads` produces, as far as the tool inspects them, and
 * Python's truthiness on them.  `json.loads` itself is not modelled as a
 * parser: callers receive it as a partial function `Loads`.
 */
module Json {
  import opened Base

  /** A decoded JSON value; objects are Python dicts (last duplicate key wins inside `loads`). */
  datatype Json =
    | JNull
    | JBool(b: bool)
    | JInt(i: int)
    | JFloat(r: real)
    | JStr(s: string)
    | JArr(items: seq<Json>)
    | JObj(fields: map<string, Json>)

  /** `json.loads`: Some(value) on success, None where it raises `JSONDecodeError`. */
  type Loads = string -> Option<Json>

  /** Python truthiness of a decoded value (`if x:` / `if not x:`). */
  predicate Truthy(j: Json) {
    match j
    case JNull => false
    case JBool(b) => b
    case JInt(i) => i != 0
    case JFloat(r) => r != 0.0
    case JStr(s) => s != ""
    case JArr(items) => items != []
    case JObj(fields) => fields != map[]
  }

  /** `x or {}` for an optional dict argument (None and `{}` both give `{}`). */
  function OrEmptyDict(x: Option<Json>): Json {
    if x.Some? && Truthy(x.value) then x.value else JObj(map[])
  }

  /** `type(x).__name__`, used in the messages of `AttributeError`. */
  function TypeName(j: Json): string {
    match j
    case JNull => "NoneType"
    case JBool(_) => "bool"
    case JInt(_) => "int"
    case JFloat(_) => "float"
    case JStr(_) => "str"
    case JArr(_) => "list"
    case JObj(_) => "dict"
  }

  /** `key in d` for a dict value. */
  predicate HasKey(j: Json, key: string) {
    j.JObj? && key in j.fields
  }

  /** A dict built from string keys and string values. */
  function StrObj(m: map<string, string>): (r: Json)
    ensures r.JObj? && r.fields.Keys == m.Keys
  {
    JObj(map k | k in m :: JStr(m[k]))
  }

  /** A JSON list of JSON strings. */
  function StrList(ss: seq<string>): (r: Json)
    ensures r.JArr? && |r.items| == |ss|
    ensures forall i :: 0 <= i < |ss| ==> r.items[i] == JStr(ss[i])
  {
    JArr(seq(|ss|, i requires 0 <= i < |ss| => JStr(ss[i])))
  }
}
