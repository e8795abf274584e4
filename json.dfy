/** JSON values as Python's json module and Django's JSONField hold them, and the few
    dict operations the service relies on. */
module JsonValues {

  datatype Option<T> = None | Some(value: T)

  /** A decoded JSON value. Numbers are reals: Python's int/float distinction and
      floating-point rounding are not modelled. */
  datatype Json =
    | JNull
    | JBool(b: bool)
    | JNum(x: real)
    | JStr(s: string)
    | JArr(items: seq<Json>)
    | JObj(fields: map<string, Json>)

  /** A Python dict with string keys, as the service builds and returns them. */
  type Dict = map<string, Json>

  /** Python truthiness of a JSON value (`if value:`). */
  predicate Truthy(j: Json) {
    match j
    case JNull => false
    case JBool(b) => b
    case JNum(x) => x != 0.0
    case JStr(s) => s != ""
    case JArr(a) => a != []
    case JObj(m) => m != map[]
  }

  /** Whether Python can hash the value (lists and dicts cannot be dict keys). */
  predicate Hashable(j: Json) {
    !j.JArr? && !j.JObj?
  }

  /** `d.get(key, default)`. */
  function Get(d: Dict, key: string, default: Json): Json {
    if key in d then d[key] else default
  }

  /** A JSON list of strings. */
  function Strings(ss: seq<string>): (r: Json)
    ensures r.JArr? && |r.items| == |ss|
    ensures forall i :: 0 <= i < |ss| ==> r.items[i] == JStr(ss[i])
  {
    if ss == [] then JArr([]) else JArr([JStr(ss[0])] + Strings(ss[1..]).items)
  }

  /** `str(value)`: strings, None and booleans are spelled as Python spells them; the
      rendering of numbers, lists and dicts is the given `render`. */
  function Str(j: Json, render: Json -> string): string {
    match j
    case JStr(s) => s
    case JNull => "None"
    case JBool(b) => if b then "True" else "False"
    case _ => render(j)
  }

  /** `type(value).__name__` as it appears in Python's error messages; a number is
      spelled `float`, since the int/float distinction is not modelled. */
  function TypeName(j: Json): string {
    match j
    case JNull => "NoneType"
    case JBool(_) => "bool"
    case JNum(_) => "float"
    case JStr(_) => "str"
    case JArr(_) => "list"
    case JObj(_) => "dict"
  }
}
