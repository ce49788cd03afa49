/**
 * JSON values as the Python SDK sees them after `response.json()`, with the
 * two pieces of Python semantics the SDK leans on: truthiness (`if x:`) and
 * `dict.get(key, default)`.
 */
module Json {
  import opened Wrappers

  /** A decoded JSON document. Numbers are integers only (see README, Left out). */
  datatype Json =
    | JNull
    | JBool(b: bool)
    | JInt(i: int)
    | JStr(s: string)
    | JArr(items: seq<Json>)
    | JObj(fields: map<string, Json>)

  /** Python truthiness: None, False, 0, "", [] and {} are falsy, everything else is truthy. */
  predicate Truthy(j: Json) {
    match j
    case JNull => false
    case JBool(b) => b
    case JInt(i) => i != 0
    case JStr(s) => s != ""
    case JArr(items) => |items| > 0
    case JObj(fields) => |fields| > 0
  }

  /** `d.get(key, default)` on a dict: the stored value if the key is present, else the default. */
  function Get(d: map<string, Json>, key: string, default: Json): (r: Json)
    ensures key in d ==> r == d[key]
    ensures key !in d ==> r == default
  {
    if key in d then d[key] else default
  }

  /** Python `x == 0` for a JSON value: True and False compare as 1 and 0. */
  predicate EqualsZero(j: Json) {
    match j
    case JInt(i) => i == 0
    case JBool(b) => !b
    case _ => false
  }

  /** An optional text argument (`str = None`) as a JSON value: None becomes null. */
  function OptStr(s: Option<string>): (r: Json)
    ensures s.None? <==> r == JNull
  {
    match s
    case None => JNull
    case Some(t) => JStr(t)
  }
}
