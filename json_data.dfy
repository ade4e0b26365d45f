/**
 * Decoded JSON values as the store handles them (Python dicts, lists,
 * strings, integers, booleans and None), with the small amount of Python
 * semantics the core relies on: truthiness and `dict.get`.
 */
module JsonData {

  datatype Option<+T> = None | Some(value: T) {
    /** The value, or `default` when there is none. */
    function GetOr(default: T): T {
      match this
      case Some(v) => v
      case None => default
    }
  }

  datatype Result<+T, +E> = Ok(value: T) | Err(error: E)

  /** The Python exceptions the core lets escape (the HTTP layer turns them into a server error). */
  datatype PyError = KeyError(key: string) | TypeError | AttributeError | IndexError | ValueError

  /** A decoded JSON value. Numbers are integers: no floating point is modelled. */
  datatype Json =
    | JNull
    | JBool(b: bool)
    | JNum(n: int)
    | JStr(s: string)
    | JArr(items: seq<Json>)
    | JObj(fields: map<string, Json>)

  /** Python truthiness: None, False, 0, "", [] and {} are false. */
  predicate Truthy(j: Json) {
    match j
    case JNull => false
    case JBool(b) => b
    case JNum(n) => n != 0
    case JStr(s) => s != ""
    case JArr(a) => a != []
    case JObj(m) => m != map[]
  }

  /** `d.get(key)`: the value under `key`, or None. */
  function Get(d: map<string, Json>, key: string): (r: Json)
    ensures key !in d ==> r == JNull
    ensures key in d ==> r == d[key]
  {
    if key in d then d[key] else JNull
  }

  /** `d.get(key, default)`. */
  function GetOrDefault(d: map<string, Json>, key: string, default: Json): (r: Json)
    ensures key !in d ==> r == default
    ensures key in d ==> r == d[key]
  {
    if key in d then d[key] else default
  }

  /** A JSON array of strings. */
  function Strings(ss: seq<string>): (r: Json)
    ensures r.JArr? && |r.items| == |ss|
    ensures forall i :: 0 <= i < |ss| ==> r.items[i] == JStr(ss[i])
  {
    JArr(seq(|ss|, i requires 0 <= i < |ss| => JStr(ss[i])))
  }
}
