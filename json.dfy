/**
 * The JSON-like values the map tools return (what `json.loads` produces),
 * with Python's truthiness and `dict.get(key, default)`.
 */
module JsonValue {

  /** Numbers are kept as exact reals; objects are dictionaries keyed by text. */
  datatype Json =
    | JNull
    | JBool(b: bool)
    | JNumber(n: real)
    | JString(s: string)
    | JArray(items: seq<Json>)
    | JObject(fields: map<string, Json>)

  /** Python's `bool(v)` for a decoded JSON value. */
  predicate Truthy(v: Json) {
    match v
    case JNull => false
    case JBool(b) => b
    case JNumber(n) => n != 0.0
    case JString(s) => s != ""
    case JArray(items) => items != []
    case JObject(fields) => fields != map[]
  }

  /** `d.get(key, default)`. */
  function Get(d: map<string, Json>, key: string, default: Json): Json {
    if key in d then d[key] else default
  }

  /** What `xs[0]` does after a `if not xs: ...` guard has been passed. */
  datatype Head = Empty | Element(item: Json) | Raises

  /**
   * `if not xs: <empty>` followed by `xs[0]` and a `.get` on it: a falsy
   * value is empty; a non-empty list yields its first element; any other
   * truthy value makes the subscript or the `.get` on its result raise
   * (a string's first character, a dict's missing key 0, a number).
   */
  function First(v: Json): (r: Head)
    ensures r.Empty? <==> !Truthy(v)
    ensures r.Element? <==> v.JArray? && |v.items| > 0
    ensures r.Element? ==> r.item == v.items[0]
  {
    if !Truthy(v) then Empty
    else if v.JArray? then Element(v.items[0])
    else Raises
  }
}
