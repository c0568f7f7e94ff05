/** The shape of a decoded YAML document, as the configuration code sees it. */
module Yaml {

  /** A decoded YAML value; a missing key or an explicit `~` both read as `Null` (Go's `nil`). */
  datatype Value =
    | Null
    | Bool(b: bool)
    | Int(i: int)
    | Str(s: string)
    | List(items: seq<Value>)
    | Mapping(entries: map<string, Value>)

  /** A configuration document decoded into `map[string]any`. */
  type Tree = map<string, Value>

  /** Go's map index: the value under `key`, or `nil` when the key is absent. */
  function Lookup(m: map<string, Value>, key: string): (v: Value)
    ensures key in m ==> v == m[key]
    ensures key !in m ==> v == Null
  {
    if key in m then m[key] else Null
  }
}
