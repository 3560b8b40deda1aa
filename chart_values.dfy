/**
 * The untyped nested key/value tree that the provisioning engine's chart
 * templating consumes (a Go `map[string]interface{}`).
 */
module ChartValues {
  import opened Wrappers
  import opened OutputKeys

  datatype Value =
    | Map(entries: map<string, Value>)
    | Str(s: string)
    | Bool(b: bool)
    | Int(i: int)
    | StrList(items: seq<string>)
    /** One of the opaque `TerraformerOutputKey*` string constants. */
    | KeyRef(key: OutputKey)

  /** The value found by following `path` from `v`, if every step names an entry of a map. */
  function Get(v: Value, path: seq<string>): Option<Value>
    decreases |path|
  {
    if path == [] then Some(v)
    else match v
      case Map(m) => if path[0] in m then Get(m[path[0]], path[1..]) else None
      case _ => None
  }

  /** The entry `key` of `v`, if `v` is a map that has one. */
  function Child(v: Value, key: string): Option<Value>
  {
    if v.Map? && key in v.entries then Some(v.entries[key]) else None
  }

  /** A path of one entry name is one step. */
  lemma GetOne(v: Value, a: string)
    ensures Get(v, [a]) == Child(v, a)
  {
    assert [a][1..] == [];
  }

  /** A path of two entry names is two steps. */
  lemma GetTwo(v: Value, a: string, b: string)
    ensures Get(v, [a, b]) == if Child(v, a).Some? then Child(Child(v, a).value, b) else None
  {
    assert [a, b][1..] == [b];
    if Child(v, a).Some? {
      GetOne(Child(v, a).value, b);
    }
  }

  /** The entry names of the map found at `path`, or none if there is no map there. */
  function KeysAt(v: Value, path: seq<string>): Option<set<string>>
  {
    match Get(v, path)
    case Some(Map(m)) => Some(m.Keys)
    case _ => None
  }
}
