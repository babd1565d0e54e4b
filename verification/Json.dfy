/** JSON values as the engine carries them. */
module Json {
  import opened Cursors

  /** Numbers are their rendered tokens; an object is its fields in stored order. */
  datatype Value =
    | Null
    | Bool(b: bool)
    | Number(token: string)
    | String(s: string)
    | Array(items: seq<Value>)
    | Object(fields: seq<(string, Value)>)

  /** The field called `key` of an object, absent for every other value. */
  function Get(v: Value, key: string): Option<Value> {
    if v.Object? then Lookup(v.fields, key) else None
  }

  function Lookup(fields: seq<(string, Value)>, key: string): Option<Value> {
    if fields == [] then None
    else if fields[0].0 == key then Some(fields[0].1)
    else Lookup(fields[1..], key)
  }
}
