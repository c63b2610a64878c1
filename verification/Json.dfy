/** JSON trees and the text codec the runtime uses for message contents. */
module Json {
  import opened Wrappers

  /** A JSON value. An object keeps its fields in the order its map iterates them. */
  datatype Value =
    | Null
    | Bool(b: bool)
    | Number(repr: string)
    | Str(s: string)
    | Arr(items: seq<Value>)
    | Obj(fields: seq<Field>)

  datatype Field = Field(key: string, value: Value)

  /** The value stored under a key in a list of fields. */
  function Lookup(fields: seq<Field>, key: string): Option<Value> {
    if fields == [] then None
    else if fields[0].key == key then Some(fields[0].value)
    else Lookup(fields[1..], key)
  }

  /** A lookup finds the first field with the key. */
  lemma {:induction false} LookupFirst(fields: seq<Field>, key: string, i: nat)
    requires i <= |fields|
    requires forall j :: 0 <= j < i ==> fields[j].key != key
    requires i < |fields| ==> fields[i].key == key
    ensures Lookup(fields, key) == if i < |fields| then Some(fields[i].value) else None
  {
    if i > 0 {
      LookupFirst(fields[1..], key, i - 1);
    }
  }

  /** `v.get(key)`: only objects have fields. */
  function Get(v: Value, key: string): Option<Value> {
    if v.Obj? then Lookup(v.fields, key) else None
  }

  function AsStr(v: Option<Value>): Option<string> {
    if v.Some? && v.value.Str? then Some(v.value.s) else None
  }

  /** The first of several keys that holds a string (tool_compat's `extract_string`). */
  function FirstString(fields: seq<Field>, keys: seq<string>): Option<string> {
    if keys == [] then None
    else AsStr(Lookup(fields, keys[0])).Or(FirstString(fields, keys[1..]))
  }
}
