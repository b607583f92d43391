/** JSON-shaped values: what the extension stores, what travels in window
    messages, and what the key extractor walks. Objects keep their keys in
    enumeration order, as `Object.keys` returns them. */
module JsonData {
  import opened Wrappers

  datatype Json =
    | JNull
    | JBool(b: bool)
    | JNum(n: real)
    | JStr(s: string)
    | JArr(items: seq<Json>)
    | JObj(fields: seq<(string, Json)>)

  /** JavaScript truthiness of a value (`if (v)`); NaN is not representable. */
  predicate Truthy(j: Json) {
    match j
    case JNull => false
    case JBool(b) => b
    case JNum(n) => n != 0.0
    case JStr(s) => s != ""
    case JArr(_) => true
    case JObj(_) => true
  }

  /** Property read `obj[key]` on an object: the first field with that key
      (a parsed JSON object has each key once); anything else has no such property. */
  function Property(j: Json, key: string): (r: Option<Json>)
    ensures r.Some? ==> j.JObj? && exists i | 0 <= i < |j.fields| :: j.fields[i] == (key, r.value)
    ensures r.None? ==> !j.JObj? || forall i | 0 <= i < |j.fields| :: j.fields[i].0 != key
  {
    if j.JObj? then FieldLookup(j.fields, key) else None
  }

  function FieldLookup(fields: seq<(string, Json)>, key: string): (r: Option<Json>)
    ensures r.Some? ==> exists i | 0 <= i < |fields| :: fields[i] == (key, r.value)
    ensures r.None? ==> forall i | 0 <= i < |fields| :: fields[i].0 != key
  {
    if fields == [] then None
    else if fields[0].0 == key then Some(fields[0].1)
    else FieldLookup(fields[1..], key)
  }
}
