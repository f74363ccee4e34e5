/** The part of a JSON document (`serde_json::Value`) that the crawler inspects. Object keys are unique,
    as in serde_json's map. */
module Json {
  import opened Basics
  import Text

  datatype Json =
    | JNull
    | JBool(b: bool)
    | JNumber(n: real)
    | JString(s: string)
    | JArray(items: seq<Json>)
    | JObject(fields: map<string, Json>)

  /** `Value::get(key)`: the field of an object; anything that is not an object has no fields. */
  function Get(v: Json, key: string): Option<Json>
  {
    if v.JObject? && key in v.fields then Some(v.fields[key]) else None
  }

  /** `.get(key).and_then(as_str)`: the field, when it is a JSON string. */
  function StrField(v: Json, key: string): Option<string>
  {
    var f := Get(v, key);
    if f.Some? && f.value.JString? then Some(f.value.s) else None
  }

  /** `.get(key).and_then(as_str).and_then(|s| s.parse::<u64>().ok())`: a field holding an id. */
  function IdField(v: Json, key: string): Option<nat>
  {
    var s := StrField(v, key);
    if s.Some? then Text.ParseUnsigned(s.value, U64Max) else None
  }

  /** A field holding a whole number (the shape serde gives an integer field). */
  function IdNumber(v: Json, key: string): Option<nat>
  {
    var f := Get(v, key);
    if f.Some? && f.value.JNumber? && f.value.n.Floor as real == f.value.n && f.value.n >= 0.0 then Some(f.value.n.Floor)
    else None
  }
}
