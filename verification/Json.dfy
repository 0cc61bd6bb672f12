/** Shared value types: optional values, results, and the JSON trees that event payloads are made of. */
module Json {

  datatype Option<+T> = None | Some(value: T)

  datatype Result<+T, +E> = Ok(value: T) | Err(error: E)

  /** A parsed JSON value. Object key order carries no meaning, so an object is a map. */
  datatype Json =
    | Null
    | Bool(b: bool)
    | Num(n: int)
    | Str(s: string)
    | Arr(items: seq<Json>)
    | Obj(fields: map<string, Json>)

  type Payload = map<string, Json>

  /** The value of an own property, or None when the object does not have it. */
  function Field(p: Payload, key: string): Option<Json> {
    if key in p then Some(p[key]) else None
  }

  /** The value of an own property that is a string. */
  function StringField(p: Payload, key: string): Option<string> {
    if key in p && p[key].Str? then Some(p[key].s) else None
  }
}
