/** A decoded JSON value, as `JSON.parse` produces it and `JSON.stringify`
    consumes it. Numbers are kept as integers: nothing in the modelled code
    does arithmetic on a decoded number. */
module Json {
  import opened Wrappers

  datatype Json =
    | JNull
    | JBool(b: bool)
    | JNumber(n: int)
    | JString(s: string)
    | JArray(items: seq<Json>)
    | JObject(fields: map<string, Json>)

  /** `value[key]` read off a decoded value: `None` stands for `undefined`. */
  function Get(value: Json, key: string): Option<Json>
  {
    if value.JObject? && key in value.fields then Some(value.fields[key]) else None
  }
}
