/** Decoded JSON values, as `encoding/json` produces them when it decodes into an
    `interface{}`: null, bool, number, string, array or object (a map of keys to values). */
module Json {

  datatype Json =
    | JNull
    | JBool(b: bool)
    | JNumber(n: real)
    | JString(s: string)
    | JArray(items: seq<Json>)
    | JObject(fields: map<string, Json>)

  /** An object with one key. */
  function Singleton(key: string, value: Json): (j: Json)
    ensures j.JObject? && j.fields.Keys == {key} && j.fields[key] == value
  {
    JObject(map[key := value])
  }
}
