/**
 * Bytes and the loosely typed tree that encoding/json produces when it
 * unmarshals into `any` or `map[string]any`.
 */
module Json {

  newtype byte = b: int | 0 <= b < 256

  type Bytes = seq<byte>

  datatype Json =
    | JNull
    | JBool(b: bool)
    | JNumber(n: real)
    | JString(s: string)
    | JArray(items: seq<Json>)
    | JObject(members: map<string, Json>)
}
