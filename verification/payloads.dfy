/** Payloads the steps carry, and the JSON codec the engine delegates to.
    The codec is a collaborator: its two operations are parameters, not
    definitions. */
module Payloads {
  import opened Common

  /** A deserialized model object, as the JSON codec sees it. */
  datatype Json =
    | JNull
    | JBool(b: bool)
    | JNum(n: int)
    | JStr(s: string)
    | JList(items: seq<Json>)
    | JObject(fields: map<string, Json>)

  /** What `JsonConvert.DeserializeObject(text, modelType)` does: returns
      an object or null (`None`), or throws because the text is not JSON or
      does not map onto the type. */
  datatype Decoded = Decoded(value: Option<Json>) | Unreadable

  /** `JsonConvert.SerializeObject(value)`, which always succeeds, and
      `JsonConvert.DeserializeObject(text, modelType)`, which may throw. */
  datatype Codec = Codec(
    serialize: Option<Json> -> string,
    deserialize: (string, string) -> Decoded)
}
