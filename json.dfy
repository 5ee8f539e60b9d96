/** JSON values (RFC 8259) as the JSON parser hands them to schema validation.
    Turning JSON text into such a value is done by the parser inside pydantic,
    which is not part of this model: the loader receives it as a `Decoder`. */
module Json {
  import opened Wrappers

  datatype JsonValue =
    | JNull
    | JBool(b: bool)
    | JNumber(n: real)
    | JString(s: string)
    | JArray(elements: seq<JsonValue>)
    | JObject(members: map<string, JsonValue>)

  /** Parses one JSON text; `None` when the text is not well-formed JSON. */
  type Decoder = string -> Option<JsonValue>
}
