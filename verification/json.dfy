/** Decoded JSON values, as Go's `interface{}` holds them after `json.Unmarshal`. */
module Json {
  datatype JsonValue =
    | JNull
    | JBool(b: bool)
    | JNumber(n: int)
    | JString(s: string)
    | JArray(items: seq<JsonValue>)
    | JObject(fields: map<string, JsonValue>)
}
