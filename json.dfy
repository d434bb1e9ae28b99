/** The JSON values that the handlers return through `jsonify` and that the
    change events carry as payloads. */
module Json {

  datatype JsonValue =
    | JNull
    | JInt(i: int)
    | JString(s: string)
    | JArray(items: seq<JsonValue>)
    | JObject(fields: map<string, JsonValue>)
}
