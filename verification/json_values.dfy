/** Decoded JSON, as `response.json()` hands it to the bot. Floating-point
    numbers are not part of this model. */
module JsonValues {

  datatype Json =
    | JNull
    | JBool(b: bool)
    | JInt(i: int)
    | JString(s: string)
    | JArray(items: seq<Json>)
    | JObject(fields: map<string, Json>)
}
