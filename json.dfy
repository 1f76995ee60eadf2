/**
 * Field values of a record, as the JSON values `JSON.stringify` can serialise.
 * Objects keep their members in insertion order, so two values are equal as
 * datatype values exactly when their serialisations are the same text.
 */
module Json {

  datatype Json =
    | JNull
    | JBool(b: bool)
    | JNumber(n: int)
    | JString(s: string)
    | JArray(items: seq<Json>)
    | JObject(members: seq<(string, Json)>)
}
