/** The decoded JSON values the provider sends back. Non-integer numbers
    (coordinates, temperatures) are carried as their literal text: the
    service layer never computes with them. */
module Json {

  datatype Json =
    | JNull
    | JBool(b: bool)
    | JInt(i: int)
    | JNumber(literal: string)
    | JString(s: string)
    | JArray(items: seq<Json>)
    | JObject(fields: map<string, Json>)
}
