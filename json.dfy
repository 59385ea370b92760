/** Values produced by decoding the backend's JSON response. */
module JsonValue {

  /** Either a value or nothing: the outcome of a lookup or of a decode. */
  datatype Option<+T> = None | Some(value: T)

  /** A decoded JSON value. Number precision is irrelevant to this program,
      so numbers are kept as integers. */
  datatype Json =
    | JNull
    | JBool(b: bool)
    | JNumber(n: int)
    | JString(s: string)
    | JArray(items: seq<Json>)
    | JObject(fields: map<string, Json>)
}
