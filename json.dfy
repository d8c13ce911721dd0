/** Values produced by a JSON parser, as Swift sees them through `Codable` or `JSONSerialization`. */
module Json {
  /**
   * A JSON value.  Numbers written without fraction or exponent are `JInt`;
   * every other number is `JDouble`.
   */
  datatype Value =
    | JNull
    | JBool(b: bool)
    | JInt(i: int)
    | JDouble(d: real)
    | JString(s: string)
    | JArray(elems: seq<Value>)
    | JObject(fields: map<string, Value>)
}
