/**
  The messages the plugin and the server exchange over standard input and output
  (one JSON document per line), the JSON values they carry, and JSON
  (de)serialisation as an abstract codec.
 */
module Messages {
  import opened Wrappers

  /**
    A JSON number, by whether its literal is a plain integer. A literal of digits with
    an optional leading minus, with no fraction and no exponent, is always
    `IntegerLiteral`, whatever its size; `OtherNumber` holds only literals with a
    fraction or an exponent (`1.0`, `1e3`), which `TryGetInt32` refuses. The model's
    codec and its callers build numbers under this convention.
   */
  datatype Number = IntegerLiteral(i: int) | OtherNumber(text: string)

  /** A JSON value, as a `JsonElement` exposes it. */
  datatype Json =
    | JNull
    | JBool(b: bool)
    | JNumber(n: Number)
    | JString(s: string)
    | JArray(items: seq<Json>)
    | JObject(members: seq<(string, Json)>)

  /** `IPCProtocol.MessageTypeQuery` and `IPCProtocol.MessageTypeResponse`. */
  const MessageTypeQuery := "Query"
  const MessageTypeResponse := "Response"

  /** A query message; every reference-typed property may be null after deserialisation. */
  datatype QueryMessage = QueryMessage(
    messageType: Option<string>,
    requestId: Option<string>,
    queryText: Option<string>,
    parameters: Option<Json>)

  /** A response message. */
  datatype ResponseMessage = ResponseMessage(
    messageType: Option<string>,
    requestId: Option<string>,
    success: bool,
    message: string,
    data: Option<Json>)

  /** What `JsonSerializer.Deserialize` makes of a line: a value, `null` (the literal), or a thrown `JsonException`. */
  datatype Decoded<T> = Decoded(value: T) | NullLiteral | Malformed

  /** `JsonSerializer.Serialize` and `Deserialize` for the two message types. */
  datatype Codec = Codec(
    encodeQuery: QueryMessage -> string,
    decodeQuery: string -> Decoded<QueryMessage>,
    encodeResponse: ResponseMessage -> string,
    decodeResponse: string -> Decoded<ResponseMessage>)
}
