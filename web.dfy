// What the HTTP services exchange: JSON values, responses with a status
// code and a JSON object body, bytes, and the outcome of base64 decoding
// (the decoder itself is not modelled).
module Web {
  newtype Byte = x: int | 0 <= x < 256
  type Bytes = seq<Byte>

  datatype Json =
    | JNull
    | JBool(b: bool)
    | JInt(i: int)
    | JReal(r: real)
    | JStr(s: string)
    | JList(items: seq<Json>)
    | JObj(fields: map<string, Json>)

  /** Python truthiness of a decoded JSON value. */
  predicate Truthy(j: Json) {
    match j
    case JNull => false
    case JBool(b) => b
    case JInt(i) => i != 0
    case JReal(r) => r != 0.0
    case JStr(s) => |s| > 0
    case JList(items) => |items| > 0
    case JObj(fields) => |fields| > 0
  }

  /** dict.get(key) on a JSON object: None (null) when absent. */
  function Get(fields: map<string, Json>, key: string): Json {
    if key in fields then fields[key] else JNull
  }

  /** A reply: status code and JSON object body. */
  datatype Response = Response(code: int, body: map<string, Json>)

  /** error_response(message, status): the body {"error": message}. */
  function ErrorResponse(message: string, code: int): (r: Response)
    ensures r.code == code && r.body.Keys == {"error"} && r.body["error"] == JStr(message)
  {
    Response(code, map["error" := JStr(message)])
  }

  /** The framework's reply to an exception the handler does not catch. */
  const Unhandled := Response(500, map[])

  /** base64.b64decode: the bytes, binascii.Error/ValueError, or another exception. */
  datatype Decoding = Decoded(bytes: Bytes) | Malformed | DecodeRaised
}
