/** The outcomes of the library calls the gateway makes (JSON decoding, gRPC
    client methods, jwt-go parsing), written as plain values so that each
    handler becomes a pure function of them. */
module Outcomes {

  datatype Option<+T> = None | Some(value: T) {

    /** The wrapped value, or `default` when there is none. */
    function GetOr(default: T): T {
      match this
      case Some(v) => v
      case None => default
    }
  }

  datatype Result<+T, +E> = Success(value: T) | Failure(error: E)

  /** What `json.NewDecoder(r.Body).Decode(&x)` left in `x`: an error, or the
      decoded value. When `x` is a pointer the decoded value is an `Option`,
      and a JSON `null` body decodes to `None` without an error. */
  datatype Decode<+T> = Malformed | Decoded(value: T)

  /** What a generated gRPC client method returned. On an error the reply
      pointer is nil, so there is no reply to look at. */
  datatype Rpc<+T> = RpcError | Replied(reply: T)

  /** The fields of a protobuf message that the gateway never inspects; it
      passes them through unchanged. */
  type Fields = map<string, string>

  /** A protobuf message that the gateway only forwards or marshals. */
  datatype Payload = Payload(fields: Fields)
}
