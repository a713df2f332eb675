/** Values that the views exchange with the host web framework: exceptions,
    the result of a coroutine, requests, responses and websocket messages.
    The framework's own objects are replaced by these plain values. */
module Http {

  newtype byte = x: int | 0 <= x < 256

  /** The exceptions a view can let escape. */
  datatype Exception =
    | NotImplementedError
      // the framework's "405 Method Not Allowed" error, with the rejected
      // method and the set of methods the view accepts
    | MethodNotAllowed(verb: string, allowed: set<string>)
      // any other exception, raised by application code (a handler, a
      // callback, a serializer), identified by name
    | AppError(name: string)

  datatype Option<+T> = None | Some(value: T)

  /** What awaiting a coroutine gives: a value, or an exception that escaped. */
  datatype Result<+T> = Ok(value: T) | Raise(exc: Exception)

  datatype Body = Bytes(bytes: seq<byte>) | Text(text: string)

  /** A response object of the framework. `Response` is a response built
      with a body and a content type; `Streaming` stands for any other
      streaming response that a handler wrote itself, opaque here. */
  datatype Response =
    | Response(contentType: string, body: Body)
    | Streaming(id: nat)

  /** A message that iterating over the websocket yields: a text frame, an
      error, a close (the iterator stops there), or a binary frame. */
  datatype Msg = TextMsg(data: string) | ErrorMsg | CloseMsg | OtherMsg

  /** An inbound request: its method (`verb`), its URL, whether the websocket
      handshake can be negotiated on it, and (for a websocket) the finite
      sequence of messages the session receives once it is open. */
  datatype Request = Request(verb: string, url: string, upgradable: bool, inbox: seq<Msg>)
}
