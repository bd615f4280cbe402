// The network seen by the API clients: a request either reaches the server
// and yields a status, a parsed body and the raw text, or fails in transit.
module NaverHttp {
  import opened Wrappers

  datatype HttpReply<T> = HttpReply(status: int, body: T, text: string)

  datatype Transport<T> = Delivered(reply: HttpReply<T>) | ConnectionFailed

  /** What a client call raises: a non-200 status (with the response text for
      the trend and shopping clients, without it for the blog client), or
      the transport failure that `requests` raises. */
  datatype ApiError = StatusError(status: int, text: Option<string>) | TransportError

  /** `if response.status_code == 200: return response.json() else: raise ...` */
  function CheckStatus<T>(t: Transport<T>, withText: bool): (r: Result<T, ApiError>)
    ensures r.Ok? <==> t.Delivered? && t.reply.status == 200
    ensures r.Ok? ==> r.value == t.reply.body
    ensures r.Err? && t.Delivered? ==> r.error.StatusError? && r.error.status == t.reply.status
    ensures r.Err? && t.Delivered? ==> (r.error.text.Some? <==> withText)
    ensures r.Err? && t.Delivered? && withText ==> r.error.text == Some(t.reply.text)
    ensures t.ConnectionFailed? ==> r == Err(TransportError)
  {
    match t
    case ConnectionFailed => Err(TransportError)
    case Delivered(reply) =>
      if reply.status == 200 then Ok(reply.body)
      else Err(StatusError(reply.status, if withText then Some(reply.text) else None))
  }
}
