/** HTTP vocabulary shared by the API routes and the pages that call them. */
module Http {
  import opened Wrappers

  /**
   * What a route handler writes to `res`: the status code, the `Allow`
   * header (empty when the handler does not set one) and the JSON body.
   */
  datatype Response<B> = Response(status: nat, allow: seq<string>, body: B)

  /** The message of every 405 reply: `Método ${req.method} não permitido.` */
  function NotAllowedMessage(verb: string): string {
    "Método " + verb + " não permitido."
  }

  /**
   * What a page gets back from `fetch(...)` followed by `response.json()`:
   * a 2xx reply with its parsed body, a non-2xx reply with the body's
   * `message` field (absent when the body has none), or an exception (the
   * network failed or the body was not JSON) with that exception's message.
   */
  datatype FetchResult<T> =
    | Ok(value: T)
    | NotOk(status: nat, message: Option<string>)
    | Failed(reason: string)

  /** `message || fallback`: an absent or empty message falls back. */
  function MessageOr(message: Option<string>, fallback: string): (r: string)
    ensures r == fallback || (message == Some(r) && r != "")
    ensures message.Some? && message.value != "" ==> r == message.value
  {
    if message.Some? && message.value != "" then message.value else fallback
  }
}
