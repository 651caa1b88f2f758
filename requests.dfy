/**
 * How a request to the remote task store ends, as the handlers see it.
 * The transport (axios, its interceptors and the bearer header) is not
 * modelled; each request is reduced to its settled outcome.
 */
module Requests {
  import opened Tasks

  /**
   * `Ok` carries the response body. `Failed` is a rejected request:
   * `status` is `err.response.status` (absent when there was no
   * response), `serverMessage` is `err.response.data.message` and
   * `message` is `err.message`. `Cancelled` is an abort through the
   * request's AbortSignal: it has no response, and its `err.message` is
   * `CANCELED_MESSAGE`.
   */
  datatype Outcome<+T> =
    | Ok(payload: T)
    | Failed(status: Option<int>, serverMessage: Option<string>, message: Option<string>)
    | Cancelled

  /** The message axios gives the error of an aborted request. */
  const CANCELED_MESSAGE: string := "canceled"

  /** `err.response?.status`; a cancellation carries no response. */
  function StatusOf<T>(o: Outcome<T>): Option<int> {
    if o.Failed? then o.status else None
  }

  /** `err.response?.data?.message || err.message || fallback`. */
  function FailureMessage<T>(o: Outcome<T>, fallback: string): (m: string)
    requires !o.Ok?
    ensures o.Failed? && Truthy(o.serverMessage) ==> m == o.serverMessage.value
    ensures o.Failed? && !Truthy(o.serverMessage) && Truthy(o.message) ==> m == o.message.value
    ensures fallback != "" ==> m != ""
    ensures o.Failed? && !Truthy(o.serverMessage) && !Truthy(o.message) ==> m == fallback
    ensures o.Cancelled? ==> m == CANCELED_MESSAGE
  {
    if o.Failed? then Or(o.serverMessage, Or(o.message, fallback)) else CANCELED_MESSAGE
  }
}
