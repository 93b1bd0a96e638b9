/** What an asynchronous handler sees of the network, and what it shows the user.
    The HTTP transport and JSON decoding are abstracted: a request's response
    step receives one `Outcome`. */
module Io {
  import opened Js

  /** How an awaited `fetch` followed by `r.json()` ended:
      - `Ok`: the status was 2xx and the body decoded to `payload`;
      - `HttpError`: a non-2xx status, with the body's `error` field if it had one;
      - `NetworkError`: the awaited call threw (transport failure, undecodable
        body), with the exception's `message` if it had one. */
  datatype Outcome<T> = Ok(payload: T) | HttpError(error: Option<string>) | NetworkError(message: Option<string>)

  /** The toast a handler raises through antd's `message` API, if any. */
  datatype Notice = Quiet | Warning(text: string) | Info(text: string) | Error(text: string) | Success(text: string)

  /** The catch-all network notice both workflow handlers share. */
  const NetworkFallback := "Error de red."

  /** The notice for a failed call: the server's or the exception's message when
      it is non-empty, else the handler's own fallback text
      (`data?.error || fallback`, `e?.message || "Error de red."`). */
  function FailureNotice<T>(outcome: Outcome<T>, httpFallback: string): (n: Notice)
    requires !outcome.Ok?
    ensures n.Error?
    ensures outcome.HttpError? ==> n.text == OrElse(outcome.error, httpFallback)
    ensures outcome.NetworkError? ==> n.text == OrElse(outcome.message, NetworkFallback)
    ensures httpFallback != "" ==> n.text != ""
  {
    match outcome
    case HttpError(e) => Error(OrElse(e, httpFallback))
    case NetworkError(m) => Error(OrElse(m, NetworkFallback))
  }
}
