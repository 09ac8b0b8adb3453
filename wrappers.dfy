/** The outcome of one awaited remote call, and the string defaulting that
    the client code writes with JavaScript's `||` operator. */
module Wrappers {

  datatype Option<+T> = None | Some(value: T)

  /** What a rejected request carries: the backend's `response.data.error`
      and the exception's own `message`. An absent value is the empty string. */
  datatype RemoteError = RemoteError(responseError: string, message: string)

  /** One awaited remote call: it either resolves with a response or rejects. */
  datatype Outcome<+T> = Ok(value: T) | Fail(error: RemoteError)

  /** `s || fallback` on strings: the empty string (and an absent value,
      which is modelled by it) is falsy. A default `s || ''` is therefore
      `s` itself, and the model writes it so. */
  function Or(s: string, fallback: string): string
  {
    if s != "" then s else fallback
  }

  /** `e?.response?.data?.error || e?.message || fallback`: the text shown
      for a rejected request. It is never blank when the fallback is not. */
  function ErrorText(e: RemoteError, fallback: string): (r: string)
    ensures fallback != "" ==> r != ""
    ensures r in {e.responseError, e.message, fallback}
    ensures e.responseError != "" ==> r == e.responseError
    ensures e.responseError == "" && e.message != "" ==> r == e.message
    ensures e.responseError == "" && e.message == "" ==> r == fallback
  {
    Or(e.responseError, Or(e.message, fallback))
  }
}
