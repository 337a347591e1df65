/** Values shared by the purchase views and the fetch hook: optional values,
    what a thrown JavaScript value looks like to a `catch` block, and how one
    request settles (a parsed body, a response that is not OK, or a throw). */
module Outcomes {

  datatype Option<+T> = None | Some(value: T)

  datatype Result<+R, +E> = Success(value: R) | Failure(error: E)

  /** A thrown value as the handlers inspect it. `message` is `Some` exactly
      when the value is a non-null object whose `message` property is a
      string; `name` is `Some` when the object has a `name` property. A thrown
      primitive or `null` is `Thrown(None, None)`. */
  datatype Thrown = Thrown(name: Option<string>, message: Option<string>)

  /** How `await fetch(...)` followed by `await response.json()` ends:
      an OK response whose body parsed to `data`, a response with `ok` false,
      or a value thrown by either await (a network failure, an abort, a body
      that is not JSON). */
  datatype FetchOutcome<+T> = Succeeded(data: T) | NotOk | Threw(thrown: Thrown)

  /** What a `catch` block does to the `error` state: sets it, or leaves it alone. */
  datatype ErrorUpdate = SetError(message: string) | KeepError

  const AbortErrorName: string := "AbortError"
  const UnexpectedError: string := "Ocurrió un error inesperado."

  /** The object literal the views throw on a response that is not OK. */
  function FetchError(message: string): (t: Thrown)
    ensures t.message == Some(message) && t.name != Some(AbortErrorName)
  {
    Thrown(Some("FetchError"), Some(message))
  }

  /** A value built by `new Error(message)`. */
  function ErrorObject(message: string): Thrown {
    Thrown(Some("Error"), Some(message))
  }

  /** The `isErrorWithMessage` guard of the catch blocks. */
  predicate HasMessage(t: Thrown) {
    t.message.Some?
  }

  /** The catch block shared by the purchase list, the purchase detail and
      the purchase form's loader: an abort is swallowed, any other error
      with a string message is shown verbatim, and anything else gets the
      generic message. */
  function Reported(t: Thrown): (u: ErrorUpdate)
    ensures u.KeepError? <==> HasMessage(t) && t.name == Some(AbortErrorName)
    ensures HasMessage(t) && t.name != Some(AbortErrorName) ==> u == SetError(t.message.value)
    ensures !HasMessage(t) ==> u == SetError(UnexpectedError)
  {
    if HasMessage(t) then
      if t.name.None? || t.name.value != AbortErrorName then SetError(t.message.value) else KeepError
    else
      SetError(UnexpectedError)
  }

  /** The `error` state after a catch block's update. */
  function Applied(u: ErrorUpdate, current: Option<string>): Option<string> {
    match u
    case SetError(m) => Some(m)
    case KeepError => current
  }

  /** The base URL the purchase views and the fetch hook hard-code. */
  const LocalApiBase: string := "http://localhost:8090"
}
