/** Values of the JavaScript runtime that the hooks exchange with their collaborators. */
module Js {

  /** A value that may be `null` or `undefined` (both are `None`). */
  datatype Option<+T> = None | Some(value: T)

  /** A thrown value as the hooks use it: the provider's numeric `code`, if it carries one,
      and its `message`. A missing message and an empty one are both falsy, so both are "". */
  datatype JsError = JsError(code: Option<int>, message: string)

  /** How an awaited call settles: resolved with a value, or rejected with an error. */
  datatype Reply<+T> = Ok(value: T) | Err(error: JsError)

  /** A plain `new Error(message)`: it has no `code`. */
  function PlainError(message: string): JsError
  {
    JsError(None, message)
  }

  /** `error.message || fallback`. */
  function MessageOr(e: JsError, fallback: string): (r: string)
    ensures fallback != "" ==> r != ""
  {
    if e.message != "" then e.message else fallback
  }

  /** Truthiness of an optional string: `null`, `undefined` and "" are falsy. */
  predicate Truthy(s: Option<string>)
  {
    s.Some? && s.value != ""
  }
}
