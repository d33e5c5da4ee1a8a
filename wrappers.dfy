/** Small value wrappers shared by the modules of the model. */
module Wrappers {

  /** A value that may be absent: JavaScript's `undefined`/`null` or a missing field. */
  datatype Option<+T> = None | Some(value: T)

  /**
   * How an awaited external call settles: the promise resolves with a value,
   * or it rejects (an exception is thrown) with an error message.
   */
  datatype Await<+T> = Resolved(value: T) | Rejected(message: string)

  /** JavaScript truthiness of an optional string: absent and "" are both falsy. */
  predicate Truthy(s: Option<string>)
  {
    s.Some? && s.value != ""
  }

  /** `s || fallback` for an optional string. */
  function OrElse(s: Option<string>, fallback: string): string
  {
    if Truthy(s) then s.value else fallback
  }
}
