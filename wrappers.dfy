/** Failure-compatible wrappers shared by the whole model. */
module Wrappers {

  datatype Option<+T> = None | Some(value: T)

  /** The result of a C++ computation that may throw: either a value, or the
      exception's what() text. Works with `:-`. */
  datatype Outcome<+T> = Ok(value: T) | Throw(what: string) {
    predicate IsFailure() {
      Throw?
    }

    function PropagateFailure<U>(): Outcome<U>
      requires Throw?
    {
      Throw(what)
    }

    function Extract(): T
      requires Ok?
    {
      value
    }
  }
}
