/** The optional value and the success-or-error value of the contacts
    domain. `Option` stands for oxide.ts `Option` in the domain objects and
    for an `undefined` field in a stored record; `Result` stands for the
    oxide.ts `Result` that every factory and mapping returns, and supports
    `:-` so that a failure short-circuits the way a thrown error does. */
module Wrappers {

  /** A value that may be absent: `None` models `undefined`. */
  datatype Option<+T> = None | Some(value: T) {

    /** The wrapped value, or `default` when absent. */
    function GetOr(default: T): T {
      if Some? then value else default
    }
  }

  /** Success or failure of a factory or a mapping. */
  datatype Result<+R, +E> = Ok(value: R) | Err(error: E) {

    predicate IsFailure() {
      Err?
    }

    function PropagateFailure<U>(): Result<U, E>
      requires Err?
    {
      Err(error)
    }

    function Extract(): R
      requires Ok?
    {
      value
    }
  }
}
