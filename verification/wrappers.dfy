/**
  Outcome types shared by the model.

  Go reports ordinary failures as a second `error` result and stops the
  program with `panic` or `os.Exit` for conditions it treats as fatal.
  `Option` models an optional value; `Run` models a call that either returns
  normally or stops the program, carrying the reason it stopped.
 */
module Wrappers {

  datatype Option<+T> = None | Some(value: T) {

    predicate IsFailure() {
      None?
    }

    function PropagateFailure<U>(): Option<U>
      requires None?
    {
      None
    }

    function Extract(): T
      requires Some?
    {
      value
    }
  }

  /** The outcome of a Go call that may panic or exit instead of returning. */
  datatype Run<+T, +F> = Done(value: T) | Abort(cause: F) {

    predicate IsFailure() {
      Abort?
    }

    function PropagateFailure<U>(): Run<U, F>
      requires Abort?
    {
      Abort(cause)
    }

    function Extract(): T
      requires Done?
    {
      value
    }
  }
}
