// Failure types shared by the whole model.
module Wrappers {
  datatype Option<+T> = None | Some(value: T)

  // The source reports every unrecoverable condition by printing a line and
  // calling exit(EXIT_FAILURE).  A method that can do so returns one of these.
  datatype Result<+T> = Value(value: T) | Exited {
    predicate IsFailure() { Exited? }
    function PropagateFailure<U>(): Result<U> requires Exited? { Exited }
    function Extract(): T requires Value? { value }
  }

  type Outcome = Result<()>
  const Continue: Outcome := Value(())
}
