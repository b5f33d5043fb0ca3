/** Failure-compatible result type standing in for a thrown exception or a rejected promise. */
module Wrappers {

  datatype Option<+T> = None | Some(value: T)

  /** Ok carries the value an operation returns; Err carries the message of the error it throws. */
  datatype Result<+T> = Ok(value: T) | Err(error: string) {

    predicate IsFailure() {
      Err?
    }

    function PropagateFailure<U>(): Result<U>
      requires Err?
    {
      Err(error)
    }

    function Extract(): T
      requires Ok?
    {
      value
    }
  }
}
