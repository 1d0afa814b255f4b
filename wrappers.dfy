/** Failure-compatible wrappers shared by the whole model. */
module Wrappers {

  datatype Option<+T> = None | Some(value: T)

  /** Why an operation did not produce a value.
      - Thrown: the engine throws this message (csv2go throws plain strings).
      - Unmodelled: JavaScript would do something this model does not describe
        (a TypeError from the runtime, floating-point arithmetic, ...). */
  datatype Error = Thrown(message: string) | Unmodelled(what: string)

  /** The outcome of an operation that may throw. Usable with `:-`. */
  datatype Result<+T> = Ok(value: T) | Err(error: Error) {

    predicate IsFailure() {
      Err?
    }

    function PropagateFailure<U>(): Result<U>
      requires Err?
    {
      Err(error)
    }

    function Extract(): T
      requires Ok?
    {
      value
    }
  }
}
