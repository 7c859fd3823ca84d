/** Python's exceptions, as the error half of a result. */
module Common {

  /** The exception classes raised by the modelled code (and by the
      numpy / Python operations it relies on). */
  datatype PyError =
    | ValueError
    | IndexError
    | RuntimeError
    | NotImplementedError

  datatype Result<+T> = Ok(value: T) | Err(error: PyError) {
    predicate IsFailure() { Err? }

    function PropagateFailure<U>(): Result<U>
      requires Err?
    {
      Err(error)
    }

    function Extract(): T
      requires Ok?
    {
      value
    }
  }

  datatype Option<+T> = None | Some(value: T)
}
