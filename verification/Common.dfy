/** Small shared datatypes. */
module Common {

  datatype Option<+T> = None | Some(value: T)

  /** A value, or the error that the Go code returns instead of it. */
  datatype Result<+T, +E> = Ok(value: T) | Fail(error: E) {
    predicate IsFailure() { Fail? }

    function PropagateFailure<U>(): Result<U, E>
      requires Fail?
    {
      Fail(error)
    }

    function Extract(): T
      requires Ok?
    {
      value
    }
  }
}
