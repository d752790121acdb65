/** `Result<T, E>` of the source: a value or an error, usable with `:-` the
    way the source uses `?`. */
module Results {

  datatype Result<+T, +E> = Ok(value: T) | Err(error: E)
  {
    predicate IsFailure()
    {
      Err?
    }

    function PropagateFailure<U>(): Result<U, E>
      requires Err?
    {
      Err(error)
    }

    function Extract(): T
      requires Ok?
    {
      value
    }
  }

  /** `Option<T>` of the source. */
  datatype Option<+T> = None | Some(value: T)
}
