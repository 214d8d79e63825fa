/** Failure-compatible wrappers used by the fail-fast request pipeline. */
module Results {

  datatype Option<+T> = None | Some(value: T)

  /** The outcome of one pipeline step: a typed value, or the first error met. */
  datatype Result<+T, +E> = Success(value: T) | Failure(error: E) {
    predicate IsFailure() {
      Failure?
    }

    function PropagateFailure<U>(): Result<U, E>
      requires Failure?
    {
      Failure(error)
    }

    function Extract(): T
      requires Success?
    {
      value
    }
  }
}
