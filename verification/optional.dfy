/** Shared wrappers: `Option` for a value that may be missing, and `Result`
    for an event that either succeeds with a value or is refused with a
    reason. */
module Optional {

  /** A value that may be missing, as `null` or `undefined` is in JavaScript. */
  datatype Option<+T> = None | Some(value: T) {

    /** The value if there is one, otherwise `fallback`. */
    function GetOr(fallback: T): T {
      if Some? then value else fallback
    }
  }

  /** The outcome of an event: a value, or the reason it was refused. The
      three members below let `:-` stop at the first refusal. */
  datatype Result<+T, +E> = Success(value: T) | Failure(error: E) {

    predicate IsFailure() {
      Failure?
    }

    function PropagateFailure<U>(): Result<U, E>
      requires Failure?
    {
      Failure(error)
    }

    function Extract(): T
      requires Success?
    {
      value
    }
  }
}
