/** Outcomes of the MySQL migration operations: an optional value, and either
    the emitted SQL (or decoded value) or the exception the operation raises. */
module Results {

  datatype Option<+T> = None | Some(value: T) {
    predicate IsFailure() { None? }

    function PropagateFailure<U>(): Option<U>
      requires None?
    {
      None
    }

    function Extract(): T
      requires Some?
    {
      value
    }
  }

  /** The exception classes the tests expect. */
  datatype ErrorKind = CommandError | NotImplementedError | TypeError

  /** A raised exception: its class and its user-facing message. */
  datatype DdlError = DdlError(kind: ErrorKind, message: string)

  datatype Result<+T> = Success(value: T) | Failure(error: DdlError) {
    predicate IsFailure() { Failure? }

    function PropagateFailure<U>(): Result<U>
      requires Failure?
    {
      Failure(error)
    }

    function Extract(): T
      requires Success?
    {
      value
    }
  }
}
