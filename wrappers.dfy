/** Optional values and the exceptions the modelled Java code can raise. */
module Wrappers {

  /** A value that may be missing: `None` stands for a Java `null`. */
  datatype Option<+T> = None | Some(value: T)

  /** The exceptions that leave the modelled operations. Each one aborts the
      operation in progress; what was already assigned before it stays assigned. */
  datatype Exception =
    | PreparationException(message: string)
    | AdjustmentException
    | UnsupportedOperationException(message: string)
    | NullPointerException
    | IndexOutOfBoundsException
    | ClassCastException

  /** The outcome of an operation that either yields a value or raises. */
  datatype Result<+T> = Success(value: T) | Failure(error: Exception)
}
