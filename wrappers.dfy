/** Option and Result, used for the source's null references and thrown exceptions. */
module Wrappers {

  datatype Option<+T> = None | Some(value: T)

  datatype Result<+T, +E> = Ok(value: T) | Err(error: E)
}

/** The exceptions the modelled code throws, as values. */
module Errors {

  datatype Error =
    | IllegalState(message: string)
    | IllegalArgument(message: string)
    /** DatabaseException(operation, table) wrapping a driver failure */
    | DatabaseException(operation: string, table: string)
    /** an SQLException rethrown (or wrapped in a RuntimeException) */
    | SqlFailure(message: string)
    | IndexOutOfBounds
    | NullPointer
    | NumberFormat(input: string)
    | ClassCast
    | InvalidClass(className: string)
}
