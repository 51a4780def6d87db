/** Option and Result values, and the exceptions the library raises. */
module Wrappers {

  datatype Option<+T> = None | Some(value: T)

  /** A computation that either yields a value or raises an exception. */
  datatype Result<+T, +E> = Success(value: T) | Failure(error: E)

  /**
   * The exceptions raised by the modelled code. Both validation failures and
   * configuration errors are PHP InvalidArgumentException values; they are kept
   * apart here so that the field-error map is visible.
   */
  datatype Exception =
    | InvalidArgument(message: string)
    | ValidationFailed(message: string, errors: map<string, seq<string>>)
    | BadMethodCall(message: string)
}
