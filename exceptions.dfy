/** The Java exceptions the modelled code throws or propagates, and the two wrappers used
    to return either a value or the exception that replaced it. */
module Exceptions {

  datatype Option<+T> = None | Some(value: T)

  /** A Java call that either returns `value` or throws `error`. */
  datatype Result<+R> = Success(value: R) | Failure(error: Exc)

  /** A Java call returning void: it completes, or throws `error`. */
  datatype Outcome = Pass | Fail(error: Exc)

  datatype Exc =
    | IOException(message: string)
    | WroRuntimeException(message: string, cause: Option<Exc>)
    | IllegalArgumentException(message: string)
    | NullPointerException(message: string)
      /** Any other unchecked exception or error thrown by a collaborator. */
    | UncheckedException(message: string)

  /** The message of commons-lang3's `Validate.notNull`. */
  const ValidatedObjectIsNull := "The validated object is null"
}
