/**
 * The exceptions the core throws, as values: a method that may throw returns
 * an `Outcome` or a `Result` instead.
 */
module Exceptions {
  import opened ErrorCodes

  /** The exceptions the core throws. */
  datatype Failure =
    | NullArgument      // IllegalArgumentException for a required argument that is null
    | DifferentStore    // IllegalArgumentException: the item belongs to another store
    | InvalidItem       // whatever the cart item's own validation rejects
    | InvalidPrice      // IllegalArgumentException: a negative menu price
    | NullPointer       // NullPointerException from dereferencing a null field
    | Business(code: ErrorCode, message: string)  // BusinessException: an ErrorCode and a message

  /** `new BusinessException(code)`: the message is the code's own. */
  function BusinessOf(code: ErrorCode): (f: Failure)
    ensures f.Business? && f.code == code && f.message == code.Message()
  {
    Business(code, code.Message())
  }

  /** The outcome of a `void` method: it returns normally or throws. */
  datatype Outcome = Done | Fail(failure: Failure)

  /** The outcome of a method returning a value. */
  datatype Result<+T> = Ok(value: T) | Err(failure: Failure)
}
