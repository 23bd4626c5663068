/**
 * Exceptions as values. A Python call either returns or raises; the model
 * says which with `Fallible<T>` (a call that returns a value) and `Outcome`
 * (a call whose only result is that it did not raise).
 */
module Exceptions {

  /** The exceptions the core can observe. */
  datatype Exception =
    | BookNotFound(bookId: int)                              // ValueError raised by the inventory check, src/sers.py:27-29
    | QuantityExceedsStock(quantity: int, stock: int, bookId: int)  // ValueError raised by the inventory check, src/sers.py:33-35
    | ExternalError(message: string)                          // anything a collaborator (model, database engine) raises

  datatype Fallible<+T> = Ok(value: T) | Raised(exc: Exception)

  datatype Outcome = Pass | Fail(exc: Exception)
}
