/** Optional values and the outcome of an operation that may throw. */
module Wrappers {

  /** A nullable reference or a SQL NULL column. */
  datatype Option<+T> = None | Some(value: T)

  /** The result of a call that either returns a value or throws an exception
      carrying `message` (the exception's `Message`). */
  datatype Outcome<+T> = Ok(value: T) | Fail(message: string)

  function Min(a: int, b: int): int { if a <= b then a else b }
}
