/** Ruby's `nil`-or-value and raise-or-return, as datatypes. */
module Wrappers {

  /** A value that may be Ruby's `nil`. */
  datatype Option<+T> = None | Some(value: T)

  /** The outcome of a Ruby call that either returns a value or raises an exception. */
  datatype Result<+T, +E> = Ok(value: T) | Err(error: E)
}
