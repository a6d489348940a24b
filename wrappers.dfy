/** Result types shared by the launch model. */
module Wrappers {

  /** A value that may be absent: Java's `Optional`, or a field that may be `null`. */
  datatype Option<+T> = None | Some(value: T)

  /** A computed value or the error that stopped the computation (a thrown exception). */
  datatype Result<+T, +E> = Ok(value: T) | Err(error: E)

  /** Success without a value, or the error that stopped a `void` operation. */
  datatype Outcome<+E> = Pass | Fail(error: E)
}
