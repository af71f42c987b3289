/** Datatypes shared by every module of the model. */
module Prelude {

  /** A nullable column or an optional Python value. */
  datatype Option<+T> = None | Some(value: T)

  /** The value of a call that may raise. */
  datatype Result<+T, +E> = Ok(value: T) | Err(error: E)

  /** The larger of two integers. */
  function Max(a: int, b: int): int {
    if a < b then b else a
  }
}
