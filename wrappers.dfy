/** Option and Result values used for the source's `undefined`/`null` results and its errors. */
module Wrappers {

  datatype Option<+T> = None | Some(value: T)

  /** An outcome that is either a value or the error the source throws or returns. */
  datatype Result<+T, +E> = Ok(value: T) | Err(error: E)
}
