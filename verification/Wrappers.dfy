/** Stock result types for errors and missing values, and the smaller and larger of two numbers. */
module Wrappers {

  datatype Option<+T> = None | Some(value: T)

  /** A success, or a stable error code. */
  datatype Result<+T> = Ok(value: T) | Err(code: string)

  function Min(a: nat, b: nat): nat {
    if a < b then a else b
  }

  function Max(a: nat, b: nat): nat {
    if a < b then b else a
  }
}
