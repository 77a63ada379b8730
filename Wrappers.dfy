/** Option and Result: the `undefined`-or-value and value-or-thrown-error shapes of the TypeScript source. */
module Wrappers {

  datatype Option<+T> = None | Some(value: T)

  datatype Result<+R, +E> = Ok(value: R) | Err(error: E)
}
