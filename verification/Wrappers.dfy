/** Option and Result, used for the absent values and the error returns of every service. */
module Wrappers {

  datatype Option<+T> = None | Some(value: T)

  datatype Result<+T, +E> = Ok(value: T) | Err(error: E)

  type u32 = n: int | 0 <= n < 0x1_0000_0000
}
