/** Types shared by every module: the runtime's `Option`, `Result` and `u8`. */
module Wrappers {

  datatype Option<+T> = None | Some(value: T)

  datatype Result<+T, +E> = Success(value: T) | Failure(error: E)

  newtype Byte = x: int | 0 <= x < 256
}
