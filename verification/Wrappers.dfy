/** Result types and units shared by the models. */
module Wrappers {
  datatype Option<+T> = None | Some(value: T)

  /** In nanoseconds. */
  const SECOND: nat := 1_000_000_000

  datatype Result<+T, +E> = Ok(value: T) | Err(error: E)
}
