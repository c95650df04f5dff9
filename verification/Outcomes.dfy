/** Result types shared by every module. */
module Outcomes {
  datatype Option<+T> = None | Some(value: T)

  /** A transaction either commits with a value or is rolled back with a reason. */
  datatype Result<+T, +E> = Ok(value: T) | Err(error: E)
}
