/** The small types the other modules share. */
module Wrappers {

  datatype Option<+T> = None | Some(value: T)

  /** `Ok` for a value returned, `Err` for an exception thrown. */
  datatype Result<+T, +E> = Ok(value: T) | Err(error: E)

  /** How a call to another system ends: it may take effect and still report failure. */
  datatype Fate = Works | FailsWithoutEffect | FailsAfterEffect
}
