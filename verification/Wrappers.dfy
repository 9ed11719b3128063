/** Absent values and failures, as the rest of the project uses them. */
module Wrappers {
  datatype Option<+T> = None | Some(value: T)

  /** `Err` carries the name of the exception or rejection the source reports. */
  datatype Result<+T> = Ok(value: T) | Err(error: string)
}
