/** Failure-carrying results shared by every module. */
module Wrappers {
  datatype Option<+T> = None | Some(value: T)

  /** `Err` stands for a thrown exception or a Go error; its text is not modelled beyond a short tag. */
  datatype Result<+T> = Ok(value: T) | Err(error: string)
}
