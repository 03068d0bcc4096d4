/** Small result types shared by the modules of the model. */
module Wrappers {

  datatype Option<+T> = None | Some(value: T)

  /** A Go `(value, error)` pair in which exactly one half is meaningful. */
  datatype Result<+T> = Ok(value: T) | Failed
}
