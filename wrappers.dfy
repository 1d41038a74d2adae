/** Option and Result values for the optional environment variable and the
    abstract outcome of each filesystem call. */
module Wrappers {

  datatype Option<+T> = None | Some(value: T)

  /** The outcome of a call that either yields a value or throws with a message. */
  datatype Result<+T> = Ok(value: T) | Err(message: string)

  /** The outcome of a call that returns nothing or throws with a message. */
  datatype Status = Done | Failed(message: string)
}
