/** Option and Result, the two failure-carrying values the model uses in place of
    JavaScript's `undefined` and thrown `Error`s. */
module Wrappers {

  datatype Option<+T> = None | Some(value: T)

  /** `Err` carries the `message` of the Error the source throws. */
  datatype Result<+T> = Ok(value: T) | Err(error: string)
}
