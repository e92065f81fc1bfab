/** Option and Result, the failure-carrying values used throughout the model. */
module Wrappers {

  datatype Option<+T> = None | Some(value: T)

  /** A panic in the source (an `unwrap`, an `expect`, a `panic!`, an
      out-of-bounds slice) is modelled as `Err` carrying its reason. */
  datatype Result<+T, +E> = Ok(value: T) | Err(error: E)
}
