/** Failure-carrying datatypes shared by the export-writer model. */
module Outcomes {

  /** A value that may be absent: a bean field that is null, a lookup that misses. */
  datatype Option<+T> = None | Some(value: T)

  /** The outcome of one writer call: the next value, or the error the call raised. */
  datatype Result<+T, +E> = Ok(value: T) | Err(error: E)
}
