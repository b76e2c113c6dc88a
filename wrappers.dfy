/** Option and Result: the source's "raise ValueError" paths become Err values. */
module Wrappers {

  datatype Option<+T> = None | Some(value: T)

  /** The outcome of an encoder: the command line, or the reason it was refused. */
  datatype Result<+T> = Ok(value: T) | Err(reason: string)
}
