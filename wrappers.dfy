/** Failure-carrying values for the OS reads that may be missing or may raise. */
module Wrappers {

  /** A value that the OS may not provide (`None` in Python, or an exception the caller swallows). */
  datatype Option<+T> = None | Some(value: T)

  /** The outcome of an OS call that may raise; `Err` carries the exception's message. */
  datatype Result<+T> = Ok(value: T) | Err(error: string)
}
