/** Optional values and error results shared by the component modules. */
module Wrappers {

  /** A value that may be absent: a TypeScript `T | undefined` or `T | null`. */
  datatype Option<+T> = None | Some(value: T)

  /** The outcome of an operation that may throw with a message. */
  datatype Result<+T> = Ok(value: T) | Err(message: string)
}
