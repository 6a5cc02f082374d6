/** Optional values and results that either carry a value or an error message. */
module Wrappers {

  /** `T | null` of the TypeScript source. */
  datatype Option<+T> = None | Some(value: T)

  /** A settled promise: fulfilled with a value, or rejected with an `Error` whose message is given. */
  datatype Result<+T> = Ok(value: T) | Err(message: string)
}
