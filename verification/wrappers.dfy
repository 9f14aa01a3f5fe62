/** Optional values and results with a textual error, as the weather lookup uses them. */
module Wrappers {

  datatype Option<+T> = None | Some(value: T)

  /** A computation that either produced a value or raised an exception whose str() is `detail`. */
  datatype Result<+T> = Ok(value: T) | Err(detail: string)
}
