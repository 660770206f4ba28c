/** Optional values and settled request results. */
module Wrappers {

  /** A value that may be absent, such as the optional `message` field of a JSON reply. */
  datatype Option<+T> = None | Some(value: T)

  /** The settled state of a request: the reply's data, or the text of the error it raised. */
  datatype Result<+T, +E> = Ok(value: T) | Err(error: E)
}
