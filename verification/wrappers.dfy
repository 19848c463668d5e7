/** Option and Result values for the source's `None` returns and raised exceptions. */
module Wrappers {

  datatype Option<+T> = None | Some(value: T)

  /** `Err` carries the message an exception or an HTTP error would carry. */
  datatype Result<+T, +E> = Ok(value: T) | Err(error: E)
}
