/** Option and Result, used for JavaScript's null/undefined and for transport results. */
module Wrappers {

  /** `None` stands for a JavaScript `null` or `undefined`. */
  datatype Option<+T> = None | Some(value: T)

  /** What an awaited request resolves to: its data, or the error it reports. */
  datatype Result<+T> = Success(value: T) | Failure(error: string)
}
