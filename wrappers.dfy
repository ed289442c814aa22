/** Nullable values and the provider's error values. */
module Wrappers {

  /** A Go pointer, function value or interface that may be nil. */
  datatype Option<+T> = None | Some(value: T)

  /** The errors this provider returns; only "not supported" exists. */
  datatype Error = NotSupported(message: string)
}
