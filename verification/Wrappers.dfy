/** A value that may be missing. */
module Wrappers {
  datatype Option<T> = None | Some(value: T)
}

/** Eight-bit values. */
module Bytes {
  type byte = b: int | 0 <= b < 256
}
