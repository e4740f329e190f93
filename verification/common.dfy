/** Small shared vocabulary: an optional value and the byte type. */
module Wrappers {

  /** A value that may be absent: Python's `None` or an attribute not yet set. */
  datatype Option<+T> = None | Some(value: T)
}

module Bytes {

  /** One octet, as Python's `bytes` elements are: an int in 0..255. */
  type Byte = b: int | 0 <= b < 256

  /** A raw radio frame as the socket delivers it. */
  type Frame = seq<Byte>
}
