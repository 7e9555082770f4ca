/** Small shared value types. */
module Wrappers {

  /** The conventional optional value; `None` stands for Go's nil. */
  datatype Option<+T> = None | Some(value: T)

  /** An octet, as in Go's `[]byte`. */
  newtype byte = b: int | 0 <= b < 256
}
