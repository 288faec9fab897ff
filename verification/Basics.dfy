/** Small datatypes shared by every module. */
module Basics {

  /** A value that may be absent: Go's nil, an empty label, a missing file. */
  datatype Option<+T> = None | Some(value: T)

  type Octet = x: int | 0 <= x < 256
}
