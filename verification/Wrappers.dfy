/** Small types that several modules share. */
module Wrappers {

  /** A pointer that may be null, a map entry that may be missing. */
  datatype Option<+T> = None | Some(value: T)

  /** An unsigned byte. */
  type Byte = x: int | 0 <= x < 256

  type Bytes = seq<Byte>
}
