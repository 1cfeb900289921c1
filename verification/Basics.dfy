/** Types that several parts share. */
module Basics {

  datatype Option<T> = None | Some(value: T)

  type Byte = x: nat | x < 256

  type ByteString = seq<Byte>
}
