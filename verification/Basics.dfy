/** Shared notions: a value that may be absent, and the range of a 32-bit word. */
module Basics {
  datatype Option<T> = None | Some(value: T)

  const WORD := 0x1_0000_0000
}
