/** What every part of the model uses. */
module Common {
  datatype Option<+T> = None | Some(value: T)

  /** 2^32 and the size of a page (memory.c:12). */
  const U32: nat := 0x1_0000_0000
  const PAGE: nat := 4096

  /** An unsigned 32-bit integer. */
  type Word = n: nat | n < 0x1_0000_0000
}
