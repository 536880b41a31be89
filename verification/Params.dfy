/** Sizes that several parts of the kernel share. */
module Params {
  /** One more than the largest unsigned int. */
  const WORD: nat := 0x1_0000_0000

  /** Blocks a file system operation may write, and blocks the log can hold. */
  const MAXOPBLOCKS: nat := 10
  const LOGSIZE: nat := 30
}
