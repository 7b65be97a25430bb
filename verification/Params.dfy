/** The sizes of the program (mf_common.h:6-9, common.h:16). */
module Params {

  /** Rows of P and of Q, and elements per row. */
  const N: nat := 1000990
  const M: nat := 624961
  const K: nat := 100

  /** Entries of the PS's arrays, one per worker. */
  const CAP: nat := 2000

  /** Bytes of a registered buffer. */
  const BUFFER_SIZE: nat := 500 * 1024 * 1024

  /** `sizeof(struct Block)` with an 8-byte pointer, and `sizeof(double)`. */
  const STRUCT_SIZE: nat := 32
  const DOUBLE_SIZE: nat := 8
}
