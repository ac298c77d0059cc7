/** Integer widths and simulator-wide constants (types/types.go, dispatcher/types.go). */
module SimTypes {
  type Byte = x: int | 0 <= x < 0x100
  type Word16 = x: int | 0 <= x < 0x1_0000
  type Word32 = x: int | 0 <= x < 0x1_0000_0000

  const MAX_INT32 := 0x7fff_ffff

  // The simulator's infinity: half of the largest 64-bit unsigned integer.
  const EVER: nat := 0x7fff_ffff_ffff_ffff

  // The owner of events whose node was deleted. Real node ids are positive.
  const INVALID_NODE_ID := 0
}
