/**
 The sizes of the machine's words.
 */
module Words {
  const UINT32: nat := 0x1_0000_0000
  const TWO63: int := 0x8000_0000_0000_0000
  const TWO64: int := 0x1_0000_0000_0000_0000
}
