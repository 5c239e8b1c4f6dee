/** Unsigned integers of the source's widths. */
module Widths {
  const U16_LIMIT: nat := 0x1_0000
  const U32_LIMIT: nat := 0x1_0000_0000
  const U64_MAX: nat := 0xffff_ffff_ffff_ffff

  type U16 = n: nat | n < U16_LIMIT
  type U64 = n: nat | n <= U64_MAX
}
