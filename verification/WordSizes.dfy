/** Sizes of machine words. */
module WordSizes {
  const TWO32 := 0x1_0000_0000
  const TWO64 := 0x1_0000_0000_0000_0000
}
