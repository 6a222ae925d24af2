/** One past the largest value of Rust's unsigned types. */
module Integers {
  const U8_LIMIT := 0x100
  const U32_LIMIT := 0x1_0000_0000
  const U64_LIMIT := 0x1_0000_0000_0000_0000
}
