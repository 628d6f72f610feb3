/** The fixed-width integer types the core uses: `i32` for process ids, `u32` for window ids. */
module Ints {
  const TwoTo31: int := 0x8000_0000
  const TwoTo32: int := 0x1_0000_0000

  newtype i32 = x: int | -TwoTo31 <= x < TwoTo31
  newtype u32 = x: int | 0 <= x < TwoTo32

  /** Rust's `x as i32` on a `u32`: the same 32 bits read as two's complement. */
  function AsI32(x: u32): (r: i32)
    ensures (r as int - x as int) % TwoTo32 == 0
    ensures x as int < TwoTo31 <==> r as int == x as int
    ensures r < 0 <==> x as int >= TwoTo31
  {
    if x as int < TwoTo31 then x as int as i32 else (x as int - TwoTo32) as i32
  }
}
