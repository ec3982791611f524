/** The fixed-width unsigned integers of the editor and the saturating
    arithmetic it performs on them (a 64-bit target is assumed). */
module Num {
  const USIZE_MAX: int := 0xFFFF_FFFF_FFFF_FFFF

  /** A byte. */
  type u8 = x: int | 0 <= x < 0x100

  /** The width in which terminal sizes are reported. */
  type u16 = x: int | 0 <= x < 0x1_0000

  /** A machine-word index or count. */
  type usize = x: int | 0 <= x <= 0xFFFF_FFFF_FFFF_FFFF

  /** `x.saturating_sub(y)`: the difference, or 0 where it would be negative. */
  function SaturatingSub(x: usize, y: usize): (r: usize)
    ensures r <= x
    ensures y <= x ==> r + y == x
    ensures x < y ==> r == 0
  {
    if y <= x then x - y else 0
  }

  /** `x.saturating_add(y)`: the sum, or the largest `usize` where it would overflow. */
  function SaturatingAdd(x: usize, y: usize): (r: usize)
    ensures x <= r && y <= r
    ensures x + y <= USIZE_MAX ==> r == x + y
    ensures USIZE_MAX < x + y ==> r == USIZE_MAX
  {
    if x + y <= USIZE_MAX then x + y else USIZE_MAX
  }

  function Min(x: int, y: int): (r: int)
    ensures r <= x && r <= y
    ensures r == x || r == y
  {
    if x <= y then x else y
  }

  function Max(x: int, y: int): (r: int)
    ensures x <= r && y <= r
    ensures r == x || r == y
  {
    if x <= y then y else x
  }
}
