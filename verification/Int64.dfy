/** Go's int64: two's-complement wrap-around written out over the unbounded integers. */
module Int64 {
  const MAX := 0x7FFF_FFFF_FFFF_FFFF
  const TWO_64 := 0x1_0000_0000_0000_0000
  const MAX_UINT64 := 0xFFFF_FFFF_FFFF_FFFF

  /** The int64 that holds x after overflow: the representative of x modulo 2^64. */
  function Wrap(x: int): (r: int)
    ensures -MAX - 1 <= r <= MAX
    ensures (r - x) % TWO_64 == 0
    ensures -MAX - 1 <= x <= MAX ==> r == x
  {
    var m := x % TWO_64;
    if m <= MAX then m else m - TWO_64
  }

  function Min(x: int, y: int): int {
    if x < y then x else y
  }
}
