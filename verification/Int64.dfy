/** The 64-bit signed integers of the source, with Go's wrap-around arithmetic written out. */
module Int64 {
  import opened Wrappers

  const MIN_INT64: int := -0x8000_0000_0000_0000
  const MAX_INT64: int := 0x7fff_ffff_ffff_ffff

  type int64 = x: int | -0x8000_0000_0000_0000 <= x <= 0x7fff_ffff_ffff_ffff

  /** Bytes whose length is such an integer. */
  type Content = b: Bytes | |b| <= MAX_INT64

  /** The value a 64-bit register holds after an operation whose exact result is `x`. */
  function Wrap(x: int): (w: int64)
    ensures MIN_INT64 <= x <= MAX_INT64 ==> w == x
  {
    var m := x % 0x1_0000_0000_0000_0000;
    if m <= MAX_INT64 then m else m - 0x1_0000_0000_0000_0000
  }
}
