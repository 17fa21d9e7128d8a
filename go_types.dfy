// Go's fixed-width integers and the small value wrappers shared by the
// crawler and the wire-protocol modules.
module GoTypes {

  const TwoTo64: int := 0x1_0000_0000_0000_0000
  const MaxInt64: int := 0x7FFF_FFFF_FFFF_FFFF
  const MinInt64: int := -0x8000_0000_0000_0000

  type byte = x: int | 0 <= x < 0x100
  type uint32 = x: int | 0 <= x < 0x1_0000_0000
  type uint64 = x: int | 0 <= x < 0x1_0000_0000_0000_0000
  type int64 = x: int | -0x8000_0000_0000_0000 <= x <= 0x7FFF_FFFF_FFFF_FFFF

  type Bytes = seq<byte>

  datatype Option<+T> = None | Some(value: T)

  /** Go's conversion `uint64(x)` of an `int`: the value modulo 2^64. */
  function ToUint64(x: int64): (r: uint64)
    ensures 0 <= x ==> r == x
    ensures x < 0 ==> r == x + TwoTo64
  {
    x % TwoTo64
  }

  /** Go's `x / 2` on integers, which truncates toward zero. */
  function GoHalf(x: int): (r: int)
    ensures 0 <= x ==> 0 <= 2 * r <= x < 2 * r + 2
    ensures x < 0 ==> 2 * r - 2 < x <= 2 * r <= 0
  {
    if x >= 0 then x / 2 else -((-x) / 2)
  }

  /** Go's `uint64` increment `x + 1`, which wraps at 2^64. */
  function IncUint64(x: uint64): (r: uint64)
    ensures r != x
    ensures x < TwoTo64 - 1 ==> r == x + 1
    ensures x == TwoTo64 - 1 ==> r == 0
  {
    (x + 1) % TwoTo64
  }
}
