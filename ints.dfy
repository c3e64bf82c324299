/** Java's 32-bit int: its range and its wrapping addition. */
module JavaInt {

  /** Integer.MIN_VALUE and Integer.MAX_VALUE. */
  const MinInt: int := -0x8000_0000
  const MaxInt: int := 0x7FFF_FFFF

  predicate InIntRange(x: int) {
    MinInt <= x <= MaxInt
  }

  /** a + b on Java ints: the sum wrapped into the int range. */
  function AddInt(a: int, b: int): (r: int)
    ensures InIntRange(r)
    ensures (r - (a + b)) % 0x1_0000_0000 == 0
    ensures InIntRange(a + b) ==> r == a + b
  {
    (a + b - MinInt) % 0x1_0000_0000 + MinInt
  }
}
