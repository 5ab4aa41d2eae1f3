/** C#'s 32-bit `int` and its unchecked (wrapping) arithmetic. */
module Int32 {
  const MinValue: int := -0x8000_0000
  const MaxValue: int := 0x7FFF_FFFF

  predicate InRange(x: int) {
    MinValue <= x <= MaxValue
  }

  /** The value an unchecked C# `int` operation stores for the exact result `x`. */
  function Wrap(x: int): (r: int)
    ensures InRange(r)
    ensures (r - x) % 0x1_0000_0000 == 0
    ensures InRange(x) ==> r == x
  {
    (x - MinValue) % 0x1_0000_0000 + MinValue
  }

  /** Wrapping the running sum at each step is wrapping the final sum. */
  lemma WrapOfSum(x: int, q: int)
    ensures Wrap(Wrap(x) + q) == Wrap(x + q)
  {
    var y := x - MinValue;
    var k, r := y / 0x1_0000_0000, y % 0x1_0000_0000;
    assert y == k * 0x1_0000_0000 + r;
    assert Wrap(Wrap(x) + q) == (r + q) % 0x1_0000_0000 + MinValue;
    assert Wrap(x + q) == (k * 0x1_0000_0000 + (r + q)) % 0x1_0000_0000 + MinValue;
  }
}
