/** Serial-number comparison of 32-bit counters that wrap around. */
module Serial {
  import opened Types

  const SPAN: int := 0x1_0000_0000
  const HALF_SPAN: int := 0x7FFF_FFFF

  function Wrap(n: int): u32 { n % SPAN }

  /** Unsigned 32-bit subtraction. */
  function Minus(a: u32, b: u32): u32 { (a - b) % SPAN }

  predicate Less(lhs: u32, rhs: u32) {
    lhs != rhs && Minus(rhs, lhs) < HALF_SPAN
  }

  predicate Greater(lhs: u32, rhs: u32) {
    lhs != rhs && Minus(rhs, lhs) > HALF_SPAN
  }

  predicate GreaterOrEqual(lhs: u32, rhs: u32) {
    lhs == rhs || Minus(rhs, lhs) > HALF_SPAN
  }

  /** Counters that never wrap and are less than 2^31 - 1 apart are ordered by their low 32 bits. */
  lemma RefinesOrder(a: int, b: int)
    requires -HALF_SPAN < a - b < HALF_SPAN
    ensures Less(Wrap(a), Wrap(b)) <==> a < b
    ensures Greater(Wrap(a), Wrap(b)) <==> a > b
    ensures GreaterOrEqual(Wrap(a), Wrap(b)) <==> a >= b
  {
    WrapMinus(a, b);
  }

  lemma WrapMinus(a: int, b: int)
    ensures Minus(Wrap(b), Wrap(a)) == (b - a) % SPAN
    ensures Wrap(a) == Wrap(b) <==> (b - a) % SPAN == 0
  {
    var q := a / SPAN - b / SPAN;
    assert Wrap(b) - Wrap(a) == (b - a) + q * SPAN;
  }

  // Section 3.2 of RFC 1982 with SERIAL_BITS = 32.
  predicate RfcLess(i1: u32, i2: u32) {
    || (i1 < i2 && i2 - i1 < 0x8000_0000)
    || (i1 > i2 && i1 - i2 > 0x8000_0000)
  }

  predicate RfcGreater(i1: u32, i2: u32) {
    || (i1 < i2 && i2 - i1 > 0x8000_0000)
    || (i1 > i2 && i1 - i2 < 0x8000_0000)
  }

  /** The comparisons leave RFC 1982 at exactly one forward distance each. */
  lemma AgreesWithRfc1982(a: u32, b: u32)
    ensures (Less(a, b) == RfcLess(a, b)) <==> Minus(b, a) != 0x7FFF_FFFF
    ensures (Greater(a, b) == RfcGreater(a, b)) <==> Minus(b, a) != 0x8000_0000
    ensures (GreaterOrEqual(a, b) == (a == b || RfcGreater(a, b))) <==> Minus(b, a) != 0x8000_0000
  {
    if a <= b {
      assert Minus(b, a) == b - a;
    } else {
      assert Minus(b, a) == b - a + SPAN;
    }
  }
}
