/** Rust's unsigned integer widths, as bounded naturals. */
module Ints {

  const TWO_POW_64: nat := 0x1_0000_0000_0000_0000
  const U64_MAX: nat := TWO_POW_64 - 1
  const TWO_POW_128: nat := 0x1_0000_0000_0000_0000_0000_0000_0000_0000
  const U128_MAX: nat := TWO_POW_128 - 1

  type U64 = x: nat | x <= U64_MAX
  type U128 = x: nat | x <= U128_MAX

  /** `x as u64`: keep the low 64 bits. */
  function AsU64(x: nat): (r: U64)
    ensures x <= U64_MAX ==> r == x
  {
    x % TWO_POW_64
  }

  lemma MulMonotone(a: nat, b: nat, c: nat)
    requires a <= b
    ensures a * c <= b * c
  {
    assert b * c - a * c == (b - a) * c;
  }

  /** A quotient stays at or below `a` when the dividend is at most `a * d`. */
  lemma {:induction false} DivAtMost(p: nat, a: nat, d: nat)
    requires d > 0 && p <= a * d
    ensures p / d <= a
  {
    var q := p / d;
    assert d * q <= p;
    if q > a {
      MulMonotone(a + 1, q, d);
      assert false;
    }
  }
}
