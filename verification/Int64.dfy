/** Go's int64: two's complement, addition and subtraction wrap around silently. */
module Int64 {
  const MIN := -0x8000_0000_0000_0000
  const MAX := 0x7FFF_FFFF_FFFF_FFFF
  const MODULUS := 0x1_0000_0000_0000_0000

  type int64 = x: int | MIN <= x <= MAX

  predicate Fits(x: int) {
    MIN <= x <= MAX
  }

  /** The int64 that wrapping arithmetic leaves for the mathematical value x. */
  function Wrap(x: int): (r: int64)
    ensures Fits(x) ==> r == x
    ensures (r - x) % MODULUS == 0
  {
    var m := x % MODULUS;
    if m <= MAX then m else m - MODULUS
  }

  function Add(x: int, y: int): int64 {
    Wrap(x + y)
  }

  function Sub(x: int, y: int): int64 {
    Wrap(x - y)
  }

  /** Two values wrap to the same int64 exactly when they differ by a multiple of 2^64. */
  lemma WrapEqual(x: int, y: int)
    ensures Wrap(x) == Wrap(y) <==> (x - y) % MODULUS == 0
  {
    if Wrap(x) == Wrap(y) {
      var kx, ky := (Wrap(x) - x) / MODULUS, (Wrap(y) - y) / MODULUS;
      assert x - y == 0 + (ky - kx) * MODULUS;
      ModPlusMultiple(0, ky - kx);
    } else if (x - y) % MODULUS == 0 {
      var k := (x - y) / MODULUS;
      assert x == y + k * MODULUS;
      ModPlusMultiple(y, k);
    }
  }

  lemma ModPlusMultiple(y: int, k: int)
    ensures (y + k * MODULUS) % MODULUS == y % MODULUS
  {
    var q, r := y / MODULUS, y % MODULUS;
    assert y + k * MODULUS == (q + k) * MODULUS + r;
  }

  /** Adding an already wrapped sum is the same as wrapping once at the end. */
  lemma WrapAdd(x: int, y: int)
    ensures Wrap(Wrap(x) + y) == Wrap(x + y)
  {
    var k := (Wrap(x) - x) / MODULUS;
    assert Wrap(x) + y == x + y + k * MODULUS;
    ModPlusMultiple(x + y, k);
  }
}
