/** Go's int32: every sum and difference wraps around at 32 bits. */
module Int32 {
  const MODULUS: int := 0x1_0000_0000
  const HALF: int := 0x8000_0000

  predicate Fits(x: int) {
    -HALF <= x < HALF
  }

  function Wrap(x: int): (w: int)
    ensures Fits(w)
    ensures (w - x) % MODULUS == 0
    ensures Fits(x) ==> w == x
  {
    (x + HALF) % MODULUS - HALF
  }

  /** Wrapping each partial sum is the same as wrapping the total. */
  lemma WrapAbsorbs(x: int, y: int)
    ensures Wrap(Wrap(x) + y) == Wrap(x + y)
    ensures Wrap(x + Wrap(y)) == Wrap(x + y)
  {
    WrapOnce(x, y);
    WrapOnce(y, x);
  }

  lemma WrapOnce(x: int, y: int)
    ensures Wrap(Wrap(x) + y) == Wrap(x + y)
  {
    var q := (x + HALF) / MODULUS;
    assert Wrap(x) == x - q * MODULUS;
    var z := x + y + HALF;
    assert (z - q * MODULUS) % MODULUS == z % MODULUS;
  }
}
