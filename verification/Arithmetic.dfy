/** Facts about products and remainders that the solver needs one at a time. */
module Arithmetic {
  lemma NextProduct(i: int, base: int)
    ensures (i + 1) * base == i * base + base
  {
  }

  lemma RemainderIs(k: int, n: int, q: int, r: int)
    requires n > 0 && k == q * n + r && 0 <= r < n
    ensures k % n == r
  {
    var d := q - k / n;
    assert d * n == (k % n) - r;
    SmallMultiple(d, n);
  }

  /** A multiple of n that is smaller than n either way is zero. */
  lemma SmallMultiple(d: int, n: int)
    requires n > 0 && -n < d * n < n
    ensures d == 0
  {
  }
}
