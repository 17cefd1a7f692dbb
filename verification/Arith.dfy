/** Products, quotients and remainders. */
module Arith {
  lemma MulAtLeast(d: int, base: int)
    requires d >= 1 && base >= 0
    ensures d * base >= base
  {
    assert d * base == (d - 1) * base + base;
  }

  /** Multiplication regrouped, once and for all. */
  lemma Regroup(o: int, b: int, p: int, k: int)
    ensures (o * k + b) * p == o * (p * k) + b * p
  {
    assert (o * k + b) * p == (o * k) * p + b * p;
    assert (o * k) * p == o * (p * k);
  }

  lemma SameQuotient(q: int, r: int, q': int, r': int, base: int)
    requires 0 <= r < base && 0 <= r' < base && q * base + r == q' * base + r'
    ensures q == q' && r == r'
  {
    assert (q' - q) * base == q' * base - q * base;
    assert (q - q') * base == q * base - q' * base;
    if q < q' {
      MulAtLeast(q' - q, base);
    } else if q' < q {
      MulAtLeast(q - q', base);
    }
  }

  lemma DivMod(x: nat, d: nat)
    requires d > 0
    ensures x == (x / d) * d + x % d && x % d < d
  {
  }

  lemma RemainderIs(x: int, base: int, q: int, r: int)
    requires 0 <= r < base && x == q * base + r
    ensures x % base == r && x / base == q
  {
    SameQuotient(x / base, x % base, q, r, base);
  }

  lemma QuotientBounds(n: nat, d: nat, low: nat, high: nat)
    requires d > 0 && low * d <= n <= high * d
    ensures low <= n / d <= high
  {
    var q: int, top: int := n / d, high;
    Regroup(low, -q, d, 1);
    Regroup(q, -top, d, 1);
    if low - q >= 1 {
      MulAtLeast(low - q, d);
    } else if q - high >= 1 {
      MulAtLeast(q - high, d);
    }
  }
}
