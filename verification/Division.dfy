/** Uniqueness of quotient and remainder. */
module Division {

  lemma MultipleOutside(d: int, k: int)
    requires d > 0
    ensures k == 0 || d * k >= d || d * k <= -d
  {
    if k > 0 { assert d * k >= d * 1; }
    if k < 0 { assert d * k <= d * -1; }
  }

  lemma QuotientUnique(a: int, d: int, q: int, r: int)
    requires d > 0 && a == q * d + r && 0 <= r < d
    ensures a / d == q && a % d == r
  {
    assert d * (a / d - q) == r - a % d;
    MultipleOutside(d, a / d - q);
  }
}
