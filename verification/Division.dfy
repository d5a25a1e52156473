/** Quotient and remainder are determined by what they add up to. */
module Division {

  lemma Remainder(n: int, d: nat, q: int, r: nat)
    requires d > 0 && n == q * d + r && r < d
    ensures n % d == r && n / d == q
  {
    var q', r' := n / d, n % d;
    assert n == q' * d + r';
    assert (q - q') * d == r' - r by { assert (q - q') * d == q * d - q' * d; }
    if q > q' { Scaled(q - q', d); } else if q < q' { Scaled(q' - q, d); }
  }

  lemma Scaled(k: nat, d: nat)
    requires k >= 1
    ensures k * d >= d
  {
    assert k * d == d + (k - 1) * d;
  }
}
