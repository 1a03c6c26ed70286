/** Facts about products and quotients that the solver needs one step at a time. */
module Arithmetic {

  lemma MulLe(a: nat, b: nat, c: nat)
    requires a <= b
    ensures a * c <= b * c
  {
  }

  /** Comparing a quotient is comparing a multiple. */
  lemma QuotientAtLeast(s: nat, k: nat, m: nat)
    requires k > 0
    ensures s / k >= m <==> m * k <= s
  {
    var q, r := s / k, s % k;
    assert s == q * k + r;
    if q >= m {
      MulLe(m, q, k);
    } else {
      MulLe(q + 1, m, k);
      assert (q + 1) * k == q * k + k;
    }
  }

  /** Quotient and remainder are the only ones. */
  lemma Quotient(n: nat, m: nat, q: nat, r: nat)
    requires r < m && n == q * m + r
    ensures n / m == q && n % m == r
  {
    assert (q + 1) * m == q * m + m;
    QuotientAtLeast(n, m, q);
    QuotientAtLeast(n, m, q + 1);
    assert n == (n / m) * m + n % m;
  }
}
