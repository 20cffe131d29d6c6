/** Products and quotients. */
module Numbers {

  lemma Scale(a: nat, b: nat, c: nat)
    ensures a <= b ==> c * a <= c * b
  {
  }

  lemma QuotientIs(n: nat, d: nat, q: nat, r: nat)
    requires d > 0 && n == d * q + r && r < d
    ensures n / d == q
  {
    Scale(n / d + 1, q, d);
    Scale(q + 1, n / d, d);
    assert n == d * (n / d) + n % d;
  }
}
