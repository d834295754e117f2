/** The few product laws the proofs use, one fact at a time. */
module Arith {

  lemma Distribute(a: int, b: int, k: int)
    ensures (a + b) * k == a * k + b * k
  {
  }

  lemma Reassociate(a: int, b: int, c: int)
    ensures (a * b) * c == a * (b * c) == b * (a * c) == (a * c) * b
  {
  }

  lemma MulOrder(a: int, b: int, k: nat)
    requires a <= b
    ensures a * k <= b * k
  {
    assert 0 <= (b - a) * k;
    Distribute(a, b - a, k);
  }

  lemma MulStrict(a: int, b: int, k: nat)
    requires a < b && k > 0
    ensures a * k < b * k
  {
    MulOrder(a + 1, b, k);
    Distribute(a, 1, k);
  }

  lemma ProductGrows(a: nat, k: nat)
    requires k > 0
    ensures a <= a * k
  {
    MulOrder(1, k, a);
  }

  /** An order between multiples is an order between factors. */
  lemma FactorOrder(a: int, b: int, k: nat)
    requires k > 0 && a * k < b * k + k
    ensures a <= b
  {
    if a > b {
      MulOrder(b + 1, a, k);
      Distribute(b, 1, k);
    }
  }

  lemma FactorStrict(a: int, b: int, k: nat)
    requires k > 0 && a * k < b * k
    ensures a < b
  {
    if a >= b { MulOrder(b, a, k); }
  }

  lemma DivBounds(n: nat, d: nat)
    requires d > 0
    ensures (n / d) * d <= n < (n / d) * d + d
    ensures n == (n / d) * d + n % d
  {
    assert n == d * (n / d) + n % d;
  }

  lemma DivIs(n: nat, d: nat, q: nat)
    requires d > 0 && q * d <= n < q * d + d
    ensures n / d == q
  {
    DivBounds(n, d);
    FactorOrder(q, n / d, d);
    FactorOrder(n / d, q, d);
  }
}
