/** The few facts about products and quotients that the size arguments need. */
module Arith {

  lemma MulMonotone(a: nat, b: nat, d: nat)
    requires a <= b
    ensures a * d <= b * d && d * a <= d * b
  {
  }

  lemma MulNext(a: nat, d: nat)
    ensures (a + 1) * d == a * d + d
  {
  }

  /** Quotient and remainder are the only numbers that divide up x this way. */
  lemma Division(x: nat, d: nat, q: nat, r: nat)
    requires d > 0 && r < d && x == q * d + r
    ensures x / d == q && x % d == r
  {
    var p := x / d;
    assert x == d * p + x % d;
    if p < q {
      MulMonotone(p + 1, q, d);
      MulNext(p, d);
    } else if p > q {
      MulMonotone(q + 1, p, d);
      MulNext(q, d);
    }
  }
}
