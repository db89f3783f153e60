/** Facts about products and quotients of reals that the solver needs spelled out. */
module Arithmetic {

  lemma {:induction false} MulMono(a: real, b: real, c: real)
    requires a <= b && 0.0 <= c
    ensures a * c <= b * c
  {
  }

  lemma {:induction false} MulStrict(a: real, b: real, c: real)
    requires a < b && 0.0 < c
    ensures a * c < b * c
  {
  }

  lemma {:induction false} MulNonNegative(a: real, b: real)
    requires 0.0 <= a && 0.0 <= b
    ensures 0.0 <= a * b
  {
  }

  lemma {:induction false} MulPositive(a: real, b: real)
    requires 0.0 < a && 0.0 < b
    ensures 0.0 < a * b
  {
  }

  lemma {:induction false} DivTimes(a: real, b: real)
    requires b != 0.0
    ensures (a / b) * b == a
  {
  }

  lemma {:induction false} DivPositive(a: real, b: real)
    requires 0.0 < a && 0.0 < b
    ensures 0.0 < a / b
  {
  }

  lemma {:induction false} DivNonNegative(a: real, b: real)
    requires 0.0 <= a && 0.0 < b
    ensures 0.0 <= a / b
  {
  }

  /** Comparing a quotient is comparing the products. */
  lemma {:induction false} DivAtMost(a: real, b: real, c: real)
    requires 0.0 < b
    ensures a / b <= c <==> a <= c * b
    ensures c <= a / b <==> c * b <= a
  {
    var q := a / b;
    DivTimes(a, b);
    assert q * b == a;
    Compare(q, c, b);
  }

  lemma {:induction false} Compare(q: real, c: real, b: real)
    requires 0.0 < b
    ensures q <= c <==> q * b <= c * b
    ensures c <= q <==> c * b <= q * b
  {
    if q < c {
      MulStrict(q, c, b);
    } else if c < q {
      MulStrict(c, q, b);
    }
  }
}
