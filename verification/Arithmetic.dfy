/** Products and quotients, one small fact at a time. */
module Arithmetic {

  const UINT32: nat := 0x1_0000_0000

  lemma MulMono(a: nat, b: nat, k: nat)
    requires a <= b
    ensures a * k <= b * k && k * a <= k * b
  {
  }

  lemma DivSpec(a: nat, b: nat)
    requires b > 0
    ensures (a / b) * b <= a < (a / b + 1) * b
  {
    assert a == b * (a / b) + a % b;
  }

  lemma DivAtLeast(a: nat, b: nat, q: nat)
    requires b > 0 && q * b <= a
    ensures a / b >= q
  {
    DivSpec(a, b);
    if a / b < q {
      MulMono(a / b + 1, q, b);
    }
  }

  lemma DivAtMost(a: nat, b: nat, q: nat)
    requires b > 0 && a < (q + 1) * b
    ensures a / b <= q
  {
    DivSpec(a, b);
    if a / b > q {
      MulMono(q + 1, a / b, b);
    }
  }

  lemma DivAntitone(a: nat, b: nat, c: nat)
    requires 0 < b <= c
    ensures a / c <= a / b
  {
    DivSpec(a, c);
    MulMono(b, c, a / c);
    DivAtLeast(a, b, a / c);
  }

  lemma MulAssoc(a: nat, b: nat, c: nat)
    ensures a * (b * c) == (a * b) * c
  {
  }

  lemma MulStrict(a: nat, b: nat, k: nat)
    requires a < b && k > 0
    ensures a * k < b * k
  {
    MulMono(a + 1, b, k);
  }

  lemma DivScale(a: nat, b: nat, k: nat)
    requires b > 0 && k > 0
    ensures b * k > 0 && (a * k) / (b * k) == a / b
  {
    var q := a / b;
    DivSpec(a, b);
    MulStrict(0, b, k);
    assert q * (b * k) <= a * k by {
      MulAssoc(q, b, k);
      MulMono(q * b, a, k);
    }
    assert a * k < (q + 1) * (b * k) by {
      MulAssoc(q + 1, b, k);
      MulStrict(a, (q + 1) * b, k);
    }
    DivAtLeast(a * k, b * k, q);
    DivAtMost(a * k, b * k, q);
  }

  lemma DivIs(a: nat, b: nat, q: nat)
    requires b > 0 && q * b <= a < (q + 1) * b
    ensures a / b == q
  {
    DivAtLeast(a, b, q);
    DivAtMost(a, b, q);
  }
}
