/** Arithmetic of indices that wrap around at the number of slots of a ring. */
module Wrapping {

  /** The slot that holds the element with running number `k`. */
  function Wrap(k: nat, n: nat): nat
    requires n > 0
  {
    k % n
  }

  /** Increment with the explicit test the queue uses in place of a remainder. */
  function Succ(i: nat, n: nat): nat {
    if i + 1 == n then 0 else i + 1
  }

  /** Distance from `r` to `w` around the ring, as `size()` computes it. */
  function Gap(w: nat, r: nat, n: nat): int {
    if w - r < 0 then w - r + n else w - r
  }

  lemma WrapStep(k: nat, n: nat)
    requires n > 0
    ensures Wrap(k, n) < n
    ensures Wrap(k + 1, n) == Succ(Wrap(k, n), n)
  {
    var q, r := k / n, k % n;
    assert k + 1 == n * q + (r + 1);
    if r + 1 == n {
      assert k + 1 == n * (q + 1);
      DivModUnique(k + 1, n, q + 1, 0);
    } else {
      DivModUnique(k + 1, n, q, r + 1);
    }
  }

  lemma DivModUnique(a: nat, n: nat, q: nat, r: nat)
    requires n > 0 && r < n && a == n * q + r
    ensures a / n == q && a % n == r
  {
    var q', r' := a / n, a % n;
    assert n * (q - q') == r' - r;
    MultipleBounds(n, q - q');
  }

  lemma WrapPeriod(k: nat, n: nat)
    requires n > 0
    ensures Wrap(k + n, n) == Wrap(k, n)
  {
    assert k + n == n * (k / n + 1) + k % n;
    DivModUnique(k + n, n, k / n + 1, k % n);
  }

  /** A multiple of `n` is no closer to zero than its factor allows. */
  lemma MultipleBounds(n: nat, d: int)
    ensures d >= 1 ==> n * d >= n
    ensures d >= 2 ==> n * d >= 2 * n
    ensures d <= 0 ==> n * d <= 0
    ensures d <= -1 ==> n * d + n <= 0
  {
    if d >= 2 {
      assert n * d == 2 * n + n * (d - 2);
    } else if d <= -1 {
      assert n * d + n == n * (d + 1);
    }
  }

  /** Fewer than `n` consecutive running numbers occupy distinct slots. */
  lemma WrapInjective(a: nat, b: nat, n: nat)
    requires n > 0 && a < b < a + n
    ensures Wrap(a, n) != Wrap(b, n)
  {
    var d := b / n - a / n;
    assert b - a == n * d + (b % n - a % n);
    MultipleBounds(n, d);
  }

  /** The wrapped difference recovers the true distance. */
  lemma GapIsDistance(w: nat, r: nat, n: nat)
    requires n > 0 && r <= w < r + n
    ensures Gap(Wrap(w, n), Wrap(r, n), n) == w - r
  {
    var d := w / n - r / n;
    assert w - r == n * d + (w % n - r % n);
    MultipleBounds(n, d);
  }
}
