/** Facts shared by the counting arguments. */
module Arithmetic {

  /** k shares of d fit into n only if k is at most the quotient. */
  lemma Quotient(k: nat, d: nat, n: nat)
    requires d > 0 && k * d <= n
    ensures k <= n / d
  {
    var q := n / d;
    assert n == q * d + n % d;
    if k > q { MulGap(k, q, d); }
  }

  /** d added up k times. */
  function Times(k: nat, d: nat): nat {
    if k == 0 then 0 else Times(k - 1, d) + d
  }

  lemma {:induction false} TimesIs(k: nat, d: nat)
    ensures Times(k, d) == k * d
  {
    if k > 0 {
      TimesIs(k - 1, d);
      assert k * d == (k - 1) * d + d;
    }
  }

  lemma SubsetSize<T>(a: set<T>, b: set<T>)
    requires a <= b
    ensures |a| <= |b|
  {
    SubsetRest(a, b);
  }

  lemma SubsetRest<T>(a: set<T>, b: set<T>)
    requires a <= b
    ensures |b - a| == |b| - |a| && (|a| == |b| ==> a == b)
  {
    assert b == a + (b - a);
  }

  lemma MulGap(k: nat, q: nat, d: nat)
    requires k > q
    ensures k * d >= q * d + d
  {
    assert (k - q - 1) * d >= 0;
    assert k * d == (q + 1) * d + (k - q - 1) * d;
  }
}
