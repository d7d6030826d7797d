/** The delays between attempts: exponential up to a cap, with a quarter of jitter either way. Waits are in
    nanoseconds; the arithmetic is over the reals, the result truncated to a whole number. */
module Backoff {

  function Pow2(n: int): real
    decreases if n < 0 then -n else n
  {
    if n == 0 then 1.0 else if n > 0 then 2.0 * Pow2(n - 1) else Pow2(n + 1) / 2.0
  }

  datatype Strategy = Strategy(baseWait: int, maxWait: int)

  /** A draw of rand.Float64. */
  predicate Draw(r: real) {
    0.0 <= r < 1.0
  }

  /** The delay before jitter. */
  function Capped(s: Strategy, attempt: int): real {
    var delay := s.baseWait as real * Pow2(attempt - 1);
    if delay > s.maxWait as real then s.maxWait as real else delay
  }

  function Jittered(delay: real, r: real): real {
    delay + delay * 0.25 * (r * 2.0 - 1.0)
  }

  /** Conversion to an integer duration: towards zero. */
  function Truncate(x: real): int {
    if x >= 0.0 then x.Floor else -((-x).Floor)
  }

  function NextDelay(s: Strategy, attempt: int, r: real): int {
    Truncate(Jittered(Capped(s, attempt), r))
  }

  predicate Waits(s: Strategy) {
    s.baseWait >= 0 && s.maxWait >= 0
  }

  lemma {:induction false} Pow2Positive(n: int)
    ensures Pow2(n) > 0.0
    decreases if n < 0 then -n else n
  {
    if n > 0 { Pow2Positive(n - 1); } else if n < 0 { Pow2Positive(n + 1); }
  }

  lemma CappedBounds(s: Strategy, attempt: int)
    requires Waits(s)
    ensures 0.0 <= Capped(s, attempt) <= s.maxWait as real
    ensures Capped(s, attempt) <= s.baseWait as real * Pow2(attempt - 1)
  {
    Pow2Positive(attempt - 1);
    NonNegative(s.baseWait as real, Pow2(attempt - 1));
  }

  lemma NonNegative(a: real, b: real)
    requires a >= 0.0 && b >= 0.0
    ensures a * b >= 0.0
  {
  }

  lemma JitterBounds(delay: real, r: real)
    requires delay >= 0.0 && Draw(r)
    ensures 0.75 * delay <= Jittered(delay, r) <= 1.25 * delay
    ensures delay > 0.0 ==> Jittered(delay, r) < 1.25 * delay
  {
    assert Jittered(delay, r) == 0.75 * delay + delay * (r * 0.5);
    assert 0.0 <= delay * (r * 0.5);
    if delay > 0.0 { assert delay * (r * 0.5) < delay * 0.5; }
  }

  lemma DelayBounds(s: Strategy, attempt: int, r: real)
    requires Waits(s) && Draw(r)
    ensures var c := Capped(s, attempt); var d := NextDelay(s, attempt, r);
      d >= 0 && 0.75 * c - 1.0 < d as real <= 1.25 * c
  {
    CappedBounds(s, attempt);
    JitterBounds(Capped(s, attempt), r);
  }

  lemma JitterIs(delay: real, r: real)
    ensures Jittered(delay, r) == 0.75 * delay + delay * (0.5 * r)
  {
  }

  /** A delay is base * 2^(attempt - 1), or the cap where that is more, times three quarters plus half the draw, less what
      truncation drops: whatever the draw, within a quarter of the capped exponential. */
  lemma WithinAQuarter(s: Strategy, attempt: int, r: real)
    requires Waits(s) && Draw(r)
    ensures var x := s.baseWait as real * Pow2(attempt - 1); var c := if x > s.maxWait as real then s.maxWait as real else x;
      var d := NextDelay(s, attempt, r);
      && d >= 0 && 0.75 * c - 1.0 < d as real <= 1.25 * c
      && d as real <= 0.75 * c + c * (0.5 * r) < d as real + 1.0
  {
    DelayBounds(s, attempt, r);
    JitterIs(Capped(s, attempt), r);
    TruncationDrops(s, attempt, r);
  }

  lemma TruncationDrops(s: Strategy, attempt: int, r: real)
    requires Waits(s) && Draw(r)
    ensures NextDelay(s, attempt, r) as real <= Jittered(Capped(s, attempt), r) < NextDelay(s, attempt, r) as real + 1.0
  {
    CappedBounds(s, attempt);
    JitterBounds(Capped(s, attempt), r);
  }

  /** Before truncation, no draws make the later delay shorter exactly when five of the earlier are at most three of
      the later. */
  lemma NeverShrinksExactly(a: real, b: real)
    requires a >= 0.0 && b >= 0.0
    ensures (forall r, q {:trigger Jittered(a, r), Jittered(b, q)} :: Draw(r) && Draw(q) ==> Jittered(a, r) <= Jittered(b, q))
            <==> 5.0 * a <= 3.0 * b
  {
    if 5.0 * a <= 3.0 * b {
      forall r, q | Draw(r) && Draw(q) ensures Jittered(a, r) <= Jittered(b, q) {
        JitterBounds(a, r);
        JitterBounds(b, q);
      }
    } else {
      var r := Shrinking(a, b);
      assert Draw(r) && Draw(0.0);
    }
  }

  lemma Shrinking(a: real, b: real) returns (r: real)
    requires a >= 0.0 && b >= 0.0 && 5.0 * a > 3.0 * b
    ensures Draw(r) && Jittered(a, r) > Jittered(b, 0.0)
  {
    var gap := 5.0 * a - 3.0 * b;
    if gap >= 2.0 * a {
      r := 0.5;
      assert Jittered(a, r) == a;
    } else {
      r := 1.0 - gap / (4.0 * a);
      assert a * (gap / (4.0 * a)) == gap / 4.0;
      assert Jittered(a, r) == 1.25 * a - 0.5 * (a * (gap / (4.0 * a)));
    }
  }

  /** While the cap is not reached, no draws make a later delay shorter. */
  lemma GrowsUncapped(s: Strategy, attempt: int, r: real, q: real)
    requires Waits(s) && Draw(r) && Draw(q) && attempt >= 1
    requires s.baseWait as real * Pow2(attempt) <= s.maxWait as real
    ensures NextDelay(s, attempt, r) <= NextDelay(s, attempt + 1, q)
  {
    var a, b := Capped(s, attempt), Capped(s, attempt + 1);
    Doubles(s, attempt);
    CappedBounds(s, attempt);
    JitterBounds(a, r);
    JitterBounds(b, q);
  }

  lemma Doubles(s: Strategy, attempt: int)
    requires Waits(s) && attempt >= 1 && s.baseWait as real * Pow2(attempt) <= s.maxWait as real
    ensures Capped(s, attempt + 1) == 2.0 * Capped(s, attempt)
  {
  }

  /** The delays before attempts 2, 3, ..., |draws| + 1. */
  function Total(s: Strategy, draws: seq<real>): int {
    if draws == [] then 0 else Total(s, draws[..|draws| - 1]) + NextDelay(s, |draws|, draws[|draws| - 1])
  }

  /** baseWait, twice baseWait, and so on: n terms. */
  function Doublings(s: Strategy, n: nat): real {
    if n == 0 then 0.0 else Doublings(s, n - 1) + s.baseWait as real * Pow2(n - 1)
  }

  lemma {:induction false} DoublingsAre(s: Strategy, n: nat)
    ensures Doublings(s, n) == s.baseWait as real * (Pow2(n) - 1.0)
  {
    if n > 0 {
      DoublingsAre(s, n - 1);
      GeometricStep(s.baseWait as real, Pow2(n - 1));
    }
  }

  lemma GeometricStep(base: real, p: real)
    ensures base * (2.0 * p - 1.0) == base * (p - 1.0) + base * p
  {
  }

  function Caps(s: Strategy, n: nat): real {
    if n == 0 then 0.0 else Caps(s, n - 1) + s.maxWait as real
  }

  lemma {:induction false} CapsAre(s: Strategy, n: nat)
    ensures Caps(s, n) == n as real * s.maxWait as real
  {
    if n > 0 {
      CapsAre(s, n - 1);
      CapStep(n, s.maxWait as real);
    }
  }

  lemma CapStep(n: nat, max: real)
    requires n > 0
    ensures n as real * max == (n - 1) as real * max + max
  {
    assert n as real == (n - 1) as real + 1.0;
  }

  lemma {:induction false} TotalTermwise(s: Strategy, draws: seq<real>)
    requires Waits(s) && forall i :: 0 <= i < |draws| ==> Draw(draws[i])
    ensures 0.0 <= Total(s, draws) as real <= 1.25 * Doublings(s, |draws|)
    ensures Total(s, draws) as real <= 1.25 * Caps(s, |draws|)
  {
    if draws != [] {
      var k := |draws|;
      TotalTermwise(s, draws[..k - 1]);
      DelayBounds(s, k, draws[k - 1]);
      CappedBounds(s, k);
    }
  }

  /** A whole run of retries waits at most the geometric sum of its doublings, a quarter added. */
  lemma TotalGeometric(s: Strategy, draws: seq<real>)
    requires Waits(s) && forall i :: 0 <= i < |draws| ==> Draw(draws[i])
    ensures 0.0 <= Total(s, draws) as real <= 1.25 * (s.baseWait as real * (Pow2(|draws|) - 1.0))
  {
    TotalTermwise(s, draws);
    DoublingsAre(s, |draws|);
  }

  /** The n-th doubling is not more than the cap. */
  predicate Uncapped(s: Strategy, n: nat) {
    s.baseWait as real * Pow2(n) <= s.maxWait as real
  }

  /** And while the cap is not reached at least that sum, a quarter taken away and a nanosecond for each delay. */
  lemma {:induction false} TotalAtLeast(s: Strategy, draws: seq<real>)
    requires Waits(s) && forall i :: 0 <= i < |draws| ==> Draw(draws[i]) && Uncapped(s, i)
    ensures 0.75 * Doublings(s, |draws|) - |draws| as real <= Total(s, draws) as real
  {
    if draws != [] {
      var k := |draws|;
      assert Uncapped(s, k - 1);
      TotalAtLeast(s, draws[..k - 1]);
      DelayBounds(s, k, draws[k - 1]);
    }
  }

  /** And at most the cap every time, a quarter added. */
  lemma TotalCapped(s: Strategy, draws: seq<real>)
    requires Waits(s) && forall i :: 0 <= i < |draws| ==> Draw(draws[i])
    ensures Total(s, draws) as real <= 1.25 * (|draws| as real * s.maxWait as real)
  {
    TotalTermwise(s, draws);
    CapsAre(s, |draws|);
  }
}
