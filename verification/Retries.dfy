/** The retries of one notification through the circuit breaker. A rejection by an open breaker is a failed attempt like
    any other, so a notification can use up its attempts on a breaker that never asks the provider. */
module Retries {
  import opened Domain
  import opened Processing
  import BatchRefinement
  import CircuitBreaker
  import Backoff

  datatype Settings = Settings(cfg: CircuitBreaker.Config, strategy: Backoff.Strategy)

  /** One attempt: how long after it comes due the message reaches the breaker, how long from there to the handling of
      a failure, what the provider does if it is asked, and the draw for the delay. */
  datatype Round = Round(wait: nat, took: nat, out: Outcome, draw: real)

  /** The row, the breaker, when the message is next due, and how often the provider was asked. */
  datatype Life = Life(row: Row, b: CircuitBreaker.Breaker, due: Time, asked: nat)

  const CIRCUIT_OPEN := Errored("circuit breaker is open")

  predicate Drawn(rounds: seq<Round>) {
    forall i :: 0 <= i < |rounds| ==> Backoff.Draw(rounds[i].draw)
  }

  function Delay(s: Backoff.Strategy, attempt: int, draw: real): nat {
    var d := Backoff.NextDelay(s, attempt, draw);
    if d < 0 then 0 else d
  }

  predicate Rejected(conf: Settings, l: Life, r: Round) {
    CircuitBreaker.Rejects(l.b, conf.cfg.timeout, l.due + r.wait)
  }

  /** One claim of a claimable row, its send through the breaker, and what becomes of the row. */
  function Attempted(conf: Settings, l: Life, r: Round): Life {
    var now := l.due + r.wait;
    var out := if Rejected(conf, l, r) then CIRCUIT_OPEN else r.out;
    var row := BatchRefinement.RowAfter(l.row, 0, Env(now, _ => out, (_, _) => 0));
    Life(row, CircuitBreaker.SendOnce(l.b, conf.cfg.maxFailures, conf.cfg.timeout, CircuitBreaker.Attempt(now, now + r.took, r.out)),
         now + r.took + Delay(conf.strategy, row.attempts, r.draw), l.asked + if Rejected(conf, l, r) then 0 else 1)
  }

  function Lived(conf: Settings, l: Life, rounds: seq<Round>): Life {
    if rounds == [] then l
    else
      var f := Lived(conf, l, rounds[..|rounds| - 1]);
      if Claimable(f.row.status) then Attempted(conf, f, rounds[|rounds| - 1]) else f
  }

  // ---- the clock of the last attempt ----

  /** What the attempts take besides the delays between them. */
  function Lags(rounds: seq<Round>): nat {
    if rounds == [] then 0 else Lags(rounds[..|rounds| - 1]) + rounds[|rounds| - 1].wait + rounds[|rounds| - 1].took
  }

  function Draws(rounds: seq<Round>): seq<real> {
    seq(|rounds|, i requires 0 <= i < |rounds| => rounds[i].draw)
  }

  function DueAfter(conf: Settings, l: Life, rounds: seq<Round>): int {
    l.due + Lags(rounds) + Backoff.Total(conf.strategy, Draws(rounds))
  }

  /** When the last attempt looks at the breaker, if all are rejected. */
  function LastLook(conf: Settings, l: Life, rounds: seq<Round>): int
    requires rounds != []
  {
    DueAfter(conf, l, rounds[..|rounds| - 1]) + rounds[|rounds| - 1].wait
  }

  /** A notification nobody has tried yet, before an open breaker. */
  predicate Untried(l: Life) {
    Claimable(l.row.status) && l.row.attempts == 0 && l.asked == 0 && l.b.state == CircuitBreaker.Open
  }

  lemma DueNext(conf: Settings, l: Life, rounds: seq<Round>)
    requires rounds != [] && Backoff.Waits(conf.strategy) && Drawn(rounds)
    ensures DueAfter(conf, l, rounds) ==
      LastLook(conf, l, rounds) + rounds[|rounds| - 1].took + Delay(conf.strategy, |rounds|, rounds[|rounds| - 1].draw)
  {
    var front := rounds[..|rounds| - 1];
    assert Draws(rounds)[..|rounds| - 1] == Draws(front);
    Backoff.DelayBounds(conf.strategy, |rounds|, rounds[|rounds| - 1].draw);
  }

  /** All attempts were rejected exactly when the last one came in time, and then nothing but the row has changed. */
  lemma {:induction false} Unasked(conf: Settings, l: Life, rounds: seq<Round>)
    requires Untried(l) && Backoff.Waits(conf.strategy) && Drawn(rounds) && |rounds| <= l.row.maxAttempts
    ensures var e := Lived(conf, l, rounds);
      && (e.asked == 0 <==> rounds == [] || LastLook(conf, l, rounds) - l.b.lastFailure <= conf.cfg.timeout)
      && (e.asked == 0 ==>
            && e.b == l.b && e.row.attempts == |rounds| && e.row.maxAttempts == l.row.maxAttempts
            && e.due == DueAfter(conf, l, rounds)
            && (if 0 < |rounds| == l.row.maxAttempts then e.row.status == Failed else Claimable(e.row.status)))
    decreases |rounds|
  {
    if rounds == [] {
      assert Draws([]) == [];
    } else {
      var front := rounds[..|rounds| - 1];
      Unasked(conf, l, front);
      DueNext(conf, l, rounds);
      if front != [] { DueNext(conf, l, front); }
    }
  }

  /** A notification that meets an open breaker is dead-lettered after all its attempts, the provider never asked, if and
      only if its delays and the lags between them fit into what is left of the breaker's timeout. */
  lemma FailsUnaskedExactly(conf: Settings, l: Life, rounds: seq<Round>)
    requires Untried(l) && Backoff.Waits(conf.strategy) && Drawn(rounds) && 0 < |rounds| == l.row.maxAttempts
    ensures var e := Lived(conf, l, rounds);
      (e.row.status == Failed && e.row.attempts == l.row.maxAttempts && e.asked == 0) <==>
      LastLook(conf, l, rounds) - l.b.lastFailure <= conf.cfg.timeout
  {
    Unasked(conf, l, rounds);
  }

  /** Whatever the draws, it happens when the doublings with a quarter added fit. */
  lemma FailsWhateverTheDraws(conf: Settings, l: Life, rounds: seq<Round>)
    requires Untried(l) && Backoff.Waits(conf.strategy) && Drawn(rounds) && 0 < |rounds| == l.row.maxAttempts
    requires (l.due + Lags(rounds)) as real + 1.25 * Backoff.Doublings(conf.strategy, |rounds| - 1)
      <= (l.b.lastFailure + conf.cfg.timeout) as real
    ensures Lived(conf, l, rounds).row.status == Failed && Lived(conf, l, rounds).asked == 0
  {
    Backoff.TotalTermwise(conf.strategy, Draws(rounds[..|rounds| - 1]));
    FitsIn(conf, l, rounds, 1.25 * Backoff.Doublings(conf.strategy, |rounds| - 1));
  }

  lemma FitsIn(conf: Settings, l: Life, rounds: seq<Round>, total: real)
    requires Untried(l) && Backoff.Waits(conf.strategy) && Drawn(rounds) && 0 < |rounds| == l.row.maxAttempts
    requires Backoff.Total(conf.strategy, Draws(rounds[..|rounds| - 1])) as real <= total
    requires (l.due + Lags(rounds)) as real + total <= (l.b.lastFailure + conf.cfg.timeout) as real
    ensures Lived(conf, l, rounds).row.status == Failed && Lived(conf, l, rounds).asked == 0
  {
    Unasked(conf, l, rounds);
  }

  const SECOND: nat := 1_000_000_000

  /** So it does with the settings the workers have unless told otherwise: every notification that meets the breaker
      within eleven and a quarter seconds of its last failure, less the lags. */
  lemma FailsByDefault(conf: Settings, l: Life, rounds: seq<Round>)
    requires conf == Settings(CircuitBreaker.Config(5, 30 * SECOND), Backoff.Strategy(SECOND, 300 * SECOND))
    requires Untried(l) && Drawn(rounds) && |rounds| == l.row.maxAttempts == MAX_ATTEMPTS
    requires l.due + Lags(rounds) <= l.b.lastFailure + 11_250_000_000
    ensures Lived(conf, l, rounds).row.status == Failed && Lived(conf, l, rounds).asked == 0
  {
    assert Backoff.Pow2(2) == 4.0 && Backoff.Pow2(4) == 16.0;
    Backoff.DoublingsAre(conf.strategy, 4);
    FailsWhateverTheDraws(conf, l, rounds);
  }
}
