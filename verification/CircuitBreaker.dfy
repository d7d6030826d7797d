/** The circuit breaker around the provider: one call as a method, and overlapping calls as a transition system. */
module CircuitBreaker {
  import opened Domain
  import opened Runs
  import opened Arithmetic

  datatype CBState = Closed | Open | HalfOpen

  datatype Breaker = Breaker(state: CBState, failures: nat, lastFailure: Time)

  const NEW := Breaker(Closed, 0, 0)

  /** recordFailure. */
  function Failure(b: Breaker, maxFailures: int, now: Time): Breaker {
    Breaker(if b.failures + 1 >= maxFailures then Open else b.state, b.failures + 1, now)
  }

  /** recordSuccess. */
  function Success(b: Breaker): Breaker {
    Breaker(Closed, 0, b.lastFailure)
  }

  /** The transition under the write lock, once the timeout has elapsed. */
  function Probe(b: Breaker): Breaker {
    if b.state == Open then b.(state := HalfOpen) else b
  }

  function Record(b: Breaker, maxFailures: int, ok: bool, now: Time): Breaker {
    if ok then Success(b) else Failure(b, maxFailures, now)
  }

  /** What a snapshot decides: an open breaker rejects until more than the timeout has passed. */
  predicate Rejects(snap: Breaker, timeout: int, now: Time) {
    snap.state == Open && now - snap.lastFailure <= timeout
  }

  /** A call nobody overlaps: when it looked at the clock, when it recorded, and what the provider did. */
  datatype Attempt = Attempt(checked: Time, recorded: Time, out: Outcome)

  function SendOnce(b: Breaker, maxFailures: int, timeout: int, a: Attempt): Breaker {
    if Rejects(b, timeout, a.checked) then b
    else Record(Probe(b), maxFailures, a.out.Delivered?, a.recorded)
  }

  datatype Reply = CircuitOpen | Answer(out: Outcome)

  class CircuitBreaker {
    const maxFailures: int
    const timeout: int
    var state: CBState
    var failures: nat
    var lastFailure: Time

    constructor (maxFailures: int, timeout: int)
      ensures this.maxFailures == maxFailures && this.timeout == timeout
      ensures Breaker(state, failures, lastFailure) == NEW
    {
      this.maxFailures, this.timeout := maxFailures, timeout;
      state, failures, lastFailure := Closed, 0, 0;
    }

    ghost function Now(): Breaker
      reads this
    {
      Breaker(state, failures, lastFailure)
    }

    method TryHalfOpen()
      modifies this`state
      ensures Now() == Probe(old(Now()))
    {
      if state == Open { state := HalfOpen; }
    }

    method RecordFailure(now: Time)
      modifies this
      ensures Now() == Failure(old(Now()), maxFailures, now)
    {
      failures := failures + 1;
      lastFailure := now;
      if failures >= maxFailures { state := Open; }
    }

    method RecordSuccess()
      modifies this
      ensures Now() == Success(old(Now()))
    {
      failures := 0;
      state := Closed;
    }

    method DoSend(out: Outcome, recorded: Time)
      modifies this
      ensures Now() == Record(old(Now()), maxFailures, out.Delivered?, recorded)
    {
      match out {
        case Errored(_) => RecordFailure(recorded);
        case Delivered(_) => RecordSuccess();
      }
    }

    /** One call with nobody else inside: the provider is asked exactly when the breaker does not reject. */
    method Send(a: Attempt) returns (reply: Reply)
      modifies this
      ensures Now() == SendOnce(old(Now()), maxFailures, timeout, a)
      ensures reply == if old(state) == Open && a.checked - old(lastFailure) <= timeout then CircuitOpen else Answer(a.out)
      ensures reply == CircuitOpen ==> state == old(state) && failures == old(failures) && lastFailure == old(lastFailure)
      ensures reply != CircuitOpen && a.out.Delivered? ==> state == Closed && failures == 0 && lastFailure == old(lastFailure)
      ensures reply != CircuitOpen && a.out.Errored? ==>
        && failures == old(failures) + 1 && lastFailure == a.recorded
        && state == if failures >= maxFailures then Open else if old(state) == Open then HalfOpen else old(state)
    {
      match state {
        case Open =>
          if a.checked - lastFailure <= timeout { return CircuitOpen; }
          TryHalfOpen();
          DoSend(a.out, a.recorded);
        case _ =>
          DoSend(a.out, a.recorded);
      }
      reply := Answer(a.out);
    }
  }

  // ---- overlapping calls ----

  type CallId = nat

  /** Where a call stands: it has its snapshot, it is about to take the write lock, or the provider has it. */
  datatype Stage = Snapped(snap: Breaker) | Passing | Calling

  /** `log` is the outcomes in the order in which they were recorded. */
  datatype State = State(b: Breaker, calls: map<CallId, Stage>, now: Time, log: seq<bool>)

  datatype Config = Config(maxFailures: int, timeout: int)

  datatype Action =
    | Enter(c: CallId)
    | Decide(c: CallId)
    | Transit(c: CallId)
    | Finish(c: CallId, ok: bool)
    | Tick(elapsed: nat)

  const START := State(NEW, map[], 0, [])

  predicate Enabled(s: State, a: Action) {
    match a
    case Enter(c) => c !in s.calls
    case Decide(c) => c in s.calls && s.calls[c].Snapped?
    case Transit(c) => c in s.calls && s.calls[c].Passing?
    case Finish(c, _) => c in s.calls && s.calls[c].Calling?
    case Tick(_) => true
  }

  /** The state after a; nothing happens where a is not enabled. */
  function Next(cfg: Config, s: State, a: Action): State {
    if !Enabled(s, a) then s else
    match a
    case Enter(c) => s.(calls := s.calls[c := Snapped(s.b)])
    case Decide(c) =>
      var snap := s.calls[c].snap;
      if Rejects(snap, cfg.timeout, s.now) then s.(calls := s.calls - {c})
      else s.(calls := s.calls[c := if snap.state == Open then Passing else Calling])
    case Transit(c) => s.(b := Probe(s.b), calls := s.calls[c := Calling])
    case Finish(c, ok) =>
      s.(b := Record(s.b, cfg.maxFailures, ok, s.now), calls := s.calls - {c}, log := s.log + [ok])
    case Tick(elapsed) => s.(now := s.now + elapsed)
  }

  ghost predicate Run(cfg: Config, states: seq<State>, acts: seq<Action>) {
    && |states| == |acts| + 1 && states[0] == START
    && forall i :: 0 <= i < |acts| ==> Enabled(states[i], acts[i]) && states[i + 1] == Next(cfg, states[i], acts[i])
  }

  /** Recorded failures since the last recorded success. */
  function Streak(log: seq<bool>): nat {
    if log == [] || log[|log| - 1] then 0 else 1 + Streak(log[..|log| - 1])
  }

  /** Closed exactly while the streak is short. */
  ghost predicate ByHistory(cfg: Config, s: State) {
    s.b.state == Closed <==> Streak(s.log) < cfg.maxFailures
  }

  lemma {:induction false} FailuresAreStreak(cfg: Config, states: seq<State>, acts: seq<Action>, i: nat)
    requires Run(cfg, states, acts) && i < |states| && cfg.maxFailures >= 1
    ensures states[i].b.failures == Streak(states[i].log) && ByHistory(cfg, states[i])
  {
    if i > 0 {
      FailuresAreStreak(cfg, states, acts, i - 1);
      assert states[i - 1 + 1] == Next(cfg, states[i - 1], acts[i - 1]);
      if acts[i - 1].Finish? {
        var log := states[i - 1].log;
        assert (log + [acts[i - 1].ok])[..|log|] == log;
      }
    }
  }

  /** The state is a function of the recorded history over every run, for exactly the thresholds of at least one. */
  lemma StateIsHistory(cfg: Config)
    ensures (forall states: seq<State>, acts: seq<Action>, i: nat {:trigger Run(cfg, states, acts), states[i]} ::
               Run(cfg, states, acts) && i < |states| ==> ByHistory(cfg, states[i]))
            <==> cfg.maxFailures >= 1
  {
    if cfg.maxFailures >= 1 {
      forall states: seq<State>, acts: seq<Action>, i: nat | Run(cfg, states, acts) && i < |states|
        ensures ByHistory(cfg, states[i])
      {
        FailuresAreStreak(cfg, states, acts, i);
      }
    } else {
      var states, acts: seq<Action> := [START], [];
      assert Run(cfg, states, acts) && !ByHistory(cfg, states[0]);
    }
  }

  /** A failure recorded while half-open reopens the breaker at once, and sets the clock of its timeout. */
  lemma FailedProbeReopens(cfg: Config, states: seq<State>, acts: seq<Action>, i: nat)
    requires Run(cfg, states, acts) && i < |acts| && cfg.maxFailures >= 1
    requires states[i].b.state == HalfOpen && acts[i].Finish? && !acts[i].ok
    ensures states[i + 1].b.state == Open && states[i + 1].b.lastFailure == states[i].now
  {
    FailuresAreStreak(cfg, states, acts, i);
  }

  /** Half-open admits everyone: two calls that looked while the breaker was open both reach the provider. */
  lemma TwoProbes(cfg: Config, s: State, c: CallId, d: CallId) returns (acts: seq<Action>, s': State)
    requires s.b.state == Open && !Rejects(s.b, cfg.timeout, s.now) && c != d && c !in s.calls && d !in s.calls
    ensures Path(Enabled, Step(cfg), s, acts, s')
    ensures s'.b.state == HalfOpen && s'.calls == s.calls[c := Calling][d := Calling]
  {
    var s1, acts1 := Looks(cfg, s, c);
    var s2, acts2 := Looks(cfg, s1, d);
    PathTrans(Enabled, Step(cfg), s, acts1, s1, acts2, s2);
    var s3 := Next(cfg, s2, Transit(c));
    PathThen(Enabled, Step(cfg), s, acts1 + acts2, s2, Transit(c));
    s' := Next(cfg, s3, Transit(d));
    PathThen(Enabled, Step(cfg), s, acts1 + acts2 + [Transit(c)], s3, Transit(d));
    acts := acts1 + acts2 + [Transit(c)] + [Transit(d)];
  }

  /** A call that looks at an open breaker after its timeout goes on to the write lock. */
  lemma Looks(cfg: Config, s: State, c: CallId) returns (s': State, acts: seq<Action>)
    requires s.b.state == Open && !Rejects(s.b, cfg.timeout, s.now) && c !in s.calls
    ensures Path(Enabled, Step(cfg), s, acts, s') && s' == s.(calls := s.calls[c := Passing])
  {
    var s1 := Next(cfg, s, Enter(c));
    PathOne(Enabled, Step(cfg), s, Enter(c));
    PathThen(Enabled, Step(cfg), s, [Enter(c)], s1, Decide(c));
    s', acts := Next(cfg, s1, Decide(c)), [Enter(c)] + [Decide(c)];
  }

  function Step(cfg: Config): (State, Action) -> State {
    (s, a) => Next(cfg, s, a)
  }

  /** A call nobody overlaps is a path of the transition system: the method and the overlapping calls are one breaker. */
  lemma SendIsAPath(cfg: Config, s: State, c: CallId, a: Attempt) returns (acts: seq<Action>, s': State)
    requires c !in s.calls && s.now <= a.checked <= a.recorded
    ensures Path(Enabled, Step(cfg), s, acts, s')
    ensures s'.b == SendOnce(s.b, cfg.maxFailures, cfg.timeout, a) && s'.calls == s.calls
    ensures s'.log == if Rejects(s.b, cfg.timeout, a.checked) then s.log else s.log + [a.out.Delivered?]
  {
    var s1 := Next(cfg, s, Tick(a.checked - s.now));
    PathOne(Enabled, Step(cfg), s, Tick(a.checked - s.now));
    acts := [Tick(a.checked - s.now)] + [Enter(c)] + [Decide(c)];
    var s2 := Next(cfg, s1, Enter(c));
    PathThen(Enabled, Step(cfg), s, [Tick(a.checked - s.now)], s1, Enter(c));
    var s3 := Next(cfg, s2, Decide(c));
    PathThen(Enabled, Step(cfg), s, [Tick(a.checked - s.now)] + [Enter(c)], s2, Decide(c));
    if Rejects(s.b, cfg.timeout, a.checked) {
      s' := s3;
    } else {
      var s4 := s3;
      if s.b.state == Open {
        s4 := Next(cfg, s3, Transit(c));
        PathThen(Enabled, Step(cfg), s, acts, s3, Transit(c));
        acts := acts + [Transit(c)];
      }
      var more;
      more, s' := Finishes(cfg, s4, c, a);
      PathTrans(Enabled, Step(cfg), s, acts, s4, more, s');
      acts := acts + more;
    }
    assert s.calls[c := Calling] - {c} == s.calls;
  }

  lemma Finishes(cfg: Config, s: State, c: CallId, a: Attempt) returns (acts: seq<Action>, s': State)
    requires c in s.calls && s.calls[c] == Calling && s.now <= a.recorded
    ensures Path(Enabled, Step(cfg), s, acts, s')
    ensures s' == State(Record(s.b, cfg.maxFailures, a.out.Delivered?, a.recorded), s.calls - {c}, a.recorded, s.log + [a.out.Delivered?])
  {
    var tick, finish := Tick(a.recorded - s.now), Finish(c, a.out.Delivered?);
    PathOne(Enabled, Step(cfg), s, tick);
    PathThen(Enabled, Step(cfg), s, [tick], Next(cfg, s, tick), finish);
    acts, s' := [tick] + [finish], Next(cfg, Next(cfg, s, tick), finish);
  }

  /** Open, and nobody inside looked at it before it opened. */
  ghost predicate Shut(s: State) {
    s.b.state == Open && forall c :: c in s.calls ==> s.calls[c] == Snapped(s.b)
  }

  /** Until its timeout has passed a shut breaker stays as it is and the provider rests, whoever calls. */
  lemma {:induction false} ShutUntilTimeout(cfg: Config, s: State, acts: seq<Action>, s': State)
    requires Shut(s) && Path(Enabled, Step(cfg), s, acts, s') && s'.now - s.b.lastFailure <= cfg.timeout
    ensures Shut(s') && s'.b == s.b && s'.log == s.log
    decreases |acts|
  {
    if acts != [] {
      NowGrows(cfg, Next(cfg, s, acts[0]), acts[1..], s');
      ShutUntilTimeout(cfg, Next(cfg, s, acts[0]), acts[1..], s');
    }
  }

  lemma {:induction false} NowGrows(cfg: Config, s: State, acts: seq<Action>, s': State)
    requires Path(Enabled, Step(cfg), s, acts, s')
    ensures s.now <= s'.now
    decreases |acts|
  {
    if acts != [] { NowGrows(cfg, Next(cfg, s, acts[0]), acts[1..], s'); }
  }

  // ---- calls that do not overlap, provider always failing ----

  predicate InTurn(attempts: seq<Attempt>) {
    && (forall i :: 0 <= i < |attempts| ==> attempts[i].out.Errored? && attempts[i].checked <= attempts[i].recorded)
    && (forall i, j :: 0 <= i < j < |attempts| ==> attempts[i].recorded <= attempts[j].checked)
  }

  function After(cfg: Config, attempts: seq<Attempt>): Breaker {
    if attempts == [] then NEW
    else SendOnce(After(cfg, attempts[..|attempts| - 1]), cfg.maxFailures, cfg.timeout, attempts[|attempts| - 1])
  }

  /** How often the provider itself is called. */
  function InnerCalls(cfg: Config, attempts: seq<Attempt>): nat {
    if attempts == [] then 0
    else
      var front, a := attempts[..|attempts| - 1], attempts[|attempts| - 1];
      InnerCalls(cfg, front) + if Rejects(After(cfg, front), cfg.timeout, a.checked) then 0 else 1
  }

  /** A threshold below one opens at the first failure. */
  function Threshold(cfg: Config): nat {
    if cfg.maxFailures < 1 then 1 else cfg.maxFailures
  }

  /** A breaker after n failures, all since `start`. */
  predicate Failing(cfg: Config, b: Breaker, n: nat, start: Time)
    requires cfg.timeout >= 0
  {
    && b.failures == n
    && (n < Threshold(cfg) ==> b.state == Closed)
    && (n >= Threshold(cfg) ==> b.state == Open && b.lastFailure >= start + Times(n - Threshold(cfg), cfg.timeout + 1))
  }

  lemma FailsOn(cfg: Config, b: Breaker, n: nat, a: Attempt, start: Time)
    requires cfg.timeout >= 0 && Failing(cfg, b, n, start) && a.out.Errored? && start <= a.checked <= a.recorded
    ensures Failing(cfg, SendOnce(b, cfg.maxFailures, cfg.timeout, a), n + if Rejects(b, cfg.timeout, a.checked) then 0 else 1, start)
  {
  }

  lemma {:induction false} FailingBreaker(cfg: Config, attempts: seq<Attempt>, start: Time)
    requires InTurn(attempts) && cfg.timeout >= 0
    requires forall i :: 0 <= i < |attempts| ==> start <= attempts[i].checked
    ensures var n := InnerCalls(cfg, attempts); var b := After(cfg, attempts);
      && Failing(cfg, b, n, start)
      && (n > 0 ==> exists i :: 0 <= i < |attempts| && attempts[i].recorded == b.lastFailure)
  {
    if attempts != [] {
      var front, a := attempts[..|attempts| - 1], attempts[|attempts| - 1];
      FailingBreaker(cfg, front, start);
      var n := InnerCalls(cfg, front);
      FailsOn(cfg, After(cfg, front), n, a, start);
      if n > 0 {
        var i :| 0 <= i < |front| && front[i].recorded == After(cfg, front).lastFailure;
        assert attempts[i] == front[i];
      }
    }
  }

  /** Calls within a span of T. */
  predicate During(attempts: seq<Attempt>, start: Time, T: nat) {
    forall i :: 0 <= i < |attempts| ==> start <= attempts[i].checked && attempts[i].recorded <= start + T
  }

  /** However often Send is invoked during T, the provider is called at most maxFailures + T / (timeout + 1) times. */
  lemma CallBound(cfg: Config, attempts: seq<Attempt>, start: Time, T: nat)
    requires InTurn(attempts) && cfg.timeout >= 0 && During(attempts, start, T)
    ensures InnerCalls(cfg, attempts) <= (if cfg.maxFailures < 1 then 1 else cfg.maxFailures) + T / (cfg.timeout + 1)
  {
    var k := Waits(cfg, attempts, start, T);
    WaitsFit(k, cfg.timeout + 1, T);
  }

  /** When the n-th call of the run below is made: up to the threshold at once, then one a timeout and a nanosecond. */
  function CallTime(cfg: Config, n: nat, start: Time): Time
    requires cfg.timeout >= 0
  {
    start + if n <= Threshold(cfg) then 0 else Times(n - Threshold(cfg), cfg.timeout + 1)
  }

  function Spaced(cfg: Config, n: nat, start: Time): seq<Attempt>
    requires cfg.timeout >= 0
  {
    seq(n, i requires 0 <= i < n => Attempt(CallTime(cfg, i + 1, start), CallTime(cfg, i + 1, start), Errored("")))
  }

  lemma {:induction false} SpacedAllPass(cfg: Config, n: nat, start: Time)
    requires cfg.timeout >= 0
    ensures InnerCalls(cfg, Spaced(cfg, n, start)) == n
    ensures var b := After(cfg, Spaced(cfg, n, start));
      b.failures == n && (b.state == Open <==> n >= Threshold(cfg)) && b.state != HalfOpen && (n > 0 ==> b.lastFailure == CallTime(cfg, n, start))
  {
    if n > 0 {
      SpacedAllPass(cfg, n - 1, start);
      assert Spaced(cfg, n, start)[..n - 1] == Spaced(cfg, n - 1, start);
    }
  }

  lemma {:induction false} TimesGrows(a: nat, b: nat, d: nat)
    requires a <= b
    ensures Times(a, d) <= Times(b, d)
  {
    if a < b { TimesGrows(a, b - 1, d); }
  }

  lemma CallTimeGrows(cfg: Config, a: nat, b: nat, start: Time)
    requires cfg.timeout >= 0 && a <= b
    ensures CallTime(cfg, a, start) <= CallTime(cfg, b, start)
  {
    if a > Threshold(cfg) { TimesGrows(a - Threshold(cfg), b - Threshold(cfg), cfg.timeout + 1); }
  }

  lemma SpacedInTurn(cfg: Config, n: nat, start: Time, T: nat)
    requires cfg.timeout >= 0 && CallTime(cfg, n, start) <= start + T
    ensures InTurn(Spaced(cfg, n, start)) && During(Spaced(cfg, n, start), start, T)
  {
    var s := Spaced(cfg, n, start);
    forall i, j | 0 <= i < j < |s| ensures s[i].recorded <= s[j].checked { CallTimeGrows(cfg, i + 1, j + 1, start); }
    forall i | 0 <= i < |s| ensures s[i].recorded <= start + T { CallTimeGrows(cfg, i + 1, n, start); }
  }

  /** And for every span some run attains it. */
  lemma CallBoundAttained(cfg: Config, start: Time, T: nat) returns (attempts: seq<Attempt>)
    requires cfg.timeout >= 0
    ensures InTurn(attempts) && During(attempts, start, T)
    ensures InnerCalls(cfg, attempts) == (if cfg.maxFailures < 1 then 1 else cfg.maxFailures) + T / (cfg.timeout + 1)
  {
    var k := T / (cfg.timeout + 1);
    QuotientFits(k, cfg.timeout + 1, T);
    attempts := SpacedCalls(cfg, k, start, T);
  }

  lemma SpacedCalls(cfg: Config, k: nat, start: Time, T: nat) returns (attempts: seq<Attempt>)
    requires cfg.timeout >= 0 && Times(k, cfg.timeout + 1) <= T
    ensures InTurn(attempts) && During(attempts, start, T) && InnerCalls(cfg, attempts) == Threshold(cfg) + k
  {
    attempts := Spaced(cfg, Threshold(cfg) + k, start);
    SpacedAllPass(cfg, Threshold(cfg) + k, start);
    SpacedInTurn(cfg, Threshold(cfg) + k, start, T);
  }

  lemma QuotientFits(k: nat, d: nat, T: nat)
    requires d > 0 && k == T / d
    ensures Times(k, d) <= T
  {
    TimesIs(k, d);
  }

  /** Every call beyond the threshold waited for its own timeout. */
  lemma Waits(cfg: Config, attempts: seq<Attempt>, start: Time, T: nat) returns (k: nat)
    requires InTurn(attempts) && cfg.timeout >= 0 && During(attempts, start, T)
    ensures InnerCalls(cfg, attempts) <= Threshold(cfg) + k && Times(k, cfg.timeout + 1) <= T
  {
    FailingBreaker(cfg, attempts, start);
    var n := InnerCalls(cfg, attempts);
    k := if n > Threshold(cfg) then n - Threshold(cfg) else 0;
  }

  lemma WaitsFit(k: nat, d: nat, T: nat)
    requires d > 0 && Times(k, d) <= T
    ensures k <= T / d
  {
    TimesIs(k, d);
    Quotient(k, d, T);
  }
}
