/** Dispatches by any number of dispatchers of one channel, in the order of their calls to the limiter, with anything
    happening to the queue between them. */
module DispatchRuns {
  import opened Domain
  import opened RateLimiter
  import opened LimiterRuns
  import opened Arithmetic

  /** One dispatch: its call to the limiter, how many messages it then found queued, and those it took. */
  datatype Step = Step(call: Request, queued: nat, msgs: seq<Message>)

  function CallsOf(steps: seq<Step>): (calls: seq<Request>)
    ensures |calls| == |steps| && forall i :: 0 <= i < |steps| ==> calls[i] == steps[i].call
  {
    seq(|steps|, i requires 0 <= i < |steps| => steps[i].call)
  }

  /** The step takes as much as was granted and is there. */
  predicate TakesGrant(step: Step, granted: nat) {
    |step.msgs| == Min(granted, step.queued)
  }

  ghost predicate Dispatches(limit: int, steps: seq<Step>) {
    && Asked(CallsOf(steps))
    && (steps != [] ==>
          && Dispatches(limit, steps[..|steps| - 1])
          && TakesGrant(steps[|steps| - 1], LastGrant(limit, CallsOf(steps))))
  }

  /** The key these dispatches leave. */
  ghost predicate KeyIs(limit: int, steps: seq<Step>, k: Key) {
    Asked(CallsOf(steps)) && k == KeyAfter(limit, CallsOf(steps))
  }

  // ---- one more dispatch ----

  lemma CallsAppend(steps: seq<Step>, step: Step)
    ensures CallsOf(steps + [step]) == CallsOf(steps) + [step.call]
    ensures (steps + [step])[..|steps|] == steps
  {
  }

  lemma CallsFront(steps: seq<Step>)
    requires steps != []
    ensures CallsOf(steps)[..|steps| - 1] == CallsOf(steps[..|steps| - 1])
  {
  }

  lemma KeyAppend(limit: int, rs: seq<Request>, r: Request)
    requires Asked(rs) && 0 < r.count <= |r.labels|
    ensures Asked(rs + [r]) && KeyAfter(limit, rs + [r]) == After(KeyAfter(limit, rs), limit, r)
    ensures LastGrant(limit, rs + [r]) == Granted(KeyAfter(limit, rs), limit, r)
  {
    var all := rs + [r];
    assert all[..|all| - 1] == rs && all[|all| - 1] == r;
  }

  /** What Dispatch promises of one turn continues the run. */
  lemma DispatchExtends(limit: int, steps: seq<Step>, step: Step, k: Key)
    requires Dispatches(limit, steps) && KeyIs(limit, steps, k) && 0 < step.call.count <= |step.call.labels|
    requires TakesGrant(step, Granted(k, limit, step.call))
    ensures Dispatches(limit, steps + [step]) && KeyIs(limit, steps + [step], After(k, limit, step.call))
  {
    CallsAppend(steps, step);
    KeyAppend(limit, CallsOf(steps), step.call);
  }

  // ---- in a window ----

  /** Messages taken by the dispatches whose reading lies in (lo, lo + n]. */
  function TakenIn(steps: seq<Step>, lo: int, n: nat): nat {
    if steps == [] then 0
    else
      var last := steps[|steps| - 1];
      TakenIn(steps[..|steps| - 1], lo, n) + if lo < last.call.now <= lo + n then |last.msgs| else 0
  }

  lemma {:induction false} TakenAtMostAdmitted(limit: int, steps: seq<Step>, lo: int, n: nat)
    requires Dispatches(limit, steps)
    ensures TakenIn(steps, lo, n) <= Admissions(limit, CallsOf(steps), lo, n)
  {
    if steps != [] {
      CallsFront(steps);
      TakenAtMostAdmitted(limit, steps[..|steps| - 1], lo, n);
    }
  }

  /** Messages dequeued by all dispatchers together, counted at the reading of their grant, obey the limiter's window. */
  lemma DequeuedWithinLimit(limit: int, steps: seq<Step>, d: nat, e: nat, lo: int, n: nat)
    requires Dispatches(limit, steps) && Calls(limit, CallsOf(steps), d, e)
    requires n + Lag(d, e) <= WINDOW && n + e <= TTL
    ensures TakenIn(steps, lo, n) <= if limit < 0 then 0 else limit
  {
    TakenAtMostAdmitted(limit, steps, lo, n);
    SlidingWindow(limit, CallsOf(steps), d, e, lo, n);
  }

  lemma TurnsCount(turns: set<nat>, last: nat, batch: nat)
    ensures |turns| * batch == |turns - {last}| * batch + if last in turns then batch else 0
  {
  }

  /** The steps of turns lie in the window and took a whole batch each. */
  ghost predicate FullIn(steps: seq<Step>, turns: set<nat>, lo: int, n: nat, batch: nat) {
    forall i :: i in turns ==> i < |steps| && lo < steps[i].call.now <= lo + n && |steps[i].msgs| >= batch
  }

  lemma {:induction false} FullTurnsTake(steps: seq<Step>, turns: set<nat>, lo: int, n: nat, batch: nat)
    requires FullIn(steps, turns, lo, n, batch)
    ensures |turns| * batch <= TakenIn(steps, lo, n)
  {
    if steps == [] {
      assert turns == {};
    } else {
      var last := |steps| - 1;
      FullTurnsTake(steps[..last], turns - {last}, lo, n, batch);
      TurnsCount(turns, last, batch);
    }
  }

  /** However many dispatchers share the limiter, at most limit / batch dispatches in one window take a whole batch. */
  lemma FullTurnsInWindow(limit: int, steps: seq<Step>, turns: set<nat>, d: nat, e: nat, lo: int, n: nat, batch: nat)
    requires Dispatches(limit, steps) && Calls(limit, CallsOf(steps), d, e)
    requires n + Lag(d, e) <= WINDOW && n + e <= TTL
    requires batch > 0 && FullIn(steps, turns, lo, n, batch)
    ensures |turns| <= (if limit < 0 then 0 else limit) / batch
  {
    FullTurnsTake(steps, turns, lo, n, batch);
    DequeuedWithinLimit(limit, steps, d, e, lo, n);
    Quotient(|turns|, batch, if limit < 0 then 0 else limit);
  }

  // ---- one eager loop ----

  /** After past, a loop has made these steps, the first `full` of them with a whole batch, and left the key k. */
  ghost predicate Polls(limit: int, past: seq<Step>, steps: seq<Step>, full: nat, batch: nat, k: Key) {
    && Dispatches(limit, past + steps) && KeyIs(limit, past + steps, k)
    && FullFirst(steps, full, batch)
  }

  ghost predicate FullFirst(steps: seq<Step>, full: nat, batch: nat) {
    full <= |steps| && forall i :: 0 <= i < full ==> |steps[i].msgs| >= batch
  }

  lemma FullMore(steps: seq<Step>, batch: nat, step: Step)
    requires FullFirst(steps, |steps|, batch)
    ensures FullFirst(steps + [step], if |step.msgs| < batch then |steps| else |steps| + 1, batch)
  {
  }

  lemma PollsMore(limit: int, past: seq<Step>, steps: seq<Step>, batch: nat, k: Key, step: Step)
    requires Polls(limit, past, steps, |steps|, batch, k) && 0 < step.call.count <= |step.call.labels|
    requires TakesGrant(step, Granted(k, limit, step.call))
    ensures Polls(limit, past, steps + [step], if |step.msgs| < batch then |steps| else |steps| + 1, batch, After(k, limit, step.call))
  {
    DispatchExtends(limit, past + steps, step, k);
    FullMore(steps, batch, step);
    assert past + steps + [step] == past + (steps + [step]);
  }

  function Range(from: nat, k: nat): (r: set<nat>)
    ensures |r| == k && forall i :: i in r <==> from <= i < from + k
  {
    if k == 0 then {} else Range(from, k - 1) + {from + k - 1}
  }

  /** The loop's full turns lie in one window, and the clocks of all calls so far leave room for it. */
  ghost predicate InWindow(limit: int, past: seq<Step>, steps: seq<Step>, full: nat, d: nat, e: nat, lo: int, n: nat)
    requires full <= |steps|
  {
    && Calls(limit, CallsOf(past + steps), d, e) && n + Lag(d, e) <= WINDOW && n + e <= TTL
    && forall i :: 0 <= i < full ==> lo < steps[i].call.now <= lo + n
  }

  /** The loop's own full turns that fall in one window, whatever the dispatches before it: at most limit / batch. */
  lemma EagerTurnsInWindow(limit: int, past: seq<Step>, steps: seq<Step>, full: nat, batch: nat, k: Key,
                           d: nat, e: nat, lo: int, n: nat)
    requires Polls(limit, past, steps, full, batch, k) && batch > 0
    requires InWindow(limit, past, steps, full, d, e, lo, n)
    ensures full <= (if limit < 0 then 0 else limit) / batch
  {
    var turns := Range(|past|, full);
    forall i | i in turns ensures (past + steps)[i] == steps[i - |past|] { }
    FullTurnsInWindow(limit, past + steps, turns, d, e, lo, n, batch);
  }

  ghost predicate BoundedByWindow(limit: int, past: seq<Step>, steps: seq<Step>, full: nat, batch: nat)
    requires full <= |steps| && batch > 0
  {
    forall d: nat, e: nat, lo: int, n: nat ::
      InWindow(limit, past, steps, full, d, e, lo, n) ==> full <= (if limit < 0 then 0 else limit) / batch
  }

  lemma EagerBound(limit: int, past: seq<Step>, steps: seq<Step>, full: nat, batch: nat, k: Key)
    requires Polls(limit, past, steps, full, batch, k) && batch > 0
    ensures BoundedByWindow(limit, past, steps, full, batch)
  {
    forall d: nat, e: nat, lo: int, n: nat | InWindow(limit, past, steps, full, d, e, lo, n)
      ensures full <= (if limit < 0 then 0 else limit) / batch
    {
      EagerTurnsInWindow(limit, past, steps, full, batch, k, d, e, lo, n);
    }
  }
}
