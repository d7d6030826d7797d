/** The worker pool: a bounded channel of tasks and a fixed number of workers, every interleaving of them with
    submits, the cancelled context and the closing of the channel. Says which tasks a shutdown drops. */
module Pool {
  import opened Arithmetic

  type WorkerId = nat
  type Work = nat

  /** `submitted`, `started` and `finished` are the tasks so far, in order; `running` is what each busy worker does. */
  datatype State = State(size: nat, waiting: seq<Work>, running: map<WorkerId, Work>, alive: set<WorkerId>,
                         cancelled: bool, closed: bool, submitted: seq<Work>, started: seq<Work>, finished: seq<Work>)

  datatype Action =
    | Submit(w: Work)
    | Take(id: WorkerId)      // a worker receives from the channel
    | Finish(id: WorkerId)
    | Quit(id: WorkerId)      // a worker sees the cancelled context, or the channel closed and drained
    | Cancel
    | Close                   // Stop, before it waits for the workers

  function Workers(size: nat): set<WorkerId> {
    if size == 0 then {} else Workers(size - 1) + {size - 1}
  }

  /** NewPool and Start. */
  function Start(size: nat): State {
    State(size, [], map[], Workers(size), false, false, [], [], [])
  }

  predicate Idle(s: State, id: WorkerId) {
    id in s.alive && id !in s.running
  }

  /** Submit blocks while the channel is full; where both cases of the select are ready, either may be taken. */
  predicate Enabled(s: State, a: Action) {
    match a
    case Submit(_) => !s.closed && |s.waiting| < 2 * s.size
    case Take(id) => Idle(s, id) && s.waiting != []
    case Finish(id) => id in s.running
    case Quit(id) => Idle(s, id) && (s.cancelled || (s.closed && s.waiting == []))
    case Cancel => true
    case Close => !s.closed
  }

  function Next(s: State, a: Action): State
    requires Enabled(s, a)
  {
    match a
    case Submit(w) => s.(waiting := s.waiting + [w], submitted := s.submitted + [w])
    case Take(id) =>
      s.(waiting := s.waiting[1..], running := s.running[id := s.waiting[0]], started := s.started + [s.waiting[0]])
    case Finish(id) => s.(running := s.running - {id}, finished := s.finished + [s.running[id]])
    case Quit(id) => s.(alive := s.alive - {id})
    case Cancel => s.(cancelled := true)
    case Close => s.(closed := true)
  }

  ghost predicate Run(size: nat, states: seq<State>, acts: seq<Action>) {
    && |states| == |acts| + 1 && states[0] == Start(size)
    && forall i :: 0 <= i < |acts| ==> Enabled(states[i], acts[i]) && states[i + 1] == Next(states[i], acts[i])
  }

  /** Stop has returned: the channel is closed and every worker is gone. */
  predicate Stopped(s: State) {
    s.closed && s.alive == {}
  }

  /** How many workers are busy with w. */
  function Busy(running: map<WorkerId, Work>, w: Work): set<WorkerId> {
    set id | id in running && running[id] == w
  }

  ghost predicate Inv(s: State) {
    && s.submitted == s.started + s.waiting
    && |s.waiting| <= 2 * s.size
    && (forall w: Work :: multiset(s.started)[w] == multiset(s.finished)[w] + |Busy(s.running, w)|)
    && (forall id :: id in s.running ==> id in s.alive)
    && s.alive <= Workers(s.size)
    && (!s.cancelled && s.alive != Workers(s.size) ==> s.closed && s.waiting == [])
  }

  lemma TakeKeeps(s: State, id: WorkerId)
    requires Inv(s) && Enabled(s, Take(id))
    ensures Inv(Next(s, Take(id)))
  {
    var s', x := Next(s, Take(id)), s.waiting[0];
    assert s.started + s.waiting == (s.started + [x]) + s.waiting[1..];
    forall w: Work ensures multiset(s'.started)[w] == multiset(s'.finished)[w] + |Busy(s'.running, w)| {
      OneBusier(s.running, id, x, w);
    }
  }

  lemma OneBusier(running: map<WorkerId, Work>, id: WorkerId, x: Work, w: Work)
    requires id !in running
    ensures |Busy(running[id := x], w)| == |Busy(running, w)| + if w == x then 1 else 0
  {
    assert Busy(running[id := x], w) == if w == x then Busy(running, w) + {id} else Busy(running, w);
  }

  lemma FinishKeeps(s: State, id: WorkerId)
    requires Inv(s) && Enabled(s, Finish(id))
    ensures Inv(Next(s, Finish(id)))
  {
    var s', x := Next(s, Finish(id)), s.running[id];
    forall w: Work ensures multiset(s'.started)[w] == multiset(s'.finished)[w] + |Busy(s'.running, w)| {
      assert Busy(s'.running, w) == if w == x then Busy(s.running, w) - {id} else Busy(s.running, w);
      if w == x { assert id in Busy(s.running, w); }
    }
  }

  lemma StepKeeps(s: State, a: Action)
    requires Inv(s) && Enabled(s, a)
    ensures Inv(Next(s, a))
  {
    match a
    case Submit(w) => assert s.submitted + [w] == s.started + (s.waiting + [w]);
    case Take(id) => TakeKeeps(s, id);
    case Finish(id) => FinishKeeps(s, id);
    case Quit(id) =>
    case Cancel =>
    case Close =>
  }

  lemma StartKeeps(size: nat)
    ensures Inv(Start(size))
  {
    assert forall w: Work :: Busy(map[], w) == {};
  }

  lemma {:induction false} RunKeeps(size: nat, states: seq<State>, acts: seq<Action>, i: nat)
    requires Run(size, states, acts) && i < |states|
    ensures Inv(states[i]) && states[i].size == size
  {
    if i == 0 {
      StartKeeps(size);
    } else {
      RunKeeps(size, states, acts, i - 1);
      assert states[i - 1 + 1] == Next(states[i - 1], acts[i - 1]);
      StepKeeps(states[i - 1], acts[i - 1]);
    }
  }

  /** Over any run the tasks start in the order of their submits, each once, and those not started are the last
      ones, at most twice as many as there are workers; no more run at once than there are workers. */
  lemma StartedInOrder(size: nat, states: seq<State>, acts: seq<Action>, i: nat)
    requires Run(size, states, acts) && i < |states|
    ensures states[i].submitted == states[i].started + states[i].waiting && |states[i].waiting| <= 2 * size
    ensures |states[i].running| <= size
  {
    RunKeeps(size, states, acts, i);
    var running := states[i].running;
    assert running.Keys <= Workers(size) by { assert forall id :: id in running.Keys ==> id in states[i].alive; }
    SubsetSize(running.Keys, Workers(size));
    WorkersAre(size);
    assert |running| == |running.Keys|;
  }

  lemma {:induction false} WorkersAre(size: nat)
    ensures |Workers(size)| == size && forall id: WorkerId :: id in Workers(size) <==> id < size
  {
    if size > 0 {
      WorkersAre(size - 1);
      assert Workers(size) == Workers(size - 1) + {size - 1} && size - 1 !in Workers(size - 1);
    }
  }

  // ---- both bounds are reached ----

  /** acts lead from the start to s. */
  ghost predicate Reaches(size: nat, states: seq<State>, acts: seq<Action>, s: State) {
    Run(size, states, acts) && states[|acts|] == s
  }

  lemma Then(size: nat, states: seq<State>, acts: seq<Action>, s: State, a: Action) returns (states': seq<State>, acts': seq<Action>)
    requires Reaches(size, states, acts, s) && Enabled(s, a)
    ensures Reaches(size, states', acts', Next(s, a))
  {
    states', acts' := states + [Next(s, a)], acts + [a];
  }

  /** One more task, taken at once by an idle worker. */
  lemma Occupies(s: State, id: WorkerId, w: Work) returns (s1: State, s2: State)
    requires Idle(s, id) && s.waiting == [] && !s.closed && s.size > 0
    ensures Enabled(s, Submit(w)) && s1 == Next(s, Submit(w)) && Enabled(s1, Take(id)) && s2 == Next(s1, Take(id))
    ensures s2.waiting == [] && s2.running.Keys == s.running.Keys + {id}
    ensures s2.size == s.size && s2.alive == s.alive && !s2.closed
  {
    s1 := Next(s, Submit(w));
    s2 := Next(s1, Take(id));
  }

  /** n workers have taken a task each. */
  lemma {:induction false} Busying(size: nat, n: nat, w: Work) returns (states: seq<State>, acts: seq<Action>, s: State)
    requires n <= size
    ensures Reaches(size, states, acts, s) && s.waiting == [] && s.running.Keys == Workers(n)
    ensures s.size == size && s.alive == Workers(size) && !s.closed
  {
    if n == 0 {
      states, acts, s := [Start(size)], [], Start(size);
    } else {
      states, acts, s := Busying(size, n - 1, w);
      WorkersAre(n - 1);
      WorkersAre(size);
      var s1, s2 := Occupies(s, n - 1, w);
      states, acts := Then(size, states, acts, s, Submit(w));
      states, acts := Then(size, states, acts, s1, Take(n - 1));
      s := s2;
    }
  }

  lemma {:induction false} Filling(size: nat, n: nat, w: Work) returns (states: seq<State>, acts: seq<Action>, s: State)
    requires n <= 2 * size
    ensures Reaches(size, states, acts, s) && |s.waiting| == n && s.running.Keys == Workers(size)
    ensures s.size == size && !s.closed
  {
    if n == 0 {
      states, acts, s := Busying(size, size, w);
    } else {
      states, acts, s := Filling(size, n - 1, w);
      states, acts := Then(size, states, acts, s, Submit(w));
      s := Next(s, Submit(w));
    }
  }

  /** Some run has every worker busy and twice as many tasks waiting, and then a submit blocks. */
  lemma FillsUp(size: nat, w: Work) returns (states: seq<State>, acts: seq<Action>, s: State)
    ensures Reaches(size, states, acts, s) && |s.running| == size && |s.waiting| == 2 * size && !Enabled(s, Submit(w))
  {
    states, acts, s := Filling(size, 2 * size, w);
    WorkersAre(size);
    assert |s.running| == |s.running.Keys|;
  }

  /** n tasks wait, and nobody has taken any. */
  lemma {:induction false} Piling(size: nat, n: nat, w: Work) returns (states: seq<State>, acts: seq<Action>, s: State)
    requires n <= 2 * size
    ensures Reaches(size, states, acts, s) && |s.waiting| == n && s.running == map[]
    ensures s.size == size && s.alive == Workers(size) && !s.closed
  {
    if n == 0 {
      states, acts, s := [Start(size)], [], Start(size);
    } else {
      states, acts, s := Piling(size, n - 1, w);
      states, acts := Then(size, states, acts, s, Submit(w));
      s := Next(s, Submit(w));
    }
  }

  /** Under a cancelled context the workers leave without looking at the channel. */
  lemma {:induction false} Leaving(size: nat, k: nat, states: seq<State>, acts: seq<Action>, s: State)
    returns (states': seq<State>, acts': seq<Action>, s': State)
    requires Reaches(size, states, acts, s) && s.cancelled && s.running == map[] && s.alive == Workers(k)
    ensures Reaches(size, states', acts', s') && s'.alive == {} && s'.waiting == s.waiting && s'.closed == s.closed
    decreases k
  {
    states', acts', s' := states, acts, s;
    if k > 0 {
      WorkersAre(k);
      WorkersAre(k - 1);
      var s1 := Next(s, Quit(k - 1));
      assert s1.alive == Workers(k - 1);
      states', acts' := Then(size, states, acts, s, Quit(k - 1));
      states', acts', s' := Leaving(size, k - 1, states', acts', s1);
    }
  }

  /** And a cancelled context can leave as many tasks behind as the channel holds: Stop returns with all of them waiting. */
  lemma StopDrops(size: nat, n: nat, w: Work) returns (states: seq<State>, acts: seq<Action>, s: State)
    requires n <= 2 * size
    ensures Reaches(size, states, acts, s) && Stopped(s) && |s.waiting| == n
  {
    states, acts, s := Piling(size, n, w);
    states, acts := Then(size, states, acts, s, Cancel);
    s := Next(s, Cancel);
    states, acts := Then(size, states, acts, s, Close);
    s := Next(s, Close);
    states, acts, s := Leaving(size, size, states, acts, s);
  }

  /** Once Stop has returned every started task has finished; and unless the context was cancelled every submitted
      one has: a shutdown drops only tasks that were waiting under a cancelled context. */
  lemma StopFinishesAll(size: nat, states: seq<State>, acts: seq<Action>, i: nat)
    requires Run(size, states, acts) && i < |states| && Stopped(states[i])
    ensures multiset(states[i].finished) == multiset(states[i].started)
    ensures !states[i].cancelled ==> states[i].waiting == [] && multiset(states[i].finished) == multiset(states[i].submitted)
  {
    RunKeeps(size, states, acts, i);
    StoppedFinished(states[i]);
  }

  lemma StoppedFinished(s: State)
    requires Inv(s) && Stopped(s)
    ensures multiset(s.finished) == multiset(s.started) && s.running == map[]
    ensures !s.cancelled ==> s.waiting == [] && multiset(s.finished) == multiset(s.submitted)
  {
    forall w: Work ensures multiset(s.finished)[w] == multiset(s.started)[w] { assert Busy(s.running, w) == {}; }
    if !s.cancelled && s.size > 0 { assert s.size - 1 in Workers(s.size); }
    assert s.waiting == [] ==> s.submitted == s.started;
  }
}
