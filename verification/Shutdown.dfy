/** One worker program and the pipeline together: its dispatcher, its pool and the context that stops them. Once the
    context is cancelled every further call of its batches fails, so a shutdown drops the batches that wait, the one in
    the dispatcher's hands, and whatever the running ones have not yet done. */
module Shutdown {
  import opened Domain
  import opened Pipeline
  import opened Ownership
  import opened Races
  import opened Loss
  import opened Runs
  import Pool

  /** `hand` is the batch dequeued and not yet submitted; `calls` are the batches that had a call under way when the
      context was cancelled, which may still take effect. */
  datatype Program = Program(pool: Pool.State, hand: Option<TaskId>, calls: set<TaskId>, pipe: State)

  datatype Move =
    | Pipe(a: Action)                                              // a call of one of the batches, or anybody else's step
    | Dequeue(t: TaskId, channel: Channel, msgs: seq<Message>)     // ZPOPMIN of the program's own dispatcher
    | Submit(t: TaskId)
    | Pooled(b: Pool.Action)                                       // everything else the pool does

  function Start(size: nat, s: State): Program {
    Program(Pool.Start(size), None, {}, s)
  }

  predicate IsRunning(pool: Pool.State, t: TaskId) {
    exists id :: id in pool.running && pool.running[id] == t
  }

  predicate Mine(p: Program, t: TaskId) {
    t in p.pool.submitted || p.hand == Some(t)
  }

  /** A batch is marked in the dispatcher's hands and does everything else on a worker. A cancelled context lets through
      only the call under way, and then the batch is aborted. */
  predicate MayCall(p: Program, a: Action)
    requires IsWork(a)
  {
    && !a.Pop?
    && (if a.Mark? then p.hand == Some(a.t) else IsRunning(p.pool, a.t) || (a.Crash? && p.hand == Some(a.t)))
    && (if p.pool.cancelled then a.Crash? || a.t in p.calls else !a.Crash?)
  }

  predicate Allowed(p: Program, a: Action) {
    IsWork(a) && Mine(p, a.t) ==> MayCall(p, a)
  }

  predicate IsWaiting(s: State, t: TaskId) {
    t in s.tasks && s.tasks[t].phase.Waiting?
  }

  predicate IsPopped(s: State, t: TaskId) {
    t in s.tasks && s.tasks[t].phase.Popped?
  }

  ghost predicate Can(p: Program, mv: Move) {
    match mv
    case Pipe(a) => Enabled(p.pipe, a) && Allowed(p, a)
    case Dequeue(t, ch, msgs) => CanPop(p.pipe, t, ch, msgs) && p.hand.None? && t !in p.pool.submitted
    case Submit(t) => Pool.Enabled(p.pool, Pool.Submit(t)) && p.hand == Some(t) && IsWaiting(p.pipe, t)
    case Pooled(b) => !b.Submit? && Pool.Enabled(p.pool, b) && (b.Finish? ==> p.pool.running[b.id] !in p.pipe.tasks)
  }

  function PoolNext(pool: Pool.State, b: Pool.Action): Pool.State {
    if Pool.Enabled(pool, b) then Pool.Next(pool, b) else pool
  }

  /** The batches with a call that a cancel of the context finds under way. */
  function UnderWay(p: Program): set<TaskId> {
    (set id | id in p.pool.running :: p.pool.running[id])
    + (if p.hand.Some? && IsPopped(p.pipe, p.hand.value) then {p.hand.value} else {})
  }

  ghost function Do(p: Program, mv: Move): Program {
    match mv
    case Pipe(a) =>
      Program(p.pool, if a.Crash? && p.hand == Some(a.t) then None else p.hand, if IsWork(a) then p.calls - {a.t} else p.calls,
              Next(p.pipe, a))
    case Dequeue(t, ch, msgs) => p.(hand := Some(t), pipe := DoPop(p.pipe, t, ch, msgs))
    case Submit(t) => p.(pool := PoolNext(p.pool, Pool.Submit(t)), hand := None)
    case Pooled(b) =>
      p.(pool := PoolNext(p.pool, b), calls := if b.Cancel? && !p.pool.cancelled then UnderWay(p) else p.calls)
  }

  // ---- the coupling ----

  /** Every batch is submitted once; those in the channel have not claimed, and the finished ones are no more. */
  ghost predicate InPool(pool: Pool.State, s: State) {
    && Pool.Inv(pool)
    && (forall i, j :: 0 <= i < j < |pool.submitted| ==> pool.submitted[i] != pool.submitted[j])
    && (forall t :: t in pool.waiting ==> IsWaiting(s, t))
    && (forall t :: t in pool.finished ==> t !in s.tasks)
  }

  predicate InHand(p: Program) {
    p.hand.Some? ==> p.hand.value !in p.pool.submitted && (IsPopped(p.pipe, p.hand.value) || IsWaiting(p.pipe, p.hand.value))
  }

  predicate CallsAreStarted(p: Program) {
    forall t :: t in p.calls ==> t in p.pool.started || (p.hand == Some(t) && IsPopped(p.pipe, t))
  }

  ghost predicate Coupled(p: Program) {
    InPool(p.pool, p.pipe) && InHand(p) && CallsAreStarted(p)
  }

  lemma Members(pool: Pool.State, t: TaskId)
    requires Pool.Inv(pool)
    ensures t in pool.submitted <==> t in pool.started || t in pool.waiting
    ensures t in pool.started <==> t in pool.finished || IsRunning(pool, t)
  {
    assert multiset(pool.started)[t] == multiset(pool.finished)[t] + |Pool.Busy(pool.running, t)|;
    assert t in pool.started <==> t in multiset(pool.started);
    assert t in pool.finished <==> t in multiset(pool.finished);
    if IsRunning(pool, t) {
      var id :| id in pool.running && pool.running[id] == t;
      assert id in Pool.Busy(pool.running, t);
    }
    if |Pool.Busy(pool.running, t)| > 0 {
      var id :| id in Pool.Busy(pool.running, t);
    }
  }

  lemma StartedIsNotWaiting(pool: Pool.State, s: State, t: TaskId)
    requires InPool(pool, s) && t in pool.started
    ensures t !in pool.waiting
  {
    var i :| 0 <= i < |pool.started| && pool.started[i] == t;
    forall j | 0 <= j < |pool.waiting| ensures pool.waiting[j] != t {
      assert pool.submitted[i] == t && pool.submitted[|pool.started| + j] == pool.waiting[j];
    }
  }

  /** A step leaves every task but its own. */
  ghost predicate Spares(s: State, s': State, t: TaskId) {
    (t in s'.tasks <==> t in s.tasks) && (t in s.tasks ==> s'.tasks[t] == s.tasks[t])
  }

  lemma OthersSpared(s: State, a: Action, u: TaskId)
    requires Enabled(s, a) && (IsWork(a) ==> a.t != u)
    ensures Spares(s, Next(s, a), u)
  {
  }

  lemma NoRevival(s: State, a: Action)
    requires Enabled(s, a) && IsWork(a) && !a.Pop?
    ensures a.t in s.tasks
  {
  }

  /** No step is a step of a batch in the channel. */
  lemma NotItsTurn(p: Program, a: Action, t: TaskId)
    requires Coupled(p) && Can(p, Pipe(a)) && t in p.pool.waiting && IsWork(a)
    ensures a.t != t
  {
    Members(p.pool, t);
    if IsRunning(p.pool, t) { StartedIsNotWaiting(p.pool, p.pipe, t); }
  }

  lemma WaitsOn(p: Program, a: Action, t: TaskId)
    requires Coupled(p) && Can(p, Pipe(a)) && t in p.pool.waiting
    ensures IsWaiting(Next(p.pipe, a), t)
  {
    if IsWork(a) { NotItsTurn(p, a, t); }
    OthersSpared(p.pipe, a, t);
  }

  lemma StaysFinished(p: Program, a: Action, t: TaskId)
    requires Coupled(p) && Can(p, Pipe(a)) && t in p.pool.finished
    ensures t !in Next(p.pipe, a).tasks
  {
    Members(p.pool, t);
    if IsWork(a) && !a.Pop? { NoRevival(p.pipe, a); }
    OthersSpared(p.pipe, a, t);
  }

  lemma PoolKept(p: Program, a: Action)
    requires Coupled(p) && Can(p, Pipe(a))
    ensures InPool(p.pool, Next(p.pipe, a))
  {
    forall t | t in p.pool.waiting ensures IsWaiting(Next(p.pipe, a), t) { WaitsOn(p, a, t); }
    forall t | t in p.pool.finished ensures t !in Next(p.pipe, a).tasks { StaysFinished(p, a, t); }
  }

  /** In the dispatcher's hands a batch is marked or aborted, nothing else. */
  lemma HandKept(p: Program, a: Action)
    requires Coupled(p) && Can(p, Pipe(a)) && p.hand.Some?
    ensures var p' := Do(p, Pipe(a)); InHand(p') && (p'.hand.Some? && (!IsWork(a) || a.t != p.hand.value) ==>
      (IsPopped(p.pipe, p.hand.value) ==> IsPopped(p'.pipe, p.hand.value)))
  {
    var t := p.hand.value;
    if IsWork(a) && a.t == t {
      Members(p.pool, t);
      if a.Mark? { HandMoves(p.pipe, a); }
    } else {
      OthersSpared(p.pipe, a, t);
    }
  }

  lemma HandMoves(s: State, a: Action)
    requires Enabled(s, a) && a.Mark?
    ensures IsWaiting(Next(s, a), a.t)
  {
  }

  lemma PipeKeeps(p: Program, a: Action)
    requires Coupled(p) && Can(p, Pipe(a))
    ensures Coupled(Do(p, Pipe(a)))
  {
    PoolKept(p, a);
    if p.hand.Some? { HandKept(p, a); }
  }

  lemma DequeueKeeps(p: Program, t: TaskId, ch: Channel, msgs: seq<Message>)
    requires Coupled(p) && Can(p, Dequeue(t, ch, msgs))
    ensures Coupled(Do(p, Dequeue(t, ch, msgs)))
  {
    Members(p.pool, t);
  }

  lemma SubmitKeeps(p: Program, t: TaskId)
    requires Coupled(p) && Can(p, Submit(t))
    ensures Coupled(Do(p, Submit(t)))
  {
    Pool.StepKeeps(p.pool, Pool.Submit(t));
  }

  lemma PoolKeeps(p: Program, b: Pool.Action)
    requires Coupled(p) && Can(p, Pooled(b))
    ensures Coupled(Do(p, Pooled(b)))
  {
    Pool.StepKeeps(p.pool, b);
    if b.Take? { assert forall t :: t in p.pool.waiting[1..] ==> t in p.pool.waiting; }
    forall t | t in UnderWay(p) ensures t in p.pool.started || (p.hand == Some(t) && IsPopped(p.pipe, t)) {
      if id :| id in p.pool.running && p.pool.running[id] == t { Members(p.pool, t); }
    }
  }

  lemma StepKeeps(p: Program, mv: Move)
    requires Coupled(p) && Can(p, mv)
    ensures Coupled(Do(p, mv))
  {
    match mv
    case Pipe(a) => PipeKeeps(p, a);
    case Dequeue(t, ch, msgs) => DequeueKeeps(p, t, ch, msgs);
    case Submit(t) => SubmitKeeps(p, t);
    case Pooled(b) => PoolKeeps(p, b);
  }

  lemma {:induction false} PathIsCoupled(p: Program, moves: seq<Move>, p': Program)
    requires Coupled(p) && Path(Can, Do, p, moves, p')
    ensures Coupled(p')
    decreases |moves|
  {
    if moves != [] {
      StepKeeps(p, moves[0]);
      PathIsCoupled(Do(p, moves[0]), moves[1..], p');
    }
  }

  lemma StartIsCoupled(size: nat, s: State)
    requires Init(s)
    ensures Coupled(Start(size, s))
  {
    Pool.StartKeeps(size);
  }

  /** What a move is in the pipeline, if anything. */
  function StepOf(mv: Move): Option<Action> {
    match mv
    case Pipe(a) => Some(a)
    case Dequeue(t, ch, msgs) => Some(Pop(t, ch, msgs))
    case _ => None
  }

  lemma StepOfMove(p: Program, mv: Move)
    requires Can(p, mv)
    ensures match StepOf(mv) case Some(a) => Enabled(p.pipe, a) && Do(p, mv).pipe == Next(p.pipe, a) case None => Do(p, mv).pipe == p.pipe
  {
  }

  /** The pipeline's part of a joint path. */
  lemma {:induction false} PipePath(p: Program, moves: seq<Move>, p': Program) returns (acts: seq<Action>)
    requires Path(Can, Do, p, moves, p')
    ensures Path(Enabled, Next, p.pipe, acts, p'.pipe)
    decreases |moves|
  {
    if moves == [] {
      acts := [];
    } else {
      StepOfMove(p, moves[0]);
      acts := PipePath(Do(p, moves[0]), moves[1..], p');
      if StepOf(moves[0]).Some? {
        PathOne(Enabled, Next, p.pipe, StepOf(moves[0]).value);
        PathTrans(Enabled, Next, p.pipe, [StepOf(moves[0]).value], Do(p, moves[0]).pipe, acts, p'.pipe);
        acts := [StepOf(moves[0]).value] + acts;
      }
    }
  }

  lemma Reached(size: nat, s: State, moves: seq<Move>, p: Program)
    requires Init(s) && Path(Can, Do, Start(size, s), moves, p)
    ensures Coupled(p) && Sound(p.pipe)
  {
    StartIsCoupled(size, s);
    PathIsCoupled(Start(size, s), moves, p);
    var acts := PipePath(Start(size, s), moves, p);
    InitIsSound(s);
    PathIsSound(s, acts, p.pipe);
  }

  lemma ReachedOwn(size: nat, s: State, moves: seq<Move>, p: Program)
    requires Init(s) && Path(Can, Do, Start(size, s), moves, p)
    ensures Own(p.pipe)
  {
    Reached(size, s, moves, p);
  }

  // ---- after the cancel ----

  /** A submitted batch of a cancelled program that had no call under way and has not claimed. */
  ghost predicate TooLate(p: Program, t: TaskId) {
    p.pool.cancelled && t in p.pool.submitted && t !in p.calls && (t in p.pipe.tasks ==> IsWaiting(p.pipe, t))
  }

  lemma TooLateStep(p: Program, mv: Move, t: TaskId)
    requires Coupled(p) && Can(p, mv) && TooLate(p, t)
    ensures TooLate(Do(p, mv), t)
  {
    match mv
    case Pipe(a) => if !IsWork(a) || a.t != t { OthersSpared(p.pipe, a, t); } else { CrashGone(p.pipe, t); }
    case _ =>
  }

  lemma CrashGone(s: State, t: TaskId)
    ensures t !in Next(s, Crash(t)).tasks
  {
  }

  /** A batch in the channel when the context is cancelled never claims, whether a worker still takes it or not. */
  lemma {:induction false} WaitingNeverClaims(p: Program, moves: seq<Move>, p': Program, t: TaskId)
    requires Coupled(p) && TooLate(p, t) && Path(Can, Do, p, moves, p')
    ensures TooLate(p', t)
    decreases |moves|
  {
    if moves != [] {
      StepKeeps(p, moves[0]);
      TooLateStep(p, moves[0], t);
      WaitingNeverClaims(Do(p, moves[0]), moves[1..], p', t);
    }
  }

  // ---- the end of the program ----

  function Batches(p: Program): set<TaskId> {
    set t | t in p.pipe.tasks && Mine(p, t)
  }

  /** Everybody else goes on, and none of the program's batches does. */
  function Exit(p: Program): State {
    Without(p.pipe, Batches(p))
  }

  function Without(s: State, ts: set<TaskId>): State {
    s.(tasks := s.tasks - ts)
  }

  function Crashes(ts: seq<TaskId>): seq<Action> {
    if ts == [] then [] else [Crash(ts[0])] + Crashes(ts[1..])
  }

  lemma {:induction false} CrashesArePath(s: State, ts: seq<TaskId>, all: set<TaskId>)
    requires forall t :: t in ts <==> t in all
    requires forall t :: t in ts ==> t in s.tasks
    requires forall i, j :: 0 <= i < j < |ts| ==> ts[i] != ts[j]
    ensures Path(Enabled, Next, s, Crashes(ts), Without(s, all))
    decreases |ts|
  {
    if ts == [] {
      assert s.tasks - all == s.tasks;
    } else {
      var s1 := DoCrash(s, ts[0]);
      assert forall t :: t in ts[1..] <==> t in all - {ts[0]};
      CrashesArePath(s1, ts[1..], all - {ts[0]});
      assert s.tasks - {ts[0]} - (all - {ts[0]}) == s.tasks - all;
      assert Crashes(ts)[0] == Crash(ts[0]) && Crashes(ts)[1..] == Crashes(ts[1..]);
    }
  }

  /** At its end, whenever that is, the program drops the batches it still has; that is a path of crashes and touches
      neither database. */
  lemma ExitIsCrashes(p: Program) returns (ts: seq<TaskId>)
    ensures forall t :: t in ts <==> t in p.pipe.tasks && Mine(p, t)
    ensures Path(Enabled, Next, p.pipe, Crashes(ts), Exit(p))
  {
    ts := Enumerated(Batches(p));
    CrashesArePath(p.pipe, ts, Batches(p));
  }

  /** Once Stop has returned, what is still there to drop has not claimed: the batches in the channel, which there are
      only under a cancelled context, and the one the dispatcher could not hand over. */
  lemma StopDropsUnclaimed(size: nat, s: State, moves: seq<Move>, p: Program, t: TaskId)
    requires Init(s) && Path(Can, Do, Start(size, s), moves, p) && Pool.Stopped(p.pool)
    ensures t in p.pipe.tasks && Mine(p, t) <==> t in p.pool.waiting || p.hand == Some(t)
    ensures t in p.pool.waiting || p.hand == Some(t) ==> IsWaiting(p.pipe, t) || IsPopped(p.pipe, t)
    ensures !p.pool.cancelled ==> p.pool.waiting == []
  {
    Reached(size, s, moves, p);
    Pool.StoppedFinished(p.pool);
    Members(p.pool, t);
  }

  /** After the end of the program a notification waiting to be sent can still be claimed exactly when a set knows its
      message, or a batch of another process: be its batch one that waited, one in the dispatcher's hands, or one
      aborted before its claim. */
  lemma ExitLosesExactly(size: nat, s: State, moves: seq<Move>, p: Program, m: Message)
    requires Init(s) && Path(Can, Do, Start(size, s), moves, p) && Waits(p.pipe, m)
    ensures CanBeOwned(Exit(p), m.id) <==> Known(Exit(p), m)
  {
    Reached(size, s, moves, p);
    var ts := ExitIsCrashes(p);
    PathIsSound(p.pipe, Crashes(ts), Exit(p));
    LostExactly(Exit(p), m);
  }

  /** And what a batch has claimed and not yet written when it is aborted is orphaned: whatever the program and everybody
      else do until its end and after it, nobody claims or sends the notification again. */
  lemma AbortOrphans(size: nat, s: State, before: seq<Move>, p: Program, t: TaskId, id: Id,
                     moves: seq<Move>, p': Program, later: seq<Action>, s': State)
    requires Init(s) && Path(Can, Do, Start(size, s), before, p)
    requires Can(p, Pipe(Crash(t))) && Owns(p.pipe.tasks[t].phase, id)
    requires Path(Can, Do, Do(p, Pipe(Crash(t))), moves, p') && Path(Enabled, Next, Exit(p'), later, s')
    ensures Orphan(s', id) && !Claimable(s'.st.rows[id].status)
    ensures s'.sends[id] == p.pipe.sends[id] && s'.delivered[id] == p.pipe.delivered[id]
  {
    ReachedOwn(size, s, before, p);
    var acts := ToTheEnd(Do(p, Pipe(Crash(t))), moves, p', later, s');
    CrashedForever(p.pipe, t, id, acts, s');
  }

  lemma ToTheEnd(p: Program, moves: seq<Move>, p': Program, later: seq<Action>, s': State) returns (acts: seq<Action>)
    requires Path(Can, Do, p, moves, p') && Path(Enabled, Next, Exit(p'), later, s')
    ensures Path(Enabled, Next, p.pipe, acts, s')
  {
    var a := PipePath(p, moves, p');
    var ts := ExitIsCrashes(p');
    PathTrans(Enabled, Next, p.pipe, a, p'.pipe, Crashes(ts), Exit(p'));
    PathTrans(Enabled, Next, p.pipe, a + Crashes(ts), Exit(p'), later, s');
    acts := a + Crashes(ts) + later;
  }
}
