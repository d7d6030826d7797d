/** Status histories when the pairs of calls are taken apart: a claim may come before the write of queued, and that write
    after a cancel. Says exactly when a history still follows the published graph. */
module GrainHistory {
  import opened Domain
  import opened Databases
  import opened Pipeline
  import opened Ownership
  import opened StatusFlow
  import opened Grain
  import opened Loss
  import Theorems

  /** The cancels of id are in time, its claims find it queued, and no write of queued comes after its end. */
  ghost predicate InOrder(f: Fine, mv: Move, id: Id) {
    match mv
    case Step(a) =>
      && (a == CancelWrite(id) ==> InTime(f.s, id))
      && (a.ClaimBatch? && id in a.order ==> id in f.s.st.rows && f.s.st.rows[id].status == Queued)
    case WriteQueued(x) => x == id && id in f.s.st.rows ==> !Terminal(f.s.st.rows[id].status)
    case _ => true
  }

  lemma FlowWrite(s: State, x: Id, id: Id)
    requires StrictAt(s, id) && !Owned(s, x) && (x == id && id in s.st.rows ==> !Terminal(s.st.rows[id].status))
    ensures Flows(s, Write(s, x), id)
  {
    if x != id || id !in s.st.rows || s.st.rows[id].status != Processing {
      FlowStatus(s, Write(s, x), x, Queued, id);
    } else {
      forall t | t in s.tasks ensures !Owns(s.tasks[t].phase, id) { assert !Owned(s, id); }
    }
  }

  lemma FlowMove(f: Fine, mv: Move, id: Id)
    requires Own(f.s) && StrictAt(f.s, id) && Can(f, mv) && !WritesOverOwner(f, mv) && InOrder(f, mv, id)
    ensures Flows(f.s, Do(f, mv).s, id)
  {
    match mv
    case Step(a) => ClaimsInOrder(f, a, id); FlowStepBy(f.s, a, id);
    case Insert(x, ch, p) => FlowInsert(f.s, DoInsert(f.s, x, NewRow(ch, p, Pending, None)), x, id);
    case WriteQueued(x) => FlowWrite(f.s, x, id);
    case _ => FlowTask(f.s, Do(f, mv).s, id);
  }

  lemma ClaimsInOrder(f: Fine, a: Action, id: Id)
    requires Can(f, Step(a)) && InOrder(f, Step(a), id)
    ensures ClaimsQueued(f.s, a, id)
  {
    if a.ClaimBatch? && id in f.s.st.rows && id in Ids(f.s.tasks[a.t].msgs) {
      assert id in a.order <==> id in Claimed(f.s.st.rows, Ids(f.s.tasks[a.t].msgs));
    }
  }

  /** A move out of order shows in the history. */
  lemma OrderShows(f: Fine, mv: Move, id: Id)
    requires Can(f, mv) && id in f.s.st.rows && FollowsAt(f.s.st.rows, Do(f, mv).s.st.rows, id)
    ensures InOrder(f, mv, id)
  {
    if mv.Step? {
      StepShows(f.s, mv.a, id);
    } else if mv.WriteQueued? {
      WriteShows(f.s, mv.id, id);
    }
  }

  lemma StepShows(s: State, a: Action, id: Id)
    requires Enabled(s, a) && id in s.st.rows && FollowsAt(s.st.rows, Next(s, a).st.rows, id)
    ensures a == CancelWrite(id) ==> InTime(s, id)
    ensures a.ClaimBatch? && id in a.order ==> s.st.rows[id].status == Queued
  {
    if a == CancelWrite(id) { LateCancelFollows(s, id); }
    if a.ClaimBatch? { ClaimShows(s, a.t, a.order, id); }
  }

  lemma ClaimShows(s: State, t: TaskId, order: seq<Id>, id: Id)
    requires CanClaim(s, t, order) && id in s.st.rows && FollowsAt(s.st.rows, Next(s, ClaimBatch(t, order)).st.rows, id)
    ensures id in order ==> s.st.rows[id].status == Queued
  {
    assert id in order <==> id in Claimed(s.st.rows, Ids(s.tasks[t].msgs));
  }

  lemma WriteShows(s: State, x: Id, id: Id)
    requires id in s.st.rows && FollowsAt(s.st.rows, Write(s, x).st.rows, id)
    ensures x == id ==> !Terminal(s.st.rows[id].status)
  {
  }

  lemma MoveGrows(f: Fine, mv: Move)
    requires Can(f, mv)
    ensures Theorems.Grows(f.s.st, Do(f, mv).s.st)
  {
    match mv
    case Step(a) => Theorems.StepGrows(f.s, a);
    case _ =>
  }

  /** The states from birth on. */
  function From(fs: seq<Fine>, birth: nat): seq<State>
    requires birth < |fs|
  {
    seq(|fs| - birth, i requires 0 <= i < |fs| - birth => fs[birth + i].s)
  }

  lemma RowsStay(fs: seq<Fine>, moves: seq<Move>, birth: nat, i: nat, id: Id)
    requires FineRun(fs, moves) && birth <= i < |fs| && id in fs[birth].s.st.rows
    ensures id in fs[i].s.st.rows
  {
    var states := From(fs, 0);
    forall k | birth <= k < i ensures Theorems.Grows(states[k].st, states[k + 1].st) {
      GrowsNext(fs, moves, k);
    }
    Theorems.GrowsChain(states, birth, i);
  }

  lemma GrowsNext(fs: seq<Fine>, moves: seq<Move>, k: nat)
    requires FineRun(fs, moves) && k < |moves|
    ensures Theorems.Grows(fs[k].s.st, fs[k + 1].s.st)
  {
    MoveGrows(fs[k], moves[k]);
  }

  lemma UnbornIsUnowned(s: State, id: Id)
    requires Own(s) && id !in s.st.rows
    ensures StrictAt(s, id)
  {
    forall t | t in s.tasks ensures !Owns(s.tasks[t].phase, id) { assert Owns(s.tasks[t].phase, id) ==> Held(s.st.rows, id); }
  }

  ghost predicate AllInOrder(fs: seq<Fine>, moves: seq<Move>, birth: nat, id: Id)
    requires FineRun(fs, moves)
  {
    forall k {:trigger moves[k]} :: birth <= k < |moves| ==> InOrder(fs[k], moves[k], id)
  }

  lemma Flowing(fs: seq<Fine>, moves: seq<Move>, birth: nat, k: nat, id: Id)
    requires FineRun(fs, moves) && birth <= k < |moves| && StrictAt(fs[k].s, id)
    requires NeverOverOwner(fs, moves) && AllInOrder(fs, moves, birth, id)
    ensures Flows(fs[k].s, fs[k + 1].s, id)
  {
    OwnUpTo(fs, moves, k);
    FlowMove(fs[k], moves[k], id);
  }

  /** Unowned before its birth, the row is never owned but while it is processing. */
  lemma {:induction false} StrictFromBirth(fs: seq<Fine>, moves: seq<Move>, birth: nat, i: nat, id: Id)
    requires FineRun(fs, moves) && birth <= i < |fs| && StrictAt(fs[birth].s, id)
    requires NeverOverOwner(fs, moves) && AllInOrder(fs, moves, birth, id)
    ensures StrictAt(fs[i].s, id)
    decreases i - birth
  {
    if i > birth {
      StrictFromBirth(fs, moves, birth, i - 1, id);
      StrictNext(fs, moves, birth, i - 1, id);
    }
  }

  lemma StrictNext(fs: seq<Fine>, moves: seq<Move>, birth: nat, k: nat, id: Id)
    requires FineRun(fs, moves) && birth <= k < |moves| && StrictAt(fs[k].s, id)
    requires NeverOverOwner(fs, moves) && AllInOrder(fs, moves, birth, id)
    ensures StrictAt(fs[k + 1].s, id)
  {
    Flowing(fs, moves, birth, k, id);
  }

  /** The move that makes the row is no claim of it, no cancel and no write of queued. */
  lemma BornInOrder(f: Fine, mv: Move, id: Id)
    requires Can(f, mv) && id !in f.s.st.rows && id in Do(f, mv).s.st.rows
    ensures InOrder(f, mv, id)
  {
  }

  lemma StrictAtBirth(fs: seq<Fine>, moves: seq<Move>, birth: nat, id: Id)
    requires FineRun(fs, moves) && 0 < birth < |fs| && id !in fs[birth - 1].s.st.rows && id in fs[birth].s.st.rows
    requires NeverOverOwner(fs, moves)
    ensures StrictAt(fs[birth].s, id)
  {
    OwnUpTo(fs, moves, birth - 1);
    var mv := moves[birth - 1];
    assert fs[birth - 1 + 1] == Do(fs[birth - 1], mv);
    BornStrict(fs[birth - 1], mv, id);
  }

  lemma BornStrict(f: Fine, mv: Move, id: Id)
    requires Own(f.s) && Can(f, mv) && !WritesOverOwner(f, mv) && id !in f.s.st.rows && id in Do(f, mv).s.st.rows
    ensures StrictAt(Do(f, mv).s, id)
  {
    UnbornIsUnowned(f.s, id);
    BornInOrder(f, mv, id);
    FlowMove(f, mv, id);
  }

  lemma OneFlows(fs: seq<Fine>, moves: seq<Move>, birth: nat, k: nat, id: Id)
    requires FineRun(fs, moves) && birth <= k < |moves| && id in fs[birth].s.st.rows && StrictAt(fs[birth].s, id)
    requires NeverOverOwner(fs, moves) && AllInOrder(fs, moves, birth, id)
    ensures Theorems.FlowsTo(fs[k].s, fs[k + 1].s, id)
  {
    RowsStay(fs, moves, birth, k, id);
    StrictFromBirth(fs, moves, birth, k, id);
    Flowing(fs, moves, birth, k, id);
  }

  ghost predicate FlowsAt(fs: seq<Fine>, k: nat, id: Id)
    requires k + 1 < |fs|
  {
    Theorems.FlowsTo(fs[k].s, fs[k + 1].s, id)
  }

  ghost predicate FlowsFrom(fs: seq<Fine>, birth: nat, id: Id) {
    forall k: nat :: birth <= k && k + 1 < |fs| ==> FlowsAt(fs, k, id)
  }

  lemma FromFlows(fs: seq<Fine>, birth: nat, id: Id)
    requires birth < |fs|
    ensures FlowsFrom(fs, birth, id) <==> Theorems.AllFlow(From(fs, birth), id)
  {
    var states := From(fs, birth);
    if FlowsFrom(fs, birth, id) {
      forall i | 0 <= i < |states| - 1 ensures Theorems.FlowsTo(states[i], states[i + 1], id) { assert FlowsAt(fs, birth + i, id); }
    }
    if Theorems.AllFlow(states, id) {
      forall k: nat | birth <= k && k + 1 < |fs| ensures FlowsAt(fs, k, id) {
        assert Theorems.FlowsTo(states[k - birth], states[k - birth + 1], id);
      }
    }
  }

  lemma OrderFlows(fs: seq<Fine>, moves: seq<Move>, birth: nat, id: Id)
    requires FineRun(fs, moves) && birth < |fs| && id in fs[birth].s.st.rows && StrictAt(fs[birth].s, id)
    requires NeverOverOwner(fs, moves) && AllInOrder(fs, moves, birth, id)
    ensures FlowsFrom(fs, birth, id)
  {
    forall k: nat | birth <= k && k + 1 < |fs| ensures FlowsAt(fs, k, id) { OneFlows(fs, moves, birth, k, id); }
  }

  lemma AllHaveRows(fs: seq<Fine>, moves: seq<Move>, birth: nat, id: Id)
    requires FineRun(fs, moves) && birth < |fs| && id in fs[birth].s.st.rows
    ensures forall s :: s in From(fs, birth) ==> id in s.st.rows
  {
    var states := From(fs, birth);
    forall i | 0 <= i < |states| ensures id in states[i].st.rows { RowsStay(fs, moves, birth, birth + i, id); }
  }

  lemma OneInOrder(fs: seq<Fine>, moves: seq<Move>, k: nat, id: Id)
    requires FineRun(fs, moves) && k < |moves| && Theorems.FlowsTo(fs[k].s, fs[k + 1].s, id)
    ensures InOrder(fs[k], moves[k], id)
  {
    OrderShows(fs[k], moves[k], id);
  }

  lemma FlowsInOrder(fs: seq<Fine>, moves: seq<Move>, birth: nat, id: Id)
    requires FineRun(fs, moves) && birth < |fs| && FlowsFrom(fs, birth, id)
    ensures AllInOrder(fs, moves, birth, id)
  {
    forall k | birth <= k < |moves| ensures InOrder(fs[k], moves[k], id) {
      assert FlowsAt(fs, k, id);
      OneInOrder(fs, moves, k, id);
    }
  }

  /** In a run that keeps unique owners a notification's statuses follow the graph, ends absorbing, if and only if its
      cancels are in time, its claims find it queued, and no write of queued revives it. */
  lemma FineHistoryExactly(fs: seq<Fine>, moves: seq<Move>, birth: nat, id: Id)
    requires FineRun(fs, moves) && 0 < birth < |fs| && id !in fs[birth - 1].s.st.rows && id in fs[birth].s.st.rows
    requires NeverOverOwner(fs, moves)
    ensures forall s :: s in From(fs, birth) ==> id in s.st.rows
    ensures Theorems.FlowPath(Theorems.History(From(fs, birth), id)) <==> AllInOrder(fs, moves, birth, id)
  {
    var states := From(fs, birth);
    AllHaveRows(fs, moves, birth, id);
    StrictAtBirth(fs, moves, birth, id);
    Theorems.HistoryFlows(states, id);
    FromFlows(fs, birth, id);
    if AllInOrder(fs, moves, birth, id) { OrderFlows(fs, moves, birth, id); }
    if FlowsFrom(fs, birth, id) { FlowsInOrder(fs, moves, birth, id); }
  }
}
