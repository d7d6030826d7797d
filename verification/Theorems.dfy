/** What holds over every run of the pipeline: any number of requests, schedulers and workers, any interleaving. */
module Theorems {
  import opened Domain
  import opened Databases
  import opened Pipeline
  import opened WellFormed
  import opened Ownership
  import opened Delivery
  import opened NoLoss
  import opened StatusFlow
  import opened Recovery
  import opened Loss
  import opened Runs
  import Float64

  lemma {:induction false} Invariants(states: seq<State>, acts: seq<Action>, i: nat)
    requires Run(states, acts) && i < |states|
    ensures Wf(states[i]) && Own(states[i]) && Del(states[i])
  {
    if i == 0 {
    } else {
      Invariants(states, acts, i - 1);
      var s := states[i - 1];
      assert states[i - 1 + 1] == Next(s, acts[i - 1]);
      WfStep(s, acts[i - 1]);
      OwnStep(s, acts[i - 1]);
      DelStep(s, acts[i - 1]);
    }
  }

  lemma RunIsWf(states: seq<State>, acts: seq<Action>, i: nat)
    requires Run(states, acts) && i < |states|
    ensures Wf(states[i])
  {
    Invariants(states, acts, i);
  }

  /** At most one task is between its claim of id and its own status write; while there is one,
      nobody else can claim id. */
  lemma AtMostOneOwner(states: seq<State>, acts: seq<Action>, i: nat, t: TaskId, u: TaskId, id: Id)
    requires Run(states, acts) && i < |states|
    requires t in states[i].tasks && Owns(states[i].tasks[t].phase, id)
    ensures id in states[i].st.rows && states[i].st.rows[id].status in {Processing, Cancelled}
    ensures !Claimable(states[i].st.rows[id].status)
    ensures u in states[i].tasks && Owns(states[i].tasks[u].phase, id) ==> u == t
  {
    Invariants(states, acts, i);
    assert Held(states[i].st.rows, id);
  }

  /** At most max_attempts sends and one success, crashes included; a claimable row has attempts left. */
  lemma BoundedSends(states: seq<State>, acts: seq<Action>, i: nat, id: Id)
    requires Run(states, acts) && i < |states| && id in states[i].st.rows
    ensures states[i].delivered[id] <= 1
    ensures states[i].sends[id] <= states[i].st.rows[id].maxAttempts
    ensures Claimable(states[i].st.rows[id].status) ==>
      states[i].st.rows[id].attempts == states[i].sends[id] < states[i].st.rows[id].maxAttempts && states[i].delivered[id] == 0
    ensures states[i].st.rows[id].status == Sent ==> states[i].delivered[id] == 1
  {
    Invariants(states, acts, i);
    assert RowOk(states[i], id);
  }

  /** The tables only grow, and max_attempts is fixed at birth. */
  ghost predicate Grows(st: Store, st': Store) {
    && st.dead <= st'.dead
    && forall id :: id in st.rows ==> id in st'.rows && st'.rows[id].maxAttempts == st.rows[id].maxAttempts
  }

  lemma StepGrowsWork(s: State, a: Action)
    requires Enabled(s, a) && IsWork(a) && !a.RecordSent?
    ensures Grows(s.st, Next(s, a).st)
  {
  }

  lemma StepGrowsSent(s: State, t: TaskId)
    requires CanRecordSent(s, t)
    ensures Grows(s.st, DoRecordSent(s, t).st)
  {
    forall id | id in s.st.rows
      ensures id in DoRecordSent(s, t).st.rows && DoRecordSent(s, t).st.rows[id].maxAttempts == s.st.rows[id].maxAttempts
    {
      MarkSentAt(s.st.rows, s.tasks[t].phase.sent, id);
    }
  }

  lemma StepGrows(s: State, a: Action)
    requires Enabled(s, a)
    ensures Grows(s.st, Next(s, a).st)
  {
    if a.RecordSent? { StepGrowsSent(s, a.t); } else if IsWork(a) { StepGrowsWork(s, a); }
  }

  lemma RunGrows(states: seq<State>, acts: seq<Action>, i: nat, j: nat)
    requires Run(states, acts) && i <= j < |states|
    ensures Grows(states[i].st, states[j].st)
  {
    forall k | i <= k < j ensures Grows(states[k].st, states[k + 1].st) {
      assert states[k + 1] == Next(states[k], acts[k]);
      StepGrows(states[k], acts[k]);
    }
    GrowsChain(states, i, j);
  }

  lemma {:induction false} GrowsChain(states: seq<State>, i: nat, j: nat)
    requires i <= j < |states|
    requires forall k :: i <= k < j ==> Grows(states[k].st, states[k + 1].st)
    ensures Grows(states[i].st, states[j].st)
    decreases j - i
  {
    if i < j {
      GrowsChain(states, i, j - 1);
      assert Grows(states[j - 1].st, states[j - 1 + 1].st);
    }
  }

  /** One dead letter at most, written at the last attempt; from then on nobody claims the notification. */
  lemma DeadLetterOnce(states: seq<State>, acts: seq<Action>, i: nat, j: nat, k: nat, l: nat)
    requires Run(states, acts) && i <= j < |states|
    requires k < |states[i].st.dead| && l < |states[j].st.dead|
    ensures var d := states[i].st.dead[k];
      && d.id in states[i].st.rows && d.attempts == states[i].st.rows[d.id].maxAttempts
      && (states[j].st.dead[l].id == d.id <==> l == k)
      && d.id in states[j].st.rows && !Claimable(states[j].st.rows[d.id].status)
  {
    RunGrows(states, acts, i, j);
    LetterOf(states, acts, i, k, k);
    assert states[j].st.dead[k] == states[i].st.dead[k];
    LetterOf(states, acts, j, k, l);
  }

  lemma LetterOf(states: seq<State>, acts: seq<Action>, i: nat, k: nat, l: nat)
    requires Run(states, acts) && i < |states| && k < |states[i].st.dead| && l < |states[i].st.dead|
    ensures var d := states[i].st.dead[k];
      && d.id in states[i].st.rows && d.attempts == states[i].st.rows[d.id].maxAttempts
      && (states[i].st.dead[l].id == d.id <==> l == k) && !Claimable(states[i].st.rows[d.id].status)
  {
    Invariants(states, acts, i);
    assert RowOk(states[i], states[i].st.dead[k].id);
  }

  /** Members of queue:<ch> and processing:<ch> belong to ch, every message is the one its row dictates,
      so no set and no batch holds two members for one id. */
  lemma RedisWellFormed(states: seq<State>, acts: seq<Action>, i: nat, ch: Channel, m: Message)
    requires Run(states, acts) && i < |states|
    ensures var s := states[i];
      (m in s.st.queue[ch] || m in s.st.processing[ch] ==> m.channel == ch && Agrees(s.st.rows, m))
      && (m in s.st.delayed ==> Agrees(s.st.rows, m))
    ensures OnePerId(states[i].st.queue[ch]) && OnePerId(states[i].st.processing[ch]) && OnePerId(states[i].st.delayed)
  {
    Invariants(states, acts, i);
    var s := states[i];
    assert ChannelAgrees(s.st.rows, s.st.queue[ch], ch);
    assert ChannelAgrees(s.st.rows, s.st.processing[ch], ch);
  }

  ghost predicate OnePerId(z: ZSet) {
    forall m, o :: m in z && o in z && m.id == o.id ==> m == o
  }

  /** The final ack names only the first message's channel, yet removes exactly the batch. */
  lemma AckRemovesTheBatch(states: seq<State>, acts: seq<Action>, i: nat, t: TaskId)
    requires Run(states, acts) && i < |acts| && acts[i] == AckAll(t)
    ensures forall c: Channel, m :: m in states[i + 1].st.processing[c] <==>
      m in states[i].st.processing[c] && m !in states[i].tasks[t].msgs
    ensures forall c: Channel, m :: m in states[i + 1].st.processing[c] ==>
      states[i + 1].st.processing[c][m] == states[i].st.processing[c][m]
  {
    RunIsWf(states, acts, i);
    assert states[i + 1] == DoAckAll(states[i], t);
    AckIsExact(states[i], t);
  }

  lemma AckIsExact(s: State, t: TaskId)
    requires Wf(s) && CanAckAll(s, t)
    ensures var p, p' := s.st.processing, DoAckAll(s, t).st.processing;
      forall c: Channel, m ::
        && (m in p'[c] <==> m in p[c] && m !in s.tasks[t].msgs)
        && (m in p'[c] ==> p'[c][m] == p[c][m])
  {
    assert BatchAgrees(s.st.rows, s.tasks[t]);
    forall c: Channel, m | m in s.st.processing[c] && m in s.tasks[t].msgs ensures c == s.tasks[t].msgs[0].channel {
      assert ChannelAgrees(s.st.rows, s.st.processing[c], c);
    }
  }

  /** Without crashes, a queued notification is never lost. */
  lemma {:induction false} NoMessageLost(states: seq<State>, acts: seq<Action>, i: nat)
    requires Run(states, acts) && i < |states|
    requires forall k :: 0 <= k < i ==> !acts[k].Crash?
    ensures NothingLost(states[i])
  {
    if i == 0 {
    } else {
      NoMessageLost(states, acts, i - 1);
      Invariants(states, acts, i - 1);
      assert states[i - 1 + 1] == Next(states[i - 1], acts[i - 1]);
      LossStep(states[i - 1], acts[i - 1]);
    }
  }

  /** No write of a cancel of id comes too late, up to step i. */
  ghost predicate CancelsInTime(states: seq<State>, acts: seq<Action>, i: nat, id: Id)
    requires Run(states, acts) && i <= |acts|
  {
    forall k :: 0 <= k < i && acts[k] == CancelWrite(id) ==> InTime(states[k], id)
  }

  lemma {:induction false} RunIsStrict(states: seq<State>, acts: seq<Action>, i: nat, id: Id)
    requires Run(states, acts) && i < |states| && CancelsInTime(states, acts, i, id)
    ensures StrictAt(states[i], id)
  {
    if i > 0 {
      RunIsStrict(states, acts, i - 1, id);
      Invariants(states, acts, i - 1);
      assert states[i - 1 + 1] == Next(states[i - 1], acts[i - 1]);
      FlowStep(states[i - 1], acts[i - 1], id);
    }
  }

  /** The statuses of a notification along a run. */
  function History(states: seq<State>, id: Id): seq<Status>
    requires forall s :: s in states ==> id in s.st.rows
  {
    seq(|states|, i requires 0 <= i < |states| => assert states[i] in states; states[i].st.rows[id].status)
  }

  /** A path of the graph, standing still allowed, that never leaves a terminal status. */
  ghost predicate FlowPath(h: seq<Status>) {
    && (forall i :: 0 <= i < |h| - 1 ==> h[i + 1] == h[i] || Edge(h[i], h[i + 1]))
    && (forall i, j :: 0 <= i <= j < |h| && Terminal(h[i]) ==> h[j] == h[i])
  }

  ghost predicate FlowsTo(s: State, s': State, id: Id) {
    id in s.st.rows && id in s'.st.rows && FollowsAt(s.st.rows, s'.st.rows, id)
  }

  predicate Moves(a: Status, b: Status) {
    b == a || Edge(a, b)
  }

  lemma PathByMoves(h: seq<Status>)
    ensures FlowPath(h) <==> forall i :: 0 <= i < |h| - 1 ==> Moves(h[i], h[i + 1])
  {
    if forall i :: 0 <= i < |h| - 1 ==> Moves(h[i], h[i + 1]) {
      forall i, j | 0 <= i <= j < |h| && Terminal(h[i]) ensures h[j] == h[i] { TerminalStays(h, i, j); }
    }
    if FlowPath(h) {
      forall i | 0 <= i < |h| - 1 ensures Moves(h[i], h[i + 1]) { }
    }
  }

  /** The graph, edge by edge. */
  lemma PathIs(h: seq<Status>)
    ensures FlowPath(h) <==> forall i :: 0 <= i < |h| - 1 ==>
      h[i + 1] == h[i] || (h[i], h[i + 1]) in {
        (Pending, Queued), (Pending, Scheduled), (Pending, Cancelled), (Scheduled, Queued), (Scheduled, Cancelled),
        (Queued, Processing), (Queued, Cancelled), (Processing, Sent), (Processing, Failed), (Processing, Queued)}
  {
    PathByMoves(h);
    forall a: Status, b: Status ensures Edge(a, b) <==> (a, b) in {
      (Pending, Queued), (Pending, Scheduled), (Pending, Cancelled), (Scheduled, Queued), (Scheduled, Cancelled),
      (Queued, Processing), (Queued, Cancelled), (Processing, Sent), (Processing, Failed), (Processing, Queued)} { }
    assert forall i :: 0 <= i < |h| - 1 ==> (Moves(h[i], h[i + 1]) <==> h[i + 1] == h[i] || Edge(h[i], h[i + 1]));
  }

  lemma HistoryMoves(states: seq<State>, id: Id, i: nat)
    requires (forall s :: s in states ==> id in s.st.rows) && i < |states| - 1
    ensures FlowsTo(states[i], states[i + 1], id) <==> Moves(History(states, id)[i], History(states, id)[i + 1])
  {
    assert states[i] in states && states[i + 1] in states;
  }

  ghost predicate AllFlow(states: seq<State>, id: Id) {
    forall i :: 0 <= i < |states| - 1 ==> FlowsTo(states[i], states[i + 1], id)
  }

  lemma HistoryFlows(states: seq<State>, id: Id)
    requires forall s :: s in states ==> id in s.st.rows
    ensures FlowPath(History(states, id)) <==> AllFlow(states, id)
  {
    var h := History(states, id);
    PathByMoves(h);
    if AllFlow(states, id) {
      forall i | 0 <= i < |h| - 1 ensures Moves(h[i], h[i + 1]) { HistoryMoves(states, id, i); }
    }
    if FlowPath(h) {
      forall i | 0 <= i < |states| - 1 ensures FlowsTo(states[i], states[i + 1], id) { HistoryMoves(states, id, i); }
    }
  }

  lemma FlowsAt(states: seq<State>, acts: seq<Action>, i: nat, id: Id)
    requires Run(states, acts) && i < |acts| && id in states[i].st.rows && CancelsInTime(states, acts, i + 1, id)
    ensures FlowsTo(states[i], states[i + 1], id)
  {
    RunIsStrict(states, acts, i, id);
    Invariants(states, acts, i);
    FlowStep(states[i], acts[i], id);
  }

  lemma RowsStay(states: seq<State>, acts: seq<Action>, birth: nat, id: Id)
    requires Run(states, acts) && birth < |states| && id in states[birth].st.rows
    ensures forall s :: s in states[birth..] ==> id in s.st.rows
  {
    forall k | birth <= k < |states| ensures id in states[k].st.rows { RunGrows(states, acts, birth, k); }
  }

  /** A run's statuses, from the birth of the notification on, are a path of the published graph with absorbing ends if
      and only if every write of a cancel of it finds a status that may still be cancelled, or is cancelled already. */
  lemma HistoryExactly(states: seq<State>, acts: seq<Action>, birth: nat, id: Id)
    requires Run(states, acts) && 0 < birth < |states|
    requires id !in states[birth - 1].st.rows && id in states[birth].st.rows
    ensures forall s :: s in states[birth..] ==> id in s.st.rows
    ensures FlowPath(History(states[birth..], id)) <==> CancelsInTime(states, acts, |acts|, id)
  {
    RowsStay(states, acts, birth, id);
    HistoryFlows(states[birth..], id);
    if CancelsInTime(states, acts, |acts|, id) { InTimeFlows(states, acts, birth, id); }
    if AllFlow(states[birth..], id) { FlowsInTime(states, acts, birth, id); }
  }

  lemma InTimeFlows(states: seq<State>, acts: seq<Action>, birth: nat, id: Id)
    requires Run(states, acts) && birth < |states| && id in states[birth].st.rows
    requires CancelsInTime(states, acts, |acts|, id)
    ensures AllFlow(states[birth..], id)
  {
    forall i | 0 <= i < |states[birth..]| - 1 ensures FlowsTo(states[birth..][i], states[birth..][i + 1], id) {
      RunGrows(states, acts, birth, birth + i);
      FlowsAt(states, acts, birth + i, id);
    }
  }

  lemma FlowsInTime(states: seq<State>, acts: seq<Action>, birth: nat, id: Id)
    requires Run(states, acts) && 0 < birth < |states| && id !in states[birth - 1].st.rows
    requires AllFlow(states[birth..], id)
    ensures CancelsInTime(states, acts, |acts|, id)
  {
    forall k | 0 <= k < |acts| && acts[k] == CancelWrite(id) ensures InTime(states[k], id) {
      CancelledAfterBirth(states, acts, birth, k, id);
      assert FlowsTo(states[birth..][k - birth], states[birth..][k - birth + 1], id);
      LateCancelFollows(states[k], id);
    }
  }

  /** A cancel writes only to a row that exists. */
  lemma CancelledAfterBirth(states: seq<State>, acts: seq<Action>, birth: nat, k: nat, id: Id)
    requires Run(states, acts) && 0 < birth < |states| && id !in states[birth - 1].st.rows
    requires k < |acts| && acts[k] == CancelWrite(id)
    ensures birth <= k && id in states[k].st.rows && id in states[k].cancels
  {
    CancelHasRow(states, acts, k, id);
    if k < birth { RunGrows(states, acts, k, birth - 1); }
  }

  lemma CancelHasRow(states: seq<State>, acts: seq<Action>, k: nat, id: Id)
    requires Run(states, acts) && k < |acts| && acts[k] == CancelWrite(id)
    ensures id in states[k].st.rows && id in states[k].cancels
  {
    RunIsWf(states, acts, k);
    assert Enabled(states[k], acts[k]);
  }

  /** With cancel taken as one step there is nothing to be late, and every status history follows the graph. */
  lemma StatusHistory(states: seq<State>, acts: seq<Action>, birth: nat, id: Id)
    requires Run(states, acts) && birth < |states| && id in states[birth].st.rows
    requires forall k :: 0 <= k < |acts| ==> !acts[k].CancelRead?
    ensures forall s :: s in states[birth..] ==> id in s.st.rows
    ensures FlowPath(History(states[birth..], id))
  {
    RowsStay(states, acts, birth, id);
    forall k | 0 <= k < |acts| ensures acts[k] != CancelWrite(id) { NoCancelWaits(states, acts, k); }
    InTimeFlows(states, acts, birth, id);
    HistoryFlows(states[birth..], id);
  }

  lemma {:induction false} NoCancelWaits(states: seq<State>, acts: seq<Action>, i: nat)
    requires Run(states, acts) && i < |states| && forall k :: 0 <= k < i ==> !acts[k].CancelRead?
    ensures states[i].cancels == multiset{}
  {
    if i > 0 {
      NoCancelWaits(states, acts, i - 1);
      assert states[i - 1 + 1] == Next(states[i - 1], acts[i - 1]);
      NoCancelStep(states[i - 1], acts[i - 1]);
    }
  }

  lemma NoCancelStep(s: State, a: Action)
    requires s.cancels == multiset{} && Enabled(s, a) && !a.CancelRead?
    ensures Next(s, a).cancels == multiset{}
  {
  }

  lemma {:induction false} TerminalStays(h: seq<Status>, i: nat, j: nat)
    requires i <= j < |h| && Terminal(h[i])
    requires forall k :: 0 <= k < |h| - 1 ==> h[k + 1] == h[k] || Edge(h[k], h[k + 1])
    ensures h[j] == h[i]
    decreases j - i
  {
    if i < j {
      TerminalStays(h, i, j - 1);
      assert h[j - 1 + 1] == h[j - 1] || Edge(h[j - 1], h[j - 1 + 1]);
    }
  }

  lemma {:induction false} ScoresRounded(states: seq<State>, acts: seq<Action>, i: nat)
    requires Run(states, acts) && i < |states|
    ensures Rounded(states[i])
  {
    if i > 0 {
      ScoresRounded(states, acts, i - 1);
      assert states[i - 1 + 1] == Next(states[i - 1], acts[i - 1]);
      RoundedStep(states[i - 1], acts[i - 1]);
    }
  }

  /** Every state of every run is sound. */
  lemma {:induction false} RunIsSound(states: seq<State>, acts: seq<Action>, i: nat)
    requires Run(states, acts) && i < |states|
    ensures Sound(states[i])
  {
    Invariants(states, acts, i);
    ScoresRounded(states, acts, i);
    if i > 0 {
      RunIsSound(states, acts, i - 1);
      assert states[i - 1 + 1] == Next(states[i - 1], acts[i - 1]);
      PoppedStep(states[i - 1], acts[i - 1]);
    }
  }

  /** After any run a notification waiting to be sent can still be claimed if and only if a set or a task knows its
      message; otherwise nothing that can follow changes that. */
  lemma ClaimableExactly(states: seq<State>, acts: seq<Action>, i: nat, m: Message, later: seq<Action>, s': State)
    requires Run(states, acts) && i < |states| && Waits(states[i], m)
    requires Path(Enabled, Next, states[i], later, s')
    ensures CanBeOwned(states[i], m.id) <==> Known(states[i], m)
    ensures !Known(states[i], m) ==> StaysGone(states[i], s', m)
  {
    RunIsSound(states, acts, i);
    LostExactly(states[i], m);
    if !Known(states[i], m) {
      UnknownIsGone(states[i], m);
      GoneForever(states[i], later, s', m);
    }
  }

  /** Without crashes, every queued notification can still be claimed. */
  lemma QueuedCanBeClaimed(states: seq<State>, acts: seq<Action>, i: nat, id: Id)
    requires Run(states, acts) && i < |states| && IsQueued(states[i].st.rows, id)
    requires forall k :: 0 <= k < i ==> !acts[k].Crash?
    ensures CanBeOwned(states[i], id)
  {
    NoMessageLost(states, acts, i);
    RunIsSound(states, acts, i);
    LostExactly(states[i], MsgOf(states[i].st.rows, id));
  }

  /** A batch that dies between dequeue and claim, its message known to processing:<ch> alone: whatever everyone
      does afterwards, short of cancelling it, the message waits there with a claimable row until its deadline;
      and from where it then is, the run can go on to a claim. */
  lemma RecoveryBeforeClaim(states: seq<State>, acts: seq<Action>, i: nat, t: TaskId, m: Message,
                            later: seq<Action>, s: State)
    returns (more: seq<Action>, u: TaskId, s': State)
    requires Run(states, acts) && i < |states| && t in states[i].tasks
    requires (states[i].tasks[t].phase.Popped? || states[i].tasks[t].phase.Waiting?) && m in states[i].tasks[t].msgs
    requires m.id in states[i].st.rows && states[i].st.rows[m.id].status == Queued
    requires m in states[i].st.processing[m.channel] && m !in states[i].st.queue[m.channel] && m !in states[i].st.delayed
    requires forall v :: v in states[i].tasks && v != t ==> m !in states[i].tasks[v].msgs
    requires Path(Enabled, Next, DoCrash(states[i], t), later, s)
    requires forall k :: 0 <= k < |later| ==> !CancelsId(later[k], m.id)
    requires Float64.F64(s.now) < states[i].st.processing[m.channel][m]
    ensures m in s.st.processing[m.channel] && s.st.processing[m.channel][m] == states[i].st.processing[m.channel][m]
    ensures m.id in s.st.rows && s.st.rows[m.id].status == Queued
    ensures Path(Enabled, Next, s, more, s') && u in s'.tasks && Owns(s'.tasks[u].phase, m.id)
  {
    RunIsSound(states, acts, i);
    var c := DoCrash(states[i], t);
    SoundStep(states[i], Crash(t));
    CrashStrands(states[i], t, m);
    StrandedUntilDeadline(c, later, s, m, states[i].st.processing[m.channel][m]);
    PathIsSound(c, later, s);
    more, u, s' := CanBeClaimed(s, m);
  }
}
