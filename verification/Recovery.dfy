/** A batch that dies between its dequeue and its claim: the message waits out its visibility timeout in
    processing:<ch>, and from there, as from any other set, it can be claimed again. */
module Recovery {
  import opened Domain
  import opened Databases
  import opened Pipeline
  import opened WellFormed
  import opened Ownership
  import opened Runs
  import Float64

  // ---- waiting for the deadline ----

  /** Only processing:<ch> knows m, with this deadline, and its row is claimable. */
  ghost predicate Stranded(s: State, m: Message, deadline: nat) {
    && m.id in s.st.rows && s.st.rows[m.id].status == Queued
    && m in s.st.processing[m.channel] && s.st.processing[m.channel][m] == deadline
    && m !in s.st.queue[m.channel] && m !in s.st.delayed
    && forall t :: t in s.tasks ==> m !in s.tasks[t].msgs
  }

  predicate CancelsId(a: Action, id: Id) {
    (a.CancelWrite? || a.CancelNow?) && a.id == id
  }

  /** Nothing about m changes: neither its row, nor its entry in processing, nor who else knows it. */
  ghost predicate Leaves(s: State, s': State, m: Message) {
    && m.id in s.st.rows && m.id in s'.st.rows && s'.st.rows[m.id].status == s.st.rows[m.id].status
    && m in s.st.processing[m.channel] && m in s'.st.processing[m.channel]
    && s'.st.processing[m.channel][m] == s.st.processing[m.channel][m]
    && (m in s'.st.queue[m.channel] ==> m in s.st.queue[m.channel])
    && (m in s'.st.delayed ==> m in s.st.delayed)
    && forall t :: t in s'.tasks && m in s'.tasks[t].msgs ==> t in s.tasks && m in s.tasks[t].msgs
  }

  /** m has a row and an entry in processing, and neither the queue nor the delayed set has it. */
  ghost predicate InProcessing(s: State, m: Message) {
    && m.id in s.st.rows && s.st.rows[m.id].status == Queued && m in s.st.processing[m.channel]
    && m !in s.st.queue[m.channel] && m !in s.st.delayed
  }

  lemma LeavesApi(s: State, a: Action, m: Message)
    requires InProcessing(s, m) && Enabled(s, a) && !CancelsId(a, m.id)
    requires a.Create? || a.CreateUnqueued? || a.CreateScheduled? || a.ScheduleDue?
    ensures Leaves(s, Next(s, a), m)
  {
  }

  lemma LeavesCancel(s: State, a: Action, m: Message)
    requires InProcessing(s, m) && Enabled(s, a) && !CancelsId(a, m.id)
    requires a.CancelRead? || a.CancelWrite? || a.CancelNow? || a.Tick?
    ensures Leaves(s, Next(s, a), m)
  {
  }

  lemma LeavesPromote(s: State, o: Message, m: Message)
    requires InProcessing(s, m) && o in s.st.delayed
    ensures Leaves(s, DoPromote(s, o), m)
  {
  }

  lemma LeavesReclaim(s: State, ch: Channel, o: Message, m: Message)
    requires InProcessing(s, m) && o != m
    ensures Leaves(s, DoReclaim(s, ch, o), m)
  {
  }

  lemma LeavesPop(s: State, t: TaskId, ch: Channel, msgs: seq<Message>, m: Message)
    requires InProcessing(s, m) && t !in s.tasks && m !in msgs
    ensures Leaves(s, DoPop(s, t, ch, msgs), m)
  {
  }

  lemma LeavesMark(s: State, t: TaskId, at: Time, m: Message)
    requires InProcessing(s, m) && CanMark(s, t, at) && m !in s.tasks[t].msgs
    ensures Leaves(s, DoMark(s, t, at), m)
  {
  }

  lemma LeavesClaim(s: State, t: TaskId, order: seq<Id>, m: Message)
    requires InProcessing(s, m) && CanClaim(s, t, order) && m.id !in Ids(s.tasks[t].msgs)
    ensures Leaves(s, DoClaim(s, t, order), m)
  {
  }

  lemma LeavesSend(s: State, t: TaskId, out: Outcome, m: Message)
    requires InProcessing(s, m) && CanSend(s, t)
    ensures Leaves(s, DoSend(s, t, out), m)
  {
  }

  lemma LeavesWriteFailure(s: State, t: TaskId, m: Message)
    requires InProcessing(s, m) && CanWriteFailure(s, t) && s.tasks[t].phase.cur.f.id != m.id
    ensures Leaves(s, DoWriteFailure(s, t), m)
  {
  }

  lemma LeavesBury(s: State, t: TaskId, m: Message)
    requires InProcessing(s, m) && CanBury(s, t)
    ensures Leaves(s, DoBury(s, t), m)
  {
  }

  lemma LeavesDelay(s: State, t: TaskId, delay: nat, m: Message)
    requires InProcessing(s, m) && CanDelay(s, t) && MsgFor(s.tasks[t].msgs, s.tasks[t].phase.cur.f.id) != Some(m)
    ensures Leaves(s, DoDelay(s, t, delay), m)
  {
  }

  lemma LeavesAckOne(s: State, t: TaskId, m: Message)
    requires InProcessing(s, m) && CanAckOne(s, t) && MsgFor(s.tasks[t].msgs, s.tasks[t].phase.cur.f.id) != Some(m)
    ensures Leaves(s, DoAckOne(s, t), m)
  {
  }

  lemma LeavesRecordSent(s: State, t: TaskId, m: Message)
    requires InProcessing(s, m) && CanRecordSent(s, t) && !InSent(s.tasks[t].phase.sent, m.id)
    ensures Leaves(s, DoRecordSent(s, t), m)
  {
    MarkSentAt(s.st.rows, s.tasks[t].phase.sent, m.id);
  }

  lemma LeavesAckAll(s: State, t: TaskId, m: Message)
    requires InProcessing(s, m) && CanAckAll(s, t) && m !in s.tasks[t].msgs
    ensures Leaves(s, DoAckAll(s, t), m)
  {
  }

  /** What the invariant says about a task whose batch does not hold m. */
  lemma ApartById(s: State, m: Message, deadline: nat, t: TaskId)
    requires Wf(s) && Stranded(s, m, deadline) && t in s.tasks
    ensures m !in s.tasks[t].msgs && m.id !in Ids(s.tasks[t].msgs)
    ensures s.tasks[t].phase.Sending? ==> !InSent(s.tasks[t].phase.sent, m.id)
    ensures s.tasks[t].phase.Sending? && s.tasks[t].phase.cur != Idle ==>
      s.tasks[t].phase.cur.f.id != m.id && MsgFor(s.tasks[t].msgs, s.tasks[t].phase.cur.f.id) != Some(m)
  {
    assert ChannelAgrees(s.st.rows, s.st.processing[m.channel], m.channel);
    assert BatchAgrees(s.st.rows, s.tasks[t]) && WorkFromBatch(s.tasks[t]);
    forall i | 0 <= i < |s.tasks[t].msgs| ensures s.tasks[t].msgs[i].id != m.id {
      assert s.tasks[t].msgs[i] in s.tasks[t].msgs;
    }
    if s.tasks[t].phase.Sending? && s.tasks[t].phase.cur != Idle {
      MsgForFinds(s.tasks[t].msgs, s.tasks[t].phase.cur.f.id);
    }
  }

  lemma PoppedApart(s: State, ch: Channel, msgs: seq<Message>, m: Message)
    requires Wf(s) && Pops(s.st.queue[ch], msgs) && m !in s.st.queue[m.channel]
    ensures m !in msgs
  {
    PopsDistinct(s.st.queue[ch], msgs);
    assert ChannelAgrees(s.st.rows, s.st.queue[ch], ch);
  }

  lemma LeavesWork(s: State, a: Action, m: Message, deadline: nat)
    requires Wf(s) && Stranded(s, m, deadline) && Enabled(s, a) && IsWork(a)
    ensures Leaves(s, Next(s, a), m)
  {
    if !a.Pop? { ApartById(s, m, deadline, a.t); }
    match a
    case Pop(t, ch, msgs) => PoppedApart(s, ch, msgs, m); LeavesPop(s, t, ch, msgs, m);
    case Mark(t, at) => LeavesMark(s, t, at, m);
    case ClaimBatch(t, order) => LeavesClaim(s, t, order, m);
    case Send(t, out) => LeavesSend(s, t, out, m);
    case WriteFailure(t) => LeavesWriteFailure(s, t, m);
    case Bury(t) => LeavesBury(s, t, m);
    case Delay(t, delay) => LeavesDelay(s, t, delay, m);
    case AckOne(t) => LeavesAckOne(s, t, m);
    case RecordSent(t) => LeavesRecordSent(s, t, m);
    case AckAll(t) => LeavesAckAll(s, t, m);
    case Crash(t) =>
  }

  lemma LeavesOther(s: State, a: Action, m: Message, deadline: nat)
    requires Wf(s) && Stranded(s, m, deadline) && Enabled(s, a) && !IsWork(a)
    requires !CancelsId(a, m.id) && deadline > Float64.F64(s.now)
    ensures Leaves(s, Next(s, a), m)
  {
    match a
    case Promote(o) => LeavesPromote(s, o, m);
    case Reclaim(ch, o) =>
      assert ChannelAgrees(s.st.rows, s.st.processing[ch], ch);
      LeavesReclaim(s, ch, o, m);
    case CancelRead(_) => LeavesCancel(s, a, m);
    case CancelWrite(_) => LeavesCancel(s, a, m);
    case CancelNow(_) => LeavesCancel(s, a, m);
    case Tick(_) => LeavesCancel(s, a, m);
    case _ => LeavesApi(s, a, m);
  }

  /** No step but its own reclaim or cancel moves a stranded message. */
  lemma StrandedStep(s: State, a: Action, m: Message, deadline: nat)
    requires Wf(s) && Stranded(s, m, deadline) && Enabled(s, a)
    requires !CancelsId(a, m.id) && deadline > Float64.F64(s.now)
    ensures Stranded(Next(s, a), m, deadline)
  {
    if IsWork(a) { LeavesWork(s, a, m, deadline); } else { LeavesOther(s, a, m, deadline); }
    StrandedLeft(s, Next(s, a), m, deadline);
  }

  lemma StrandedLeft(s: State, s': State, m: Message, deadline: nat)
    requires Stranded(s, m, deadline) && Leaves(s, s', m)
    ensures Stranded(s', m, deadline)
  {
  }

  /** Until the deadline the message stays where it is, with a claimable row, whatever everyone else does. */
  lemma {:induction false} StrandedUntilDeadline(s: State, acts: seq<Action>, s': State, m: Message, deadline: nat)
    requires Wf(s) && Stranded(s, m, deadline) && Path(Enabled, Next, s, acts, s')
    requires forall k :: 0 <= k < |acts| ==> !CancelsId(acts[k], m.id)
    requires Float64.F64(s'.now) < deadline
    ensures Stranded(s', m, deadline) && Claimable(s'.st.rows[m.id].status)
    decreases |acts|
  {
    if acts != [] {
      ClockRuns(s, acts, s');
      Float64.Monotone(s.now, s'.now);
      StrandedLives(s, acts[0], m, deadline);
      StrandedUntilDeadline(Next(s, acts[0]), acts[1..], s', m, deadline);
    }
  }

  lemma StrandedLives(s: State, a: Action, m: Message, deadline: nat)
    requires Wf(s) && Stranded(s, m, deadline) && Enabled(s, a)
    requires !CancelsId(a, m.id) && deadline > Float64.F64(s.now)
    ensures Wf(Next(s, a)) && Stranded(Next(s, a), m, deadline)
  {
    StrandedStep(s, a, m, deadline);
    WfStep(s, a);
  }

  lemma {:induction false} ClockRuns(s: State, acts: seq<Action>, s': State)
    requires Path(Enabled, Next, s, acts, s')
    ensures s.now <= s'.now
    decreases |acts|
  {
    if acts != [] {
      ClockStep(s, acts[0]);
      ClockRuns(Next(s, acts[0]), acts[1..], s');
    }
  }

  lemma ClockStep(s: State, a: Action)
    ensures s.now <= Next(s, a).now
  {
  }

  /** A task that dies, or is dropped by its pool, before the claim strands its messages. */
  lemma CrashStrands(s: State, t: TaskId, m: Message)
    requires t in s.tasks && (s.tasks[t].phase.Popped? || s.tasks[t].phase.Waiting?) && m in s.tasks[t].msgs
    requires m.id in s.st.rows && s.st.rows[m.id].status == Queued
    requires m in s.st.processing[m.channel] && m !in s.st.queue[m.channel] && m !in s.st.delayed
    requires forall u :: u in s.tasks && u != t ==> m !in s.tasks[u].msgs
    ensures Stranded(Next(s, Crash(t)), m, s.st.processing[m.channel][m])
  {
  }

  // ---- claiming it again ----

  lemma {:induction false} MinExists(z: ZSet) returns (x: Message)
    requires z != map[]
    ensures IsMin(z, x)
    decreases z.Keys
  {
    x :| x in z;
    var rest := z - {x};
    if rest == map[] {
      forall o | o in z ensures o == x { assert o !in rest; }
    } else {
      var y := MinExists(rest);
      var x0 := x;
      if !Before(z, x0, y) { x := y; }
      forall o | o in z ensures !Before(z, o, x) {
        if o != x0 { assert o in rest && !Before(rest, o, y); }
      }
    }
  }

  lemma {:induction false} FreshTask(ts: set<TaskId>) returns (t: TaskId)
    ensures forall u :: u in ts ==> u < t
    decreases ts
  {
    t := 0;
    if ts != {} {
      var u :| u in ts;
      var t0 := FreshTask(ts - {u});
      t := if t0 <= u then u + 1 else t0;
      forall v | v in ts ensures v < t { assert v == u || v in ts - {u}; }
    }
  }

  /** Tasks of s are as they were. */
  predicate KeepsTasks(s: State, s': State) {
    forall u :: u in s.tasks ==> u in s'.tasks && s'.tasks[u] == s.tasks[u]
  }

  /** From the queue: every pop takes the head, so the rank of m falls until a fresh task holds it alone. */
  lemma {:induction false} QueuedIsDequeued(s: State, m: Message) returns (acts: seq<Action>, t: TaskId, s': State)
    requires m in s.st.queue[m.channel]
    ensures Path(Enabled, Next, s, acts, s') && s'.st.rows == s.st.rows
    ensures t in s'.tasks && s'.tasks[t].ch == m.channel && s'.tasks[t].msgs == [m] && s'.tasks[t].phase.Popped?
    ensures s'.tasks[t].phase.at <= s'.now && KeepsTasks(s, s') && t !in s.tasks
    decreases |s.st.queue[m.channel]|
  {
    var a, x;
    a, t, x := HeadIsDequeued(s, m.channel, m);
    PathOne(Enabled, Next, s, a);
    var s1 := DoPop(s, t, m.channel, [x]);
    if x == m {
      acts, s' := [a], s1;
    } else {
      var rest;
      rest, t, s' := QueuedIsDequeued(s1, m);
      acts := [a] + rest;
      PathTrans(Enabled, Next, s, [a], s1, rest, s');
    }
  }

  /** A batch of one: the head of the queue leaves, everything else stays. */
  lemma HeadIsDequeued(s: State, ch: Channel, m: Message) returns (a: Action, t: TaskId, x: Message)
    requires m in s.st.queue[ch]
    ensures a == Pop(t, ch, [x]) && Enabled(s, a) && Next(s, a) == DoPop(s, t, ch, [x]) && t !in s.tasks
    ensures var q := DoPop(s, t, ch, [x]).st.queue[ch];
      |q| < |s.st.queue[ch]| && (m == x || m in q)
  {
    var q := s.st.queue[ch];
    x := MinExists(q);
    t := FreshTask(s.tasks.Keys);
    assert Pops(q, [x]) by { assert [x][1..] == []; }
    a := Pop(t, ch, [x]);
    assert Members([x]) == {x};
    assert (q - {x}).Keys == q.Keys - {x};
    assert |(q - {x}).Keys| == |q - {x}| && |q.Keys - {x}| < |q.Keys| == |q|;
  }

  /** Deadlines and retry times were rounded when written. */
  ghost predicate Rounded(s: State) {
    && (forall ch: Channel, m :: m in s.st.processing[ch] ==> Float64.F64(s.st.processing[ch][m]) == s.st.processing[ch][m])
    && (forall m :: m in s.st.delayed ==> Float64.F64(s.st.delayed[m]) == s.st.delayed[m])
  }

  lemma RoundedMark(s: State, t: TaskId, at: Time)
    requires Rounded(s) && CanMark(s, t, at)
    ensures Rounded(Next(s, Mark(t, at)))
  {
    Float64.Idempotent(at + s.visibility);
  }

  lemma RoundedDelay(s: State, t: TaskId, delay: nat)
    requires Rounded(s) && CanDelay(s, t)
    ensures Rounded(Next(s, Delay(t, delay)))
  {
    Float64.Idempotent(s.now + delay);
  }

  lemma RoundedStep(s: State, a: Action)
    requires Rounded(s) && Enabled(s, a)
    ensures Rounded(Next(s, a))
  {
    if IsWork(a) { RoundedWork(s, a); } else { RoundedOther(s, a); }
  }

  lemma RoundedOther(s: State, a: Action)
    requires Rounded(s) && Enabled(s, a) && !IsWork(a)
    ensures Rounded(Next(s, a))
  {
    match a
    case Promote(m) => RoundedShrinks(s, DoPromote(s, m));
    case Reclaim(ch, m) => RoundedShrinks(s, DoReclaim(s, ch, m));
    case _ => RoundedShrinks(s, Next(s, a));
  }

  lemma RoundedWork(s: State, a: Action)
    requires Rounded(s) && Enabled(s, a) && IsWork(a)
    ensures Rounded(Next(s, a))
  {
    match a
    case Mark(t, at) => RoundedMark(s, t, at);
    case Delay(t, delay) => RoundedDelay(s, t, delay);
    case AckOne(t) => RoundedShrinks(s, DoAckOne(s, t));
    case AckAll(t) => RoundedShrinks(s, DoAckAll(s, t));
    case _ => RoundedShrinks(s, Next(s, a));
  }

  lemma {:induction false} RoundedPath(s: State, acts: seq<Action>, s': State)
    requires Rounded(s) && Path(Enabled, Next, s, acts, s')
    ensures Rounded(s')
    decreases |acts|
  {
    if acts != [] {
      RoundedStep(s, acts[0]);
      RoundedPath(Next(s, acts[0]), acts[1..], s');
    }
  }

  lemma RoundedShrinks(s: State, s': State)
    requires Rounded(s)
    requires forall ch: Channel, m :: m in s'.st.processing[ch] ==>
      m in s.st.processing[ch] && s'.st.processing[ch][m] == s.st.processing[ch][m]
    requires forall m :: m in s'.st.delayed ==> m in s.st.delayed && s'.st.delayed[m] == s.st.delayed[m]
    ensures Rounded(s')
  {
  }

  /** Into the queue: once the clock reaches the score, the scheduler may move the message. */
  lemma Requeued(s: State, m: Message) returns (acts: seq<Action>, s': State)
    requires Rounded(s) && (m in s.st.processing[m.channel] || m in s.st.delayed)
    ensures Path(Enabled, Next, s, acts, s') && s'.st.rows == s.st.rows && m in s'.st.queue[m.channel] && s'.tasks == s.tasks
  {
    var score := if m in s.st.delayed then s.st.delayed[m] else s.st.processing[m.channel][m];
    var elapsed := if score > s.now then score - s.now else 0;
    var s1 := Next(s, Tick(elapsed));
    PathOne(Enabled, Next, s, Tick(elapsed));
    Float64.Monotone(score, s1.now);
    var a;
    a, s' := MovedBack(s1, m);
    PathThen(Enabled, Next, s, [Tick(elapsed)], s1, a);
    acts := [Tick(elapsed)] + [a];
  }

  lemma MovedBack(s: State, m: Message) returns (a: Action, s': State)
    requires Due(s.st.delayed, m, s.now) || Due(s.st.processing[m.channel], m, s.now)
    ensures Enabled(s, a) && s' == Next(s, a)
    ensures s'.st.rows == s.st.rows && m in s'.st.queue[m.channel] && s'.tasks == s.tasks
  {
    a := if Due(s.st.delayed, m, s.now) then Promote(m) else Reclaim(m.channel, m);
    s' := Next(s, a);
  }

  /** A notification that a claim would take can still be claimed when its message is in some set. */
  lemma CanBeClaimed(s: State, m: Message) returns (acts: seq<Action>, t: TaskId, s': State)
    requires Rounded(s) && m.id in s.st.rows && Claimable(s.st.rows[m.id].status)
    requires m in s.st.processing[m.channel] || m in s.st.delayed || m in s.st.queue[m.channel]
    ensures Path(Enabled, Next, s, acts, s')
    ensures t in s'.tasks && Owns(s'.tasks[t].phase, m.id)
    ensures m.id in s'.st.rows && s'.st.rows[m.id].status == Processing
    ensures KeepsTasks(s, s') && t !in s.tasks && m in s'.st.processing[m.channel]
  {
    var s1 := s;
    acts := [];
    if m !in s.st.queue[m.channel] {
      acts, s1 := Requeued(s, m);
    }
    var acts2, s2;
    acts2, t, s2 := QueuedIsDequeued(s1, m);
    PathTrans(Enabled, Next, s, acts, s1, acts2, s2);
    var acts3;
    acts3, s' := ClaimsAlone(s2, t, m);
    PathTrans(Enabled, Next, s, acts + acts2, s2, acts3, s');
    acts := acts + acts2 + acts3;
  }

  lemma ClaimsAlone(s: State, t: TaskId, m: Message) returns (acts: seq<Action>, s': State)
    requires t in s.tasks && s.tasks[t].phase.Popped? && s.tasks[t].phase.at <= s.now && s.tasks[t].msgs == [m]
    requires m.id in s.st.rows && Claimable(s.st.rows[m.id].status) && s.tasks[t].ch == m.channel
    ensures Path(Enabled, Next, s, acts, s') && t in s'.tasks && Owns(s'.tasks[t].phase, m.id)
    ensures m.id in s'.st.rows && s'.st.rows[m.id].status == Processing && m in s'.st.processing[m.channel]
    ensures forall u :: u in s.tasks && u != t ==> u in s'.tasks && s'.tasks[u] == s.tasks[u]
  {
    MarksOne(s, t, m);
    var s1 := Next(s, Mark(t, s.now));
    PathOne(Enabled, Next, s, Mark(t, s.now));
    ClaimsOne(s1, t, m);
    s' := Next(s1, ClaimBatch(t, [m.id]));
    PathThen(Enabled, Next, s, [Mark(t, s.now)], s1, ClaimBatch(t, [m.id]));
    acts := [Mark(t, s.now)] + [ClaimBatch(t, [m.id])];
  }

  lemma MarksOne(s: State, t: TaskId, m: Message)
    requires t in s.tasks && s.tasks[t].phase.Popped? && s.tasks[t].phase.at <= s.now && s.tasks[t].msgs == [m]
    requires s.tasks[t].ch == m.channel
    ensures Enabled(s, Mark(t, s.now)) && m in Next(s, Mark(t, s.now)).st.processing[m.channel]
    ensures var s' := Next(s, Mark(t, s.now));
      && t in s'.tasks && s'.tasks[t].phase.Waiting? && s'.tasks[t].msgs == [m] && s'.st.rows == s.st.rows
      && forall u :: u in s.tasks && u != t ==> u in s'.tasks && s'.tasks[u] == s.tasks[u]
  {
  }

  lemma ClaimsOne(s: State, t: TaskId, m: Message)
    requires t in s.tasks && s.tasks[t].phase.Waiting? && s.tasks[t].msgs == [m]
    requires m.id in s.st.rows && Claimable(s.st.rows[m.id].status)
    ensures Enabled(s, ClaimBatch(t, [m.id]))
    ensures Next(s, ClaimBatch(t, [m.id])).st.processing == s.st.processing
    ensures var s' := Next(s, ClaimBatch(t, [m.id]));
      && t in s'.tasks && Owns(s'.tasks[t].phase, m.id)
      && m.id in s'.st.rows && s'.st.rows[m.id].status == Processing
      && forall u :: u in s.tasks && u != t ==> u in s'.tasks && s'.tasks[u] == s.tasks[u]
  {
    assert s.tasks[t].msgs[0] in s.tasks[t].msgs;
    assert m.id in Claimed(s.st.rows, Ids(s.tasks[t].msgs));
    assert DoClaim(s, t, [m.id]).tasks[t].phase.todo[0].id == m.id;
  }
}
