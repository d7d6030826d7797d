/** What the pipeline does not promise: orphans of a crash, and runs that lose a message or a terminal status. */
module Races {
  import opened Domain
  import opened Databases
  import opened Pipeline
  import opened Ownership
  import opened Loss
  import opened Runs
  import Float64

  // ---- a crash after the claim ----

  /** Claimed once, owned by nobody now. */
  ghost predicate Orphan(s: State, id: Id) {
    && Held(s.st.rows, id)
    && forall t :: t in s.tasks ==> !Owns(s.tasks[t].phase, id)
  }

  lemma CrashOrphans(s: State, t: TaskId, id: Id)
    requires Own(s) && t in s.tasks && Owns(s.tasks[t].phase, id)
    ensures Orphan(DoCrash(s, t), id)
  {
  }

  /** What a step leaves as it was. */
  ghost predicate StaysOrphan(s: State, s': State, id: Id) {
    && Orphan(s', id) && id in s.st.rows
    && s'.st.rows[id] == s.st.rows[id].(status := s'.st.rows[id].status)
    && s'.sends[id] == s.sends[id] && s'.delivered[id] == s.delivered[id]
  }

  lemma OrphanClaim(s: State, t: TaskId, order: seq<Id>, id: Id)
    requires Orphan(s, id) && CanClaim(s, t, order)
    ensures StaysOrphan(s, DoClaim(s, t, order), id)
  {
    assert id !in Claimed(s.st.rows, Ids(s.tasks[t].msgs)) && id !in order;
    if order != [] {
      var ph' := DoClaim(s, t, order).tasks[t].phase;
      forall i | 0 <= i < |ph'.todo| ensures ph'.todo[i].id != id { assert order[i] in order; }
    }
  }

  lemma OrphanSend(s: State, t: TaskId, out: Outcome, id: Id)
    requires Own(s) && Orphan(s, id) && CanSend(s, t)
    ensures StaysOrphan(s, DoSend(s, t, out), id)
  {
    var ph := s.tasks[t].phase;
    assert !Owns(ph, id);
    SendShifts(ph, out);
    assert ph.todo[0].id != id;
  }

  lemma OrphanStepWork(s: State, a: Action, id: Id)
    requires Own(s) && Orphan(s, id) && Enabled(s, a) && (a.ClaimBatch? || a.Send? || a.WriteFailure? || a.RecordSent?)
    ensures StaysOrphan(s, Next(s, a), id)
  {
    assert !Owns(s.tasks[a.t].phase, id);
    match a
    case ClaimBatch(t, order) => OrphanClaim(s, t, order, id);
    case Send(t, out) => OrphanSend(s, t, out, id);
    case WriteFailure(t) =>
    case RecordSent(t) => MarkSentAt(s.st.rows, s.tasks[t].phase.sent, id);
  }

  /** A step that leaves rows and counts alone and gives no task anything new to own. */
  lemma OrphanFrame(s: State, s': State, id: Id)
    requires Orphan(s, id) && s'.st.rows == s.st.rows && s'.sends == s.sends && s'.delivered == s.delivered
    requires forall t :: t in s'.tasks && Owns(s'.tasks[t].phase, id) ==> t in s.tasks && Owns(s.tasks[t].phase, id)
    ensures StaysOrphan(s, s', id)
  {
  }

  lemma OrphanStepPhase(s: State, a: Action, id: Id)
    requires Orphan(s, id) && Enabled(s, a) && (a.Bury? || a.Delay? || a.AckOne?)
    ensures StaysOrphan(s, Next(s, a), id)
  {
    match a
    case Bury(t) => OrphanFrame(s, DoBury(s, t), id);
    case Delay(t, delay) => OrphanFrame(s, DoDelay(s, t, delay), id);
    case AckOne(t) => OrphanFrame(s, DoAckOne(s, t), id);
  }

  lemma OrphanStepBatch(s: State, a: Action, id: Id)
    requires Orphan(s, id) && Enabled(s, a) && (a.Pop? || a.Mark? || a.AckAll? || a.Crash?)
    ensures StaysOrphan(s, Next(s, a), id)
  {
    match a
    case Pop(t, ch, msgs) => OrphanFrame(s, DoPop(s, t, ch, msgs), id);
    case Mark(t, at) => OrphanFrame(s, DoMark(s, t, at), id);
    case AckAll(t) => OrphanFrame(s, DoAckAll(s, t), id);
    case Crash(t) => OrphanFrame(s, DoCrash(s, t), id);
  }

  /** A step that writes at most the status, and leaves it one a claim rejects. */
  lemma OrphanRows(s: State, s': State, id: Id)
    requires Orphan(s, id) && s'.tasks == s.tasks && s'.sends == s.sends && s'.delivered == s.delivered
    requires Held(s'.st.rows, id) && s'.st.rows[id] == s.st.rows[id].(status := s'.st.rows[id].status)
    ensures StaysOrphan(s, s', id)
  {
  }

  lemma OrphanStepOther(s: State, a: Action, id: Id)
    requires Orphan(s, id) && Enabled(s, a) && !IsWork(a)
    ensures StaysOrphan(s, Next(s, a), id)
  {
    match a
    case Create(i, ch, p) => OrphanRows(s, DoCreate(s, i, ch, p), id);
    case CreateUnqueued(i, ch, p) => OrphanRows(s, DoInsert(s, i, NewRow(ch, p, Pending, None)), id);
    case CreateScheduled(i, ch, p, at) => OrphanRows(s, DoInsert(s, i, NewRow(ch, p, Scheduled, Some(at))), id);
    case CancelRead(i) => OrphanRows(s, s.(cancels := s.cancels + multiset{i}), id);
    case CancelWrite(i) => OrphanRows(s, DoCancel(s, i).(cancels := s.cancels - multiset{i}), id);
    case CancelNow(i) => OrphanRows(s, DoCancel(s, i), id);
    case ScheduleDue(i) => OrphanRows(s, DoSchedule(s, i), id);
    case Promote(m) => OrphanRows(s, DoPromote(s, m), id);
    case Reclaim(ch, m) => OrphanRows(s, DoReclaim(s, ch, m), id);
    case Tick(elapsed) => OrphanRows(s, s.(now := s.now + elapsed), id);
  }

  /** A task that dies after its claim takes the notification with it: over every continuation the row stays
      processing, or is cancelled by hand; it is never claimed, sent or failed again. */
  lemma {:induction false} OrphanForever(s: State, acts: seq<Action>, s': State, id: Id)
    requires Own(s) && Orphan(s, id) && Path(Enabled, Next, s, acts, s')
    ensures Orphan(s', id) && !Claimable(s'.st.rows[id].status)
    ensures s'.st.rows[id].attempts == s.st.rows[id].attempts
    ensures s'.sends[id] == s.sends[id] && s'.delivered[id] == s.delivered[id]
    decreases |acts|
  {
    if acts != [] {
      OrphanStep(s, acts[0], id);
      OrphanForever(Next(s, acts[0]), acts[1..], s', id);
    }
  }

  lemma OrphanStep(s: State, a: Action, id: Id)
    requires Own(s) && Orphan(s, id) && Enabled(s, a)
    ensures Own(Next(s, a)) && StaysOrphan(s, Next(s, a), id)
  {
    OwnStep(s, a);
    if !IsWork(a) {
      OrphanStepOther(s, a, id);
    } else if a.ClaimBatch? || a.Send? || a.WriteFailure? || a.RecordSent? {
      OrphanStepWork(s, a, id);
    } else if a.Bury? || a.Delay? || a.AckOne? {
      OrphanStepPhase(s, a, id);
    } else {
      OrphanStepBatch(s, a, id);
    }
  }

  /** So it is after the crash of an owner. */
  lemma CrashedForever(s: State, t: TaskId, id: Id, acts: seq<Action>, s': State)
    requires Own(s) && t in s.tasks && Owns(s.tasks[t].phase, id) && Path(Enabled, Next, Next(s, Crash(t)), acts, s')
    ensures Orphan(s', id) && !Claimable(s'.st.rows[id].status)
    ensures s'.sends[id] == s.sends[id] && s'.delivered[id] == s.delivered[id]
  {
    CrashOrphans(s, t, id);
    OwnStep(s, Crash(t));
    OrphanForever(Next(s, Crash(t)), acts, s', id);
  }

  // ---- one notification, step by step ----

  const M0 := Message(0, SMS, High, None)
  const VISIBILITY: nat := 30_000_000_000
  const WAIT: nat := 750_000_000

  function Start(): State {
    State(Store(map[], [], EMPTY_SETS, EMPTY_SETS, map[]), map[], multiset{}, 0, VISIBILITY, multiset{}, multiset{})
  }

  lemma F64Small(x: nat)
    requires x < Float64.TWO53
    ensures Float64.F64(x) == x
  {
  }

  /** One row, M0's, and whatever is in the SMS sets. */
  ghost predicate Snapshot(s: State, st: Status, attempts: nat, queue: ZSet, processing: ZSet, delayed: ZSet,
                           tasks: map<TaskId, Task>, now: Time) {
    && 0 in s.st.rows && s.st.rows[0].status == st && s.st.rows[0].attempts == attempts
    && s.st.rows[0].channel == SMS && s.st.rows[0].priority == High && s.st.rows[0].maxAttempts == MAX_ATTEMPTS
    && s.st.queue[SMS] == queue && s.st.processing[SMS] == processing && s.st.delayed == delayed
    && s.tasks == tasks && s.now == now && s.visibility == VISIBILITY
  }

  lemma Dequeued(s: State, t: TaskId, attempts: nat, processing: ZSet, tasks: map<TaskId, Task>, now: Time)
    requires Snapshot(s, Queued, attempts, map[M0 := now], processing, map[], tasks, now) && t !in tasks
    requires now < Float64.TWO53 - VISIBILITY
    ensures Enabled(s, Pop(t, SMS, [M0])) && Enabled(Next(s, Pop(t, SMS, [M0])), Mark(t, now))
    ensures Snapshot(Next(Next(s, Pop(t, SMS, [M0])), Mark(t, now)), Queued, attempts, map[],
                     processing[M0 := now + VISIBILITY], map[], tasks[t := Task(SMS, [M0], Waiting)], now)
  {
    var popped := tasks[t := Task(SMS, [M0], Popped(now))];
    PoppedM0(s, t, attempts, processing, tasks, now);
    MarkedM0(DoPop(s, t, SMS, [M0]), t, attempts, processing, popped, now);
    assert popped[t := Task(SMS, [M0], Waiting)] == tasks[t := Task(SMS, [M0], Waiting)];
  }

  lemma PoppedM0(s: State, t: TaskId, attempts: nat, processing: ZSet, tasks: map<TaskId, Task>, now: Time)
    requires Snapshot(s, Queued, attempts, map[M0 := now], processing, map[], tasks, now) && t !in tasks
    ensures CanPop(s, t, SMS, [M0])
    ensures Snapshot(DoPop(s, t, SMS, [M0]), Queued, attempts, map[], processing, map[],
                     tasks[t := Task(SMS, [M0], Popped(now))], now)
  {
    assert IsMin(s.st.queue[SMS], M0);
    assert [M0][1..] == [];
    assert s.st.queue[SMS] - Members([M0]) == map[];
  }

  lemma MarkedM0(s: State, t: TaskId, attempts: nat, processing: ZSet, tasks: map<TaskId, Task>, now: Time)
    requires Snapshot(s, Queued, attempts, map[], processing, map[], tasks, now)
    requires t in tasks && tasks[t] == Task(SMS, [M0], Popped(now)) && now < Float64.TWO53 - VISIBILITY
    ensures CanMark(s, t, now)
    ensures Snapshot(DoMark(s, t, now), Queued, attempts, map[], processing[M0 := now + VISIBILITY], map[],
                     tasks[t := Task(SMS, [M0], Waiting)], now)
  {
    F64Small(now + VISIBILITY);
    assert AddAll(processing, [M0], now + VISIBILITY) == processing[M0 := now + VISIBILITY];
  }

  lemma ClaimedAndFailed(s: State, processing: ZSet)
    requires Snapshot(s, Queued, 0, map[], processing, map[], map[0 := Task(SMS, [M0], Waiting)], 0)
    ensures Enabled(s, ClaimBatch(0, [0])) && Enabled(Next(s, ClaimBatch(0, [0])), Send(0, Errored("timeout")))
    ensures var s2 := Next(Next(s, ClaimBatch(0, [0])), Send(0, Errored("timeout")));
      Snapshot(s2, Processing, 0, map[], processing, map[],
               map[0 := Task(SMS, [M0], Sending([], [], SendFailed(Failure(0, 1, MAX_ATTEMPTS, "timeout"))))], 0)
  {
    assert s.tasks[0].msgs[0] in s.tasks[0].msgs;
    assert Ids(s.tasks[0].msgs) == {0};
    var s1 := DoClaim(s, 0, [0]);
    var c := Claim(0, SMS, 0, MAX_ATTEMPTS);
    assert s1.tasks[0].phase.todo == [c];
    assert [c][1..] == [];
  }

  const FAILURE := Failure(0, 1, MAX_ATTEMPTS, "timeout")
  const HELD := Task(SMS, [M0], Sending([], [], Idle))

  lemma Delayed(s: State, processing: ZSet)
    requires Snapshot(s, Processing, 0, map[], processing, map[], map[0 := Task(SMS, [M0], Sending([], [], SendFailed(FAILURE)))], 0)
    ensures Enabled(s, WriteFailure(0)) && Enabled(Next(s, WriteFailure(0)), Delay(0, WAIT))
    ensures var s2 := Next(Next(s, WriteFailure(0)), Delay(0, WAIT));
      Enabled(s2, AckOne(0))
      && Snapshot(Next(s2, AckOne(0)), Queued, 1, map[], processing - {M0}, map[M0 := WAIT], map[0 := HELD], 0)
  {
    F64Small(WAIT);
    assert MsgFor([M0], 0) == Some(M0);
    assert Members([M0]) == {M0};
  }

  lemma Promoted(s: State)
    requires Snapshot(s, Queued, 1, map[], map[], map[M0 := WAIT], map[0 := HELD], 0)
    ensures Enabled(s, Tick(WAIT)) && Enabled(Next(s, Tick(WAIT)), Promote(M0))
    ensures Snapshot(Next(Next(s, Tick(WAIT)), Promote(M0)), Queued, 1, map[M0 := WAIT], map[], map[], map[0 := HELD], WAIT)
  {
    F64Small(WAIT);
  }

  lemma AckedTwice(s: State)
    requires Snapshot(s, Queued, 1, map[], map[M0 := WAIT + VISIBILITY], map[],
                      map[0 := HELD, 1 := Task(SMS, [M0], Waiting)], WAIT)
    ensures Enabled(s, RecordSent(0)) && Enabled(Next(s, RecordSent(0)), AckAll(0))
    ensures var s2 := Next(Next(s, RecordSent(0)), AckAll(0));
      Enabled(s2, Crash(1)) && Snapshot(Next(s2, Crash(1)), Queued, 1, map[], map[], map[], map[], WAIT)
  {
    var s1 := DoRecordSent(s, 0);
    assert Snapshot(s1, Queued, 1, map[], map[M0 := WAIT + VISIBILITY], map[],
                    map[0 := Task(SMS, [M0], Finishing), 1 := Task(SMS, [M0], Waiting)], WAIT);
    FinalAck(s1);
  }

  lemma FinalAck(s: State)
    requires Snapshot(s, Queued, 1, map[], map[M0 := WAIT + VISIBILITY], map[],
                      map[0 := Task(SMS, [M0], Finishing), 1 := Task(SMS, [M0], Waiting)], WAIT)
    ensures CanAckAll(s, 0)
    ensures Snapshot(DoCrash(DoAckAll(s, 0), 1), Queued, 1, map[], map[], map[], map[], WAIT)
    ensures 1 in DoAckAll(s, 0).tasks
  {
    assert Members([M0]) == {M0};
  }

  // ---- the double ack of a failed message ----

  /** The first batch fails M0, delays it and acks it, but has not finished. M0 comes due, a second batch
      dequeues it, and the first batch's final ack removes the second's entry from processing. If the second
      worker dies before its claim, the message is gone: no continuation claims the queued row again. */
  lemma DoubleAckLosesMessage() returns (acts: seq<Action>, s: State)
    ensures Init(Start()) && Path(Enabled, Next, Start(), acts, s)
    ensures 0 in s.st.rows && s.st.rows[0].status == Queued && s.st.rows[0].attempts == 1
    ensures Gone(s, M0) && !CanBeOwned(s, 0)
  {
    acts, s := DoubleAck();
    PathIsSound(Start(), acts, s);
    GoneIsNeverOwned(s, M0);
  }

  lemma DoubleAck() returns (acts: seq<Action>, s: State)
    ensures Path(Enabled, Next, Start(), acts, s)
    ensures Snapshot(s, Queued, 1, map[], map[], map[], map[], WAIT)
  {
    acts, s := FirstAttempt();
    Promoted(s);
    acts, s := Steps(acts, s, Tick(WAIT), Promote(M0));
    Dequeued(s, 1, 1, map[], map[0 := HELD], WAIT);
    acts, s := Steps(acts, s, Pop(1, SMS, [M0]), Mark(1, WAIT));
    AckedTwice(s);
    acts, s := Steps(acts, s, RecordSent(0), AckAll(0));
    PathThen(Enabled, Next, Start(), acts, s, Crash(1));
    acts, s := acts + [Crash(1)], Next(s, Crash(1));
  }

  /** M0 is created and dequeued at once. */
  lemma FirstBatch() returns (acts: seq<Action>, s: State)
    ensures Path(Enabled, Next, Start(), acts, s)
    ensures Snapshot(s, Queued, 0, map[], map[M0 := VISIBILITY], map[], map[0 := Task(SMS, [M0], Waiting)], 0)
    ensures s.cancels == multiset{}
  {
    F64Small(0);
    PathOne(Enabled, Next, Start(), Create(0, SMS, High));
    acts, s := [Create(0, SMS, High)], Next(Start(), Create(0, SMS, High));
    Dequeued(s, 0, 0, map[], map[], 0);
    acts, s := Steps(acts, s, Pop(0, SMS, [M0]), Mark(0, 0));
  }

  lemma FirstAttempt() returns (acts: seq<Action>, s: State)
    ensures Path(Enabled, Next, Start(), acts, s)
    ensures Snapshot(s, Queued, 1, map[], map[], map[M0 := WAIT], map[0 := HELD], 0)
  {
    acts, s := FirstFailure();
    Delayed(s, map[M0 := VISIBILITY]);
    acts, s := Steps(acts, s, WriteFailure(0), Delay(0, WAIT));
    PathThen(Enabled, Next, Start(), acts, s, AckOne(0));
    acts, s := acts + [AckOne(0)], Next(s, AckOne(0));
    assert map[M0 := VISIBILITY] - {M0} == map[];
  }

  lemma FirstFailure() returns (acts: seq<Action>, s: State)
    ensures Path(Enabled, Next, Start(), acts, s)
    ensures Snapshot(s, Processing, 0, map[], map[M0 := VISIBILITY], map[],
                     map[0 := Task(SMS, [M0], Sending([], [], SendFailed(FAILURE)))], 0)
  {
    acts, s := FirstBatch();
    ClaimedAndFailed(s, map[M0 := VISIBILITY]);
    acts, s := Steps(acts, s, ClaimBatch(0, [0]), Send(0, Errored("timeout")));
  }

  lemma Steps(acts: seq<Action>, s: State, a: Action, b: Action) returns (acts': seq<Action>, s': State)
    requires Path(Enabled, Next, Start(), acts, s) && Enabled(s, a) && Enabled(Next(s, a), b)
    ensures Path(Enabled, Next, Start(), acts', s') && s' == Next(Next(s, a), b)
  {
    PathThen(Enabled, Next, Start(), acts, s, a);
    PathThen(Enabled, Next, Start(), acts + [a], Next(s, a), b);
    acts', s' := acts + [a] + [b], Next(Next(s, a), b);
  }

  // ---- a cancel split around a delivery ----

  lemma SentByTask0(s: State, processing: ZSet)
    requires Snapshot(s, Queued, 0, map[], processing, map[], map[0 := Task(SMS, [M0], Waiting)], 0)
    ensures Enabled(s, ClaimBatch(0, [0])) && Enabled(Next(s, ClaimBatch(0, [0])), Send(0, Delivered("id")))
    ensures var s2 := Next(Next(s, ClaimBatch(0, [0])), Send(0, Delivered("id")));
      Enabled(s2, RecordSent(0)) && s2.cancels == s.cancels && Next(s2, RecordSent(0)).cancels == s.cancels
      && 0 in Next(s2, RecordSent(0)).st.rows && Next(s2, RecordSent(0)).st.rows[0].status == Sent
  {
    assert s.tasks[0].msgs[0] in s.tasks[0].msgs;
    assert Ids(s.tasks[0].msgs) == {0};
    var s1 := DoClaim(s, 0, [0]);
    var c := Claim(0, SMS, 0, MAX_ATTEMPTS);
    assert s1.tasks[0].phase.todo == [c];
    assert [c][1..] == [];
    SentOne(DoSend(s1, 0, Delivered("id")));
  }

  lemma SentOne(s: State)
    requires CanRecordSent(s, 0) && s.tasks[0].phase.sent == [Receipt(0, "id")] && 0 in s.st.rows
    ensures 0 in DoRecordSent(s, 0).st.rows && DoRecordSent(s, 0).st.rows[0].status == Sent
  {
    MarkSentAt(s.st.rows, s.tasks[0].phase.sent, 0);
    assert s.tasks[0].phase.sent[0].id == 0;
  }

  /** A request reads queued, the notification is claimed and sent, and the request then writes cancelled
      over sent: with a split cancel a terminal status is not absorbing. */
  lemma SplitCancelOverwritesSent() returns (acts: seq<Action>, s: State, s': State)
    ensures Init(Start()) && Path(Enabled, Next, Start(), acts, s) && Enabled(s, CancelWrite(0))
    ensures 0 in s.st.rows && s.st.rows[0].status == Sent
    ensures s' == Next(s, CancelWrite(0)) && s'.st.rows[0].status == Cancelled
  {
    acts, s := FirstBatch();
    PathThen(Enabled, Next, Start(), acts, s, CancelRead(0));
    acts, s := acts + [CancelRead(0)], Next(s, CancelRead(0));
    SentByTask0(s, map[M0 := VISIBILITY]);
    acts, s := Steps(acts, s, ClaimBatch(0, [0]), Send(0, Delivered("id")));
    PathThen(Enabled, Next, Start(), acts, s, RecordSent(0));
    acts, s := acts + [RecordSent(0)], Next(s, RecordSent(0));
    s' := Next(s, CancelWrite(0));
  }
}
