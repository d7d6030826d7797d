/** When a notification waiting to be sent is lost for good: exactly when nobody knows its message any more. */
module Loss {
  import opened Domain
  import opened Databases
  import opened Pipeline
  import opened WellFormed
  import opened Ownership
  import opened NoLoss
  import opened Recovery
  import opened Runs

  /** No set and no task has the message of this row, no task owns the row, and the scheduler will not enqueue it. */
  ghost predicate Gone(s: State, m: Message) {
    && m.id in s.st.rows && m == MsgOf(s.st.rows, m.id) && s.st.rows[m.id].status != Scheduled
    && NoSetHas(s.st, m)
    && forall t :: t in s.tasks ==> Ignores(s.tasks[t], m)
  }

  predicate NoSetHas(st: Store, m: Message) {
    m !in st.queue[m.channel] && m !in st.processing[m.channel] && m !in st.delayed
  }

  predicate Ignores(k: Task, m: Message) {
    !Holds(k, m) && !Owns(k.phase, m.id)
  }

  /** What a step keeps. */
  ghost predicate StaysGone(s: State, s': State, m: Message) {
    && Gone(s', m) && s'.sends[m.id] == s.sends[m.id] && s'.delivered[m.id] == s.delivered[m.id]
    && m.id in s.st.rows
    && (s'.st.rows[m.id].status == s.st.rows[m.id].status || s'.st.rows[m.id].status == Cancelled)
  }

  // ---- what the invariant says of a task that ignores m ----

  lemma NotInBatch(s: State, t: TaskId, m: Message)
    requires Wf(s) && Gone(s, m) && t in s.tasks && (s.tasks[t].phase.Popped? || s.tasks[t].phase.Waiting?)
    ensures m !in s.tasks[t].msgs && m.id !in Ids(s.tasks[t].msgs)
  {
    assert BatchAgrees(s.st.rows, s.tasks[t]);
    forall i | 0 <= i < |s.tasks[t].msgs| ensures s.tasks[t].msgs[i].id != m.id {
      assert s.tasks[t].msgs[i] in s.tasks[t].msgs && Agrees(s.st.rows, s.tasks[t].msgs[i]);
    }
  }

  lemma NotInQueues(s: State, ch: Channel, m: Message)
    requires Wf(s) && NoSetHas(s.st, m)
    ensures m !in s.st.queue[ch] && m !in s.st.processing[ch]
  {
    assert ChannelAgrees(s.st.rows, s.st.queue[ch], ch) && ChannelAgrees(s.st.rows, s.st.processing[ch], ch);
  }

  // ---- one lemma a step ----

  /** Steps that leave the row's status, or cancel it, add other messages to the sets at most, and leave tasks alone. */
  lemma GoneSets(s: State, s': State, m: Message)
    requires Gone(s, m) && s'.tasks == s.tasks && s'.sends == s.sends && s'.delivered == s.delivered
    requires m.id in s'.st.rows && MsgOf(s'.st.rows, m.id) == m
    requires s'.st.rows[m.id].status == s.st.rows[m.id].status || s'.st.rows[m.id].status == Cancelled
    requires NoSetHas(s'.st, m)
    ensures StaysGone(s, s', m)
  {
  }

  /** Steps of one task that leave the row alone. */
  lemma GoneTask(s: State, s': State, t: TaskId, m: Message)
    requires Gone(s, m) && s'.sends[m.id] == s.sends[m.id] && s'.delivered[m.id] == s.delivered[m.id]
    requires m.id in s'.st.rows && s'.st.rows[m.id] == s.st.rows[m.id]
    requires NoSetHas(s'.st, m)
    requires forall u :: u in s'.tasks && u != t ==> u in s.tasks && s'.tasks[u] == s.tasks[u]
    requires t in s'.tasks ==> Ignores(s'.tasks[t], m)
    ensures StaysGone(s, s', m)
  {
  }

  lemma GoneEnqueue(queue: ZSets, o: Message, now: Time, m: Message)
    requires m !in queue[m.channel] && o != m
    ensures m !in Enqueue(queue, o, now)[m.channel]
  {
  }

  lemma GoneCreate(s: State, id: Id, ch: Channel, p: Priority, m: Message)
    requires Gone(s, m) && id !in s.st.rows
    ensures StaysGone(s, DoCreate(s, id, ch, p), m)
  {
    GoneEnqueue(s.st.queue, Message(id, ch, p, None), s.now, m);
    GoneSets(s, DoCreate(s, id, ch, p), m);
  }

  lemma GoneSchedule(s: State, id: Id, m: Message)
    requires Gone(s, m) && CanSchedule(s, id)
    ensures StaysGone(s, DoSchedule(s, id), m)
  {
    GoneEnqueue(s.st.queue, Message(id, s.st.rows[id].channel, s.st.rows[id].priority, None), s.now, m);
    GoneSets(s, DoSchedule(s, id), m);
  }

  lemma GonePromote(s: State, o: Message, m: Message)
    requires Gone(s, m) && o in s.st.delayed
    ensures StaysGone(s, DoPromote(s, o), m)
  {
    GoneEnqueue(s.st.queue, o, s.now, m);
    GoneSets(s, DoPromote(s, o), m);
  }

  lemma GoneReclaim(s: State, ch: Channel, o: Message, m: Message)
    requires Wf(s) && Gone(s, m) && o in s.st.processing[ch]
    ensures StaysGone(s, DoReclaim(s, ch, o), m)
  {
    NotInQueues(s, ch, m);
    GoneEnqueue(s.st.queue, o, s.now, m);
    GoneSets(s, DoReclaim(s, ch, o), m);
  }

  lemma GonePop(s: State, t: TaskId, ch: Channel, msgs: seq<Message>, m: Message)
    requires Wf(s) && Gone(s, m) && CanPop(s, t, ch, msgs)
    ensures StaysGone(s, DoPop(s, t, ch, msgs), m)
  {
    NotInQueues(s, ch, m);
    PopsDistinct(s.st.queue[ch], msgs);
    GoneTask(s, DoPop(s, t, ch, msgs), t, m);
  }

  lemma GoneMark(s: State, t: TaskId, at: Time, m: Message)
    requires Wf(s) && Gone(s, m) && CanMark(s, t, at)
    ensures StaysGone(s, DoMark(s, t, at), m)
  {
    NotInBatch(s, t, m);
    GoneTask(s, DoMark(s, t, at), t, m);
  }

  lemma GoneClaim(s: State, t: TaskId, order: seq<Id>, m: Message)
    requires Wf(s) && Gone(s, m) && CanClaim(s, t, order)
    ensures StaysGone(s, DoClaim(s, t, order), m)
  {
    NotInBatch(s, t, m);
    var s' := DoClaim(s, t, order);
    if order != [] {
      forall i | 0 <= i < |s'.tasks[t].phase.todo| ensures s'.tasks[t].phase.todo[i].id != m.id {
        assert order[i] in order && order[i] in Claimed(s.st.rows, Ids(s.tasks[t].msgs));
      }
    }
    GoneTask(s, s', t, m);
  }

  lemma GoneSend(s: State, t: TaskId, out: Outcome, m: Message)
    requires Own(s) && Gone(s, m) && CanSend(s, t)
    ensures StaysGone(s, DoSend(s, t, out), m)
  {
    SendShifts(s.tasks[t].phase, out);
    assert s.tasks[t].phase.todo[0].id != m.id;
    GoneTask(s, DoSend(s, t, out), t, m);
  }

  lemma GoneWriteFailure(s: State, t: TaskId, m: Message)
    requires Gone(s, m) && CanWriteFailure(s, t)
    ensures StaysGone(s, DoWriteFailure(s, t), m)
  {
    assert s.tasks[t].phase.cur.f.id != m.id;
    GoneTask(s, DoWriteFailure(s, t), t, m);
  }

  lemma GoneBury(s: State, t: TaskId, m: Message)
    requires Gone(s, m) && CanBury(s, t)
    ensures StaysGone(s, DoBury(s, t), m)
  {
    GoneTask(s, DoBury(s, t), t, m);
  }

  lemma GoneDelay(s: State, t: TaskId, delay: nat, m: Message)
    requires Wf(s) && Gone(s, m) && CanDelay(s, t)
    ensures StaysGone(s, DoDelay(s, t, delay), m)
  {
    var x := s.tasks[t].phase.cur.f.id;
    assert x != m.id && WorkFromBatch(s.tasks[t]);
    MsgForFinds(s.tasks[t].msgs, x);
    GoneTask(s, DoDelay(s, t, delay), t, m);
  }

  lemma GoneAckOne(s: State, t: TaskId, m: Message)
    requires Gone(s, m) && CanAckOne(s, t)
    ensures StaysGone(s, DoAckOne(s, t), m)
  {
    GoneTask(s, DoAckOne(s, t), t, m);
  }

  lemma GoneRecordSent(s: State, t: TaskId, m: Message)
    requires Gone(s, m) && CanRecordSent(s, t)
    ensures StaysGone(s, DoRecordSent(s, t), m)
  {
    MarkSentAt(s.st.rows, s.tasks[t].phase.sent, m.id);
    assert !InSent(s.tasks[t].phase.sent, m.id);
    GoneTask(s, DoRecordSent(s, t), t, m);
  }

  lemma GoneLeave(s: State, t: TaskId, m: Message)
    requires Gone(s, m) && t in s.tasks
    ensures StaysGone(s, DoCrash(s, t), m)
    ensures CanAckAll(s, t) ==> StaysGone(s, DoAckAll(s, t), m)
  {
    GoneTask(s, DoCrash(s, t), t, m);
    if CanAckAll(s, t) { GoneTask(s, DoAckAll(s, t), t, m); }
  }

  lemma GoneStepOther(s: State, a: Action, m: Message)
    requires Wf(s) && Gone(s, m) && Enabled(s, a) && !IsWork(a)
    ensures StaysGone(s, Next(s, a), m)
  {
    match a
    case Create(id, ch, p) => GoneCreate(s, id, ch, p, m);
    case ScheduleDue(id) => GoneSchedule(s, id, m);
    case Promote(o) => GonePromote(s, o, m);
    case Reclaim(ch, o) => GoneReclaim(s, ch, o, m);
    case _ => GoneSets(s, Next(s, a), m);
  }

  lemma GoneStepWork(s: State, a: Action, m: Message)
    requires Wf(s) && Own(s) && Gone(s, m) && Enabled(s, a) && IsWork(a)
    ensures StaysGone(s, Next(s, a), m)
  {
    match a
    case Pop(t, ch, msgs) => GonePop(s, t, ch, msgs, m);
    case Mark(t, at) => GoneMark(s, t, at, m);
    case ClaimBatch(t, order) => GoneClaim(s, t, order, m);
    case Send(t, out) => GoneSend(s, t, out, m);
    case WriteFailure(t) => GoneWriteFailure(s, t, m);
    case Bury(t) => GoneBury(s, t, m);
    case Delay(t, delay) => GoneDelay(s, t, delay, m);
    case AckOne(t) => GoneAckOne(s, t, m);
    case RecordSent(t) => GoneRecordSent(s, t, m);
    case AckAll(t) => GoneLeave(s, t, m);
    case Crash(t) => GoneLeave(s, t, m);
  }

  lemma GoneStep(s: State, a: Action, m: Message)
    requires Wf(s) && Own(s) && Gone(s, m) && Enabled(s, a)
    ensures Wf(Next(s, a)) && Own(Next(s, a)) && StaysGone(s, Next(s, a), m)
  {
    WfStep(s, a);
    OwnStep(s, a);
    if IsWork(a) { GoneStepWork(s, a, m); } else { GoneStepOther(s, a, m); }
  }

  /** Gone is gone: over every continuation nobody claims, sends or delivers it again, and the row stays as it is
      unless a request cancels it. */
  lemma {:induction false} GoneForever(s: State, acts: seq<Action>, s': State, m: Message)
    requires Wf(s) && Own(s) && Gone(s, m) && Path(Enabled, Next, s, acts, s')
    ensures StaysGone(s, s', m)
    decreases |acts|
  {
    if acts != [] {
      GoneStep(s, acts[0], m);
      GoneForever(Next(s, acts[0]), acts[1..], s', m);
    }
  }

  // ---- and what is not gone can still be claimed ----

  /** Some set has the message, or some task that has not resolved it. */
  ghost predicate Known(s: State, m: Message) {
    !NoSetHas(s.st, m) || exists t :: t in s.tasks && Holds(s.tasks[t], m)
  }

  ghost predicate Owned(s: State, id: Id) {
    exists t :: t in s.tasks && Owns(s.tasks[t].phase, id)
  }

  /** Some continuation ends with id claimed. */
  ghost predicate CanBeOwned(s: State, id: Id) {
    exists acts, s' :: Path(Enabled, Next, s, acts, s') && Owned(s', id)
  }

  /** No pop lies in the future. */
  ghost predicate PoppedInTime(s: State) {
    forall t :: t in s.tasks && s.tasks[t].phase.Popped? ==> s.tasks[t].phase.at <= s.now
  }

  /** Every state of every run is sound, see Theorems. */
  ghost predicate Sound(s: State) {
    Wf(s) && Own(s) && Rounded(s) && PoppedInTime(s)
  }

  /** m is the message of a row that a claim would take. */
  ghost predicate Waits(s: State, m: Message) {
    m.id in s.st.rows && m == MsgOf(s.st.rows, m.id) && Claimable(s.st.rows[m.id].status)
  }

  /** Nothing was ever enqueued for a pending row. */
  lemma PendingIsUnknown(s: State, m: Message)
    requires Wf(s) && Waits(s, m) && s.st.rows[m.id].status == Pending
    ensures !Known(s, m)
  {
    assert ChannelAgrees(s.st.rows, s.st.queue[m.channel], m.channel);
    assert ChannelAgrees(s.st.rows, s.st.processing[m.channel], m.channel);
    forall t | t in s.tasks ensures !Holds(s.tasks[t], m) {
      assert BatchAgrees(s.st.rows, s.tasks[t]) && WorkFromBatch(s.tasks[t]);
    }
  }

  lemma UnknownIsGone(s: State, m: Message)
    requires Own(s) && Waits(s, m) && !Known(s, m)
    ensures Gone(s, m)
  {
    forall t | t in s.tasks ensures !Owns(s.tasks[t].phase, m.id) {
      assert Owns(s.tasks[t].phase, m.id) ==> Held(s.st.rows, m.id);
    }
  }

  lemma {:induction false} Enumerated(ids: set<Id>) returns (order: seq<Id>)
    ensures forall i, j :: 0 <= i < j < |order| ==> order[i] != order[j]
    ensures forall id :: id in order <==> id in ids
    decreases ids
  {
    order := [];
    if ids != {} {
      var id :| id in ids;
      order := Enumerated(ids - {id});
      assert id !in order;
      order := order + [id];
    }
  }

  /** A waiting batch claims. */
  lemma ClaimedByBatch(s: State, t: TaskId, m: Message) returns (a: Action)
    requires t in s.tasks && s.tasks[t].phase.Waiting? && m in s.tasks[t].msgs && Waits(s, m)
    ensures Enabled(s, a) && Owned(Next(s, a), m.id)
  {
    var order := Enumerated(Claimed(s.st.rows, Ids(s.tasks[t].msgs)));
    a := ClaimBatch(t, order);
    assert m.id in order;
    var i :| 0 <= i < |order| && order[i] == m.id;
    assert DoClaim(s, t, order).tasks[t].phase.todo[i].id == m.id;
  }

  /** A batch popped and not yet marked is marked. */
  lemma MarkedByBatch(s: State, t: TaskId, m: Message)
    requires Sound(s) && t in s.tasks && s.tasks[t].phase.Popped? && m in s.tasks[t].msgs
    ensures Enabled(s, Mark(t, s.now))
    ensures var s1 := Next(s, Mark(t, s.now)); s1.st.rows == s.st.rows && m in s1.st.processing[m.channel]
  {
    assert BatchAgrees(s.st.rows, s.tasks[t]);
  }

  /** A failed message is delayed. */
  lemma DelayedByTask(s: State, t: TaskId, m: Message)
    requires Sound(s) && Waits(s, m) && CanDelay(s, t) && s.tasks[t].phase.cur.f.id == m.id
    ensures Enabled(s, Delay(t, 0))
    ensures var s1 := Next(s, Delay(t, 0)); s1.st.rows == s.st.rows && m in s1.st.delayed
  {
    assert BatchAgrees(s.st.rows, s.tasks[t]) && WorkFromBatch(s.tasks[t]);
    MsgForFinds(s.tasks[t].msgs, m.id);
  }

  lemma SetsLead(s: State, m: Message)
    requires Rounded(s) && m.id in s.st.rows && s.st.rows[m.id].status == Queued && !NoSetHas(s.st, m)
    ensures CanBeOwned(s, m.id)
  {
    var acts, t, s' := CanBeClaimed(s, m);
    assert Owned(s', m.id);
  }

  /** One step first. */
  lemma LeadsAfter(s: State, a: Action, id: Id)
    requires Enabled(s, a) && CanBeOwned(Next(s, a), id)
    ensures CanBeOwned(s, id)
  {
    var acts, s' :| Path(Enabled, Next, Next(s, a), acts, s') && Owned(s', id);
    PathOne(Enabled, Next, s, a);
    PathTrans(Enabled, Next, s, [a], Next(s, a), acts, s');
  }

  lemma SetLeads(s: State, a: Action, m: Message)
    requires Rounded(s) && Enabled(s, a) && Next(s, a).st.rows == s.st.rows && !NoSetHas(Next(s, a).st, m)
    requires m.id in s.st.rows && s.st.rows[m.id].status == Queued
    ensures CanBeOwned(s, m.id)
  {
    RoundedStep(s, a);
    SetsLead(Next(s, a), m);
    LeadsAfter(s, a, m.id);
  }

  lemma TaskLeads(s: State, t: TaskId, m: Message)
    requires Sound(s) && Waits(s, m) && s.st.rows[m.id].status == Queued && t in s.tasks && Holds(s.tasks[t], m)
    ensures CanBeOwned(s, m.id)
  {
    if s.tasks[t].phase.Waiting? {
      var a := ClaimedByBatch(s, t, m);
      PathOne(Enabled, Next, s, a);
    } else if s.tasks[t].phase.Popped? {
      MarkedByBatch(s, t, m);
      SetLeads(s, Mark(t, s.now), m);
    } else {
      DelayedByTask(s, t, m);
      SetLeads(s, Delay(t, 0), m);
    }
  }

  lemma GoneIsNeverOwned(s: State, m: Message)
    requires Wf(s) && Own(s) && Gone(s, m)
    ensures !CanBeOwned(s, m.id)
  {
    forall acts, s' | Path(Enabled, Next, s, acts, s') ensures !Owned(s', m.id) { GoneForever(s, acts, s', m); }
  }

  /** The exact line: a notification waiting to be sent can still be claimed if and only if a set or a task knows
      its message. */
  lemma LostExactly(s: State, m: Message)
    requires Sound(s) && Waits(s, m)
    ensures CanBeOwned(s, m.id) <==> Known(s, m)
  {
    if !Known(s, m) {
      UnknownIsGone(s, m);
      GoneIsNeverOwned(s, m);
    } else {
      if s.st.rows[m.id].status == Pending { PendingIsUnknown(s, m); }
      KnownLeads(s, m);
    }
  }

  lemma KnownLeads(s: State, m: Message)
    requires Sound(s) && Waits(s, m) && s.st.rows[m.id].status == Queued && Known(s, m)
    ensures CanBeOwned(s, m.id)
  {
    if NoSetHas(s.st, m) {
      var t :| t in s.tasks && Holds(s.tasks[t], m);
      TaskLeads(s, t, m);
    } else {
      SetsLead(s, m);
    }
  }

  // ---- crashes ----

  lemma SoundStep(s: State, a: Action)
    requires Sound(s) && Enabled(s, a)
    ensures Sound(Next(s, a))
  {
    WfStep(s, a);
    OwnStep(s, a);
    RoundedStep(s, a);
    PoppedStep(s, a);
  }

  lemma InitIsSound(s: State)
    requires Init(s)
    ensures Sound(s)
  {
  }

  lemma {:induction false} PathIsSound(s: State, acts: seq<Action>, s': State)
    requires Sound(s) && Path(Enabled, Next, s, acts, s')
    ensures Sound(s')
    decreases |acts|
  {
    if acts != [] {
      SoundStep(s, acts[0]);
      PathIsSound(Next(s, acts[0]), acts[1..], s');
    }
  }

  lemma PoppedStep(s: State, a: Action)
    requires PoppedInTime(s) && Enabled(s, a)
    ensures PoppedInTime(Next(s, a))
  {
    ClockStep(s, a);
    if IsWork(a) { PoppedWork(s, a); }
  }

  lemma PoppedWork(s: State, a: Action)
    requires PoppedInTime(s) && Enabled(s, a) && IsWork(a)
    ensures PoppedInTime(Next(s, a))
  {
  }

  /** Some set knows the message, or some task other than t. */
  ghost predicate KnownBesides(s: State, t: TaskId, m: Message) {
    !NoSetHas(s.st, m) || exists u :: u in s.tasks && u != t && Holds(s.tasks[u], m)
  }

  lemma CrashLeaves(s: State, t: TaskId, m: Message)
    ensures Known(DoCrash(s, t), m) <==> KnownBesides(s, t, m)
  {
    var s' := DoCrash(s, t);
    if u :| u in s'.tasks && Holds(s'.tasks[u], m) { assert u in s.tasks && u != t; }
    if u :| u in s.tasks && u != t && Holds(s.tasks[u], m) { assert u in s'.tasks && Holds(s'.tasks[u], m); }
  }

  /** A crash loses exactly the messages that no set and no other task knows. */
  lemma CrashLosesExactly(s: State, t: TaskId, m: Message)
    requires Sound(s) && Waits(s, m) && t in s.tasks
    ensures CanBeOwned(Next(s, Crash(t)), m.id) <==> KnownBesides(s, t, m)
  {
    SoundStep(s, Crash(t));
    LostExactly(DoCrash(s, t), m);
    CrashLeaves(s, t, m);
  }

  /** Between ZPOPMIN and the ZADDs a batch is known to its task alone: a crash there loses every message of it
      that was not known elsewhere before the pop. */
  lemma PopCrashLoses(s: State, t: TaskId, ch: Channel, msgs: seq<Message>, m: Message)
    requires Sound(s) && Waits(s, m) && CanPop(s, t, ch, msgs) && m in msgs
    ensures CanBeOwned(Next(Next(s, Pop(t, ch, msgs)), Crash(t)), m.id) <==> KnownElsewhere(s, m)
  {
    SoundStep(s, Pop(t, ch, msgs));
    CrashLosesExactly(DoPop(s, t, ch, msgs), t, m);
    PopLeaves(s, t, ch, msgs, m);
  }

  /** Not only the queue knows the message. */
  ghost predicate KnownElsewhere(s: State, m: Message) {
    m in s.st.processing[m.channel] || m in s.st.delayed || exists u :: u in s.tasks && Holds(s.tasks[u], m)
  }

  lemma PopLeaves(s: State, t: TaskId, ch: Channel, msgs: seq<Message>, m: Message)
    requires Wf(s) && CanPop(s, t, ch, msgs) && m in msgs
    ensures KnownBesides(DoPop(s, t, ch, msgs), t, m) <==> KnownElsewhere(s, m)
  {
    PopTakes(s, t, ch, msgs, m);
    OtherHolders(s.tasks, DoPop(s, t, ch, msgs).tasks, t, m);
  }

  lemma PopTakes(s: State, t: TaskId, ch: Channel, msgs: seq<Message>, m: Message)
    requires Wf(s) && CanPop(s, t, ch, msgs) && m in msgs
    ensures NoSetHas(DoPop(s, t, ch, msgs).st, m) <==> m !in s.st.processing[m.channel] && m !in s.st.delayed
  {
    PopsDistinct(s.st.queue[ch], msgs);
    assert ChannelAgrees(s.st.rows, s.st.queue[ch], ch);
  }

  lemma OtherHolders(tasks: map<TaskId, Task>, tasks': map<TaskId, Task>, t: TaskId, m: Message)
    requires t !in tasks
    requires forall u :: u in tasks' && u != t <==> u in tasks
    requires forall u :: u in tasks ==> u in tasks' && tasks'[u] == tasks[u]
    ensures (exists u :: u in tasks' && u != t && Holds(tasks'[u], m)) <==> (exists u :: u in tasks && Holds(tasks[u], m))
  {
    if u :| u in tasks && Holds(tasks[u], m) { assert u in tasks' && Holds(tasks'[u], m); }
  }
}
