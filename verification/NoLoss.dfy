/** Without crashes no queued notification is lost: its message is in its queue, in the delayed set,
    or held by a task that has not resolved it, whatever duplicates and double acks there are. */
module NoLoss {
  import opened Domain
  import opened Databases
  import opened Pipeline
  import opened WellFormed

  /** Dequeued and not yet claimed, or failed and not yet delayed. */
  predicate Holds(k: Task, m: Message) {
    || ((k.phase.Popped? || k.phase.Waiting?) && m in k.msgs)
    || (k.phase.Sending? && k.phase.cur.Delaying? && k.phase.cur.f.id == m.id)
  }

  ghost predicate Carried(s: State, m: Message) {
    || m in s.st.queue[m.channel]
    || m in s.st.delayed
    || exists t :: t in s.tasks && Holds(s.tasks[t], m)
  }

  predicate IsQueued(rows: Table, id: Id) {
    id in rows && rows[id].status == Queued
  }

  ghost predicate NothingLost(s: State) {
    forall id :: IsQueued(s.st.rows, id) ==> Carried(s, MsgOf(s.st.rows, id))
  }

  /** Queued rows and their messages are as before. */
  ghost predicate SameQueued(s: State, s': State) {
    forall id :: IsQueued(s'.st.rows, id) ==> IsQueued(s.st.rows, id) && MsgOf(s'.st.rows, id) == MsgOf(s.st.rows, id)
  }

  /** Steps that only add to the sets carrying messages. */
  lemma LossGrows(s: State, s': State)
    requires NothingLost(s) && s'.tasks == s.tasks
    requires forall m :: m in s.st.delayed ==> m in s'.st.delayed || m in s'.st.queue[m.channel]
    requires forall m: Message :: m in s.st.queue[m.channel] ==> m in s'.st.queue[m.channel]
    requires forall id :: IsQueued(s'.st.rows, id) ==>
      (IsQueued(s.st.rows, id) && MsgOf(s'.st.rows, id) == MsgOf(s.st.rows, id)) || Carried(s', MsgOf(s'.st.rows, id))
    ensures NothingLost(s')
  {
  }

  lemma LossCreate(s: State, id: Id, ch: Channel, p: Priority)
    requires NothingLost(s) && id !in s.st.rows
    ensures NothingLost(DoCreate(s, id, ch, p))
  {
    LossGrows(s, DoCreate(s, id, ch, p));
  }

  lemma LossSchedule(s: State, id: Id)
    requires NothingLost(s) && CanSchedule(s, id)
    ensures NothingLost(DoSchedule(s, id))
  {
    LossGrows(s, DoSchedule(s, id));
  }

  lemma LossPromote(s: State, m: Message)
    requires NothingLost(s)
    ensures NothingLost(DoPromote(s, m))
  {
    LossGrows(s, DoPromote(s, m));
  }

  lemma LossReclaim(s: State, ch: Channel, m: Message)
    requires NothingLost(s)
    ensures NothingLost(DoReclaim(s, ch, m))
  {
    LossGrows(s, DoReclaim(s, ch, m));
  }

  /** Steps that move no message and make no row queued. */
  lemma LossStill(s: State, s': State)
    requires NothingLost(s) && s'.tasks == s.tasks && s'.st.queue == s.st.queue && s'.st.delayed == s.st.delayed
    requires SameQueued(s, s')
    ensures NothingLost(s')
  {
    LossGrows(s, s');
  }

  /** One task's step: all other tasks hold what they held. */
  lemma LossTask(s: State, s': State, t: TaskId)
    requires NothingLost(s) && SameQueued(s, s')
    requires forall u :: u in s.tasks && u != t ==> u in s'.tasks && s'.tasks[u] == s.tasks[u]
    requires forall m: Message :: m in s.st.queue[m.channel] ==> m in s'.st.queue[m.channel] || (t in s'.tasks && Holds(s'.tasks[t], m))
    requires forall m :: m in s.st.delayed ==> m in s'.st.delayed
    requires forall id :: IsQueued(s'.st.rows, id) && t in s.tasks && Holds(s.tasks[t], MsgOf(s'.st.rows, id)) ==>
      Carried(s', MsgOf(s'.st.rows, id))
    ensures NothingLost(s')
  {
  }

  lemma LossClaim(s: State, t: TaskId, order: seq<Id>)
    requires NothingLost(s) && CanClaim(s, t, order)
    ensures NothingLost(DoClaim(s, t, order))
  {
    var s' := DoClaim(s, t, order);
    forall id | IsQueued(s'.st.rows, id) ensures !Holds(s.tasks[t], MsgOf(s'.st.rows, id)) {
      assert id !in Ids(s.tasks[t].msgs);
    }
    LossTask(s, s', t);
  }

  lemma LossWriteFailure(s: State, t: TaskId)
    requires NothingLost(s) && CanWriteFailure(s, t)
    ensures NothingLost(DoWriteFailure(s, t))
  {
    var s' := DoWriteFailure(s, t);
    var f := s.tasks[t].phase.cur.f;
    forall id | IsQueued(s'.st.rows, id) ensures Carried(s', MsgOf(s'.st.rows, id)) {
      var m := MsgOf(s'.st.rows, id);
      if id == f.id && f.attempts < f.maxAttempts {
        assert t in s'.tasks && Holds(s'.tasks[t], m);
      } else {
        assert IsQueued(s.st.rows, id) && Carried(s, m);
        if m !in s.st.delayed && m !in s.st.queue[m.channel] {
          var u :| u in s.tasks && Holds(s.tasks[u], m);
          assert u != t && u in s'.tasks;
        }
      }
    }
  }

  /** The message a failed claim puts back is the one of its row. */
  predicate DelaysItsOwn(s: State, a: Action) {
    a.Delay? && CanDelay(s, a.t) && s.tasks[a.t].phase.cur.f.id in s.st.rows ==>
      MsgFor(s.tasks[a.t].msgs, s.tasks[a.t].phase.cur.f.id) == Some(MsgOf(s.st.rows, s.tasks[a.t].phase.cur.f.id))
  }

  lemma WfDelays(s: State, a: Action)
    requires Wf(s)
    ensures DelaysItsOwn(s, a)
  {
    if a.Delay? && CanDelay(s, a.t) {
      assert WorkFromBatch(s.tasks[a.t]) && BatchAgrees(s.st.rows, s.tasks[a.t]);
      MsgForFinds(s.tasks[a.t].msgs, s.tasks[a.t].phase.cur.f.id);
    }
  }

  lemma LossDelay(s: State, t: TaskId, delay: nat)
    requires NothingLost(s) && CanDelay(s, t) && DelaysItsOwn(s, Delay(t, delay))
    ensures NothingLost(DoDelay(s, t, delay))
  {
    LossTask(s, DoDelay(s, t, delay), t);
  }

  lemma LossRecordSent(s: State, t: TaskId)
    requires NothingLost(s) && CanRecordSent(s, t)
    ensures NothingLost(DoRecordSent(s, t))
  {
    var s' := DoRecordSent(s, t);
    forall id | IsQueued(s'.st.rows, id)
      ensures IsQueued(s.st.rows, id) && MsgOf(s'.st.rows, id) == MsgOf(s.st.rows, id)
    {
      MarkSentAt(s.st.rows, s.tasks[t].phase.sent, id);
    }
    LossTask(s, s', t);
  }

  lemma LossPop(s: State, t: TaskId, ch: Channel, msgs: seq<Message>)
    requires NothingLost(s) && CanPop(s, t, ch, msgs)
    ensures NothingLost(DoPop(s, t, ch, msgs))
  {
    LossTask(s, DoPop(s, t, ch, msgs), t);
  }

  /** A task moves on without having held anything, or holding it still. */
  lemma LossRest(s: State, s': State, t: TaskId)
    requires NothingLost(s) && t in s.tasks && s'.st.rows == s.st.rows
    requires s'.st.queue == s.st.queue && s'.st.delayed == s.st.delayed
    requires forall u :: u in s.tasks && u != t ==> u in s'.tasks && s'.tasks[u] == s.tasks[u]
    requires forall m :: Holds(s.tasks[t], m) ==> t in s'.tasks && Holds(s'.tasks[t], m)
    ensures NothingLost(s')
  {
    LossTask(s, s', t);
  }

  lemma LossMark(s: State, t: TaskId, at: Time)
    requires NothingLost(s) && CanMark(s, t, at)
    ensures NothingLost(DoMark(s, t, at))
  {
    LossRest(s, DoMark(s, t, at), t);
  }

  lemma LossSend(s: State, t: TaskId, out: Outcome)
    requires NothingLost(s) && CanSend(s, t)
    ensures NothingLost(DoSend(s, t, out))
  {
    LossRest(s, DoSend(s, t, out), t);
  }

  lemma LossBury(s: State, t: TaskId)
    requires NothingLost(s) && CanBury(s, t)
    ensures NothingLost(DoBury(s, t))
  {
    LossRest(s, DoBury(s, t), t);
  }

  lemma LossAckOne(s: State, t: TaskId)
    requires NothingLost(s) && CanAckOne(s, t)
    ensures NothingLost(DoAckOne(s, t))
  {
    LossRest(s, DoAckOne(s, t), t);
  }

  lemma LossAckAll(s: State, t: TaskId)
    requires NothingLost(s) && CanAckAll(s, t)
    ensures NothingLost(DoAckAll(s, t))
  {
    LossRest(s, DoAckAll(s, t), t);
  }

  lemma LossStepOther(s: State, a: Action)
    requires NothingLost(s) && Enabled(s, a) && !IsWork(a)
    ensures NothingLost(Next(s, a))
  {
    match a
    case Create(id, ch, p) => LossCreate(s, id, ch, p);
    case ScheduleDue(id) => LossSchedule(s, id);
    case Promote(m) => LossPromote(s, m);
    case Reclaim(ch, m) => LossReclaim(s, ch, m);
    case _ => LossStill(s, Next(s, a));
  }

  lemma LossStepWork(s: State, a: Action)
    requires NothingLost(s) && Enabled(s, a) && IsWork(a) && !a.Crash? && DelaysItsOwn(s, a)
    ensures NothingLost(Next(s, a))
  {
    match a
    case Pop(t, ch, msgs) => LossPop(s, t, ch, msgs);
    case Mark(t, at) => LossMark(s, t, at);
    case ClaimBatch(t, order) => LossClaim(s, t, order);
    case Send(t, out) => LossSend(s, t, out);
    case WriteFailure(t) => LossWriteFailure(s, t);
    case Bury(t) => LossBury(s, t);
    case Delay(t, delay) => LossDelay(s, t, delay);
    case AckOne(t) => LossAckOne(s, t);
    case RecordSent(t) => LossRecordSent(s, t);
    case AckAll(t) => LossAckAll(s, t);
  }

  lemma LossStep(s: State, a: Action)
    requires Wf(s) && NothingLost(s) && Enabled(s, a) && !a.Crash?
    ensures NothingLost(Next(s, a))
  {
    WfDelays(s, a);
    LossStepBy(s, a);
  }

  lemma LossStepBy(s: State, a: Action)
    requires NothingLost(s) && Enabled(s, a) && !a.Crash? && DelaysItsOwn(s, a)
    ensures NothingLost(Next(s, a))
  {
    if IsWork(a) { LossStepWork(s, a); } else { LossStepOther(s, a); }
  }
}
