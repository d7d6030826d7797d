/** A notification has at most one owner: the task between its claim and its own status write.
    The UPDATEs that write a status have no guard; the guarded claim alone keeps two tasks apart. */
module Ownership {
  import opened Domain
  import opened Databases
  import opened Pipeline

  predicate InTodo(todo: seq<Claim>, id: Id) {
    exists i :: 0 <= i < |todo| && todo[i].id == id
  }

  predicate InSent(sent: seq<Receipt>, id: Id) {
    exists i :: 0 <= i < |sent| && sent[i].id == id
  }

  /** Claimed, and neither the failure write nor the sent write has been made. */
  predicate Owns(ph: Phase, id: Id) {
    ph.Sending? && (InTodo(ph.todo, id) || InSent(ph.sent, id) || (ph.cur.SendFailed? && ph.cur.f.id == id))
  }

  /** A task owns each of its ids once. */
  ghost predicate Distinct(ph: Phase) {
    ph.Sending? ==>
      && (forall i, j :: 0 <= i < j < |ph.todo| ==> ph.todo[i].id != ph.todo[j].id)
      && (forall i, j :: 0 <= i < j < |ph.sent| ==> ph.sent[i].id != ph.sent[j].id)
      && (forall i, j :: 0 <= i < |ph.todo| && 0 <= j < |ph.sent| ==> ph.todo[i].id != ph.sent[j].id)
      && (ph.cur.SendFailed? ==> !InTodo(ph.todo, ph.cur.f.id) && !InSent(ph.sent, ph.cur.f.id))
  }

  /** The only statuses an owned row can have; the second needs a cancel that raced the claim. */
  predicate Held(rows: Table, id: Id) {
    id in rows && (rows[id].status == Processing || rows[id].status == Cancelled)
  }

  ghost predicate Own(s: State) {
    && (forall t :: t in s.tasks ==> Distinct(s.tasks[t].phase))
    && (forall t, id :: t in s.tasks && Owns(s.tasks[t].phase, id) ==> Held(s.st.rows, id))
    && (forall t, u, id :: t in s.tasks && u in s.tasks && Owns(s.tasks[t].phase, id) && Owns(s.tasks[u].phase, id) ==> t == u)
  }

  /** Rows of owned notifications stay held. */
  lemma OwnRows(s: State, s': State)
    requires Own(s) && s'.tasks == s.tasks
    requires forall t, id :: t in s.tasks && Owns(s.tasks[t].phase, id) ==> Held(s'.st.rows, id)
    ensures Own(s')
  {
  }

  /** A task that gives up ownership. */
  lemma OwnShrink(s: State, t: TaskId, ph: Phase)
    requires Own(s) && t in s.tasks && Distinct(ph)
    requires forall id :: Owns(ph, id) ==> Owns(s.tasks[t].phase, id)
    ensures Own(s.(tasks := SetPhase(s.tasks, t, ph)))
  {
  }

  lemma OwnRemove(s: State, t: TaskId)
    requires Own(s)
    ensures Own(s.(tasks := s.tasks - {t}))
  {
  }

  lemma OwnClaim(s: State, t: TaskId, order: seq<Id>)
    requires Own(s) && CanClaim(s, t, order)
    ensures Own(DoClaim(s, t, order))
  {
    var s' := DoClaim(s, t, order);
    var s1 := s.(st := s'.st);
    forall u, id | u in s.tasks && Owns(s.tasks[u].phase, id) ensures Held(s'.st.rows, id) {
      assert Held(s.st.rows, id);
    }
    OwnRows(s, s1);
    if order == [] {
      OwnRemove(s1, t);
    } else {
      var ph := s'.tasks[t].phase;
      forall id | Owns(ph, id) ensures id in order && Held(s'.st.rows, id) {
        var i :| 0 <= i < |ph.todo| && ph.todo[i].id == id;
        assert order[i] == id;
        assert id in Claimed(s.st.rows, Ids(s.tasks[t].msgs));
      }
      forall u, id | u in s.tasks && u != t && Owns(s.tasks[u].phase, id) ensures !Owns(ph, id) {
        assert Held(s.st.rows, id);
        assert id !in Claimed(s.st.rows, Ids(s.tasks[t].msgs));
      }
    }
  }

  lemma OwnSend(s: State, t: TaskId, out: Outcome)
    requires Own(s) && CanSend(s, t)
    ensures Own(DoSend(s, t, out))
  {
    var s' := DoSend(s, t, out);
    var ph, ph' := s.tasks[t].phase, s'.tasks[t].phase;
    SendShifts(ph, out);
    OwnShrink(s, t, ph');
    assert s' == s.(tasks := SetPhase(s.tasks, t, ph')).(sends := s'.sends, delivered := s'.delivered);
  }

  /** Sending moves the first id of todo to sent or to the failure in hand. */
  lemma SendShifts(ph: Phase, out: Outcome)
    requires ph.Sending? && ph.cur == Idle && ph.todo != [] && Distinct(ph)
    ensures Distinct(AfterSend(ph, out))
    ensures forall id :: Owns(AfterSend(ph, out), id) ==> Owns(ph, id)
  {
  }

  lemma OwnWriteFailure(s: State, t: TaskId)
    requires Own(s) && CanWriteFailure(s, t)
    ensures Own(DoWriteFailure(s, t))
  {
    var s' := DoWriteFailure(s, t);
    var ph, ph' := s.tasks[t].phase, s'.tasks[t].phase;
    assert Owns(ph, ph.cur.f.id);
    OwnShrink(s, t, ph');
    var s1 := s.(tasks := s'.tasks);
    forall u, id | u in s1.tasks && Owns(s1.tasks[u].phase, id) ensures Held(s'.st.rows, id) {
      assert Owns(s.tasks[u].phase, id) && Held(s.st.rows, id);
      assert u == t || !Owns(ph, id);
    }
    OwnRows(s1, s');
  }

  lemma OwnRecordSent(s: State, t: TaskId)
    requires Own(s) && CanRecordSent(s, t)
    ensures Own(DoRecordSent(s, t))
  {
    var s' := DoRecordSent(s, t);
    var ph := s.tasks[t].phase;
    OwnShrink(s, t, Finishing);
    var s1 := s.(tasks := s'.tasks);
    forall u, id | u in s1.tasks && Owns(s1.tasks[u].phase, id) ensures Held(s'.st.rows, id) {
      assert Owns(s.tasks[u].phase, id);
      assert u != t && !Owns(ph, id);
      assert Held(s.st.rows, id) && !InSent(ph.sent, id);
      MarkSentAt(s.st.rows, ph.sent, id);
    }
    OwnRows(s1, s');
  }

  /** Steps that touch no task: a held row is not inserted again, not scheduled, and may only be cancelled. */
  lemma OwnInsert(s: State, id: Id, row: Row)
    requires Own(s) && id !in s.st.rows
    ensures Own(DoInsert(s, id, row))
  {
    forall t, x | t in s.tasks && Owns(s.tasks[t].phase, x) ensures Held(s.st.rows[id := row], x) {
      assert Held(s.st.rows, x);
    }
    OwnRows(s, DoInsert(s, id, row));
  }

  lemma OwnStatus(s: State, s': State, id: Id, st: Status)
    requires Own(s) && s'.tasks == s.tasks && s'.st.rows == SetStatus(s.st.rows, id, st)
    requires st == Cancelled || !Held(s.st.rows, id)
    ensures Own(s')
  {
    forall t, x | t in s.tasks && Owns(s.tasks[t].phase, x) ensures Held(s'.st.rows, x) {
      assert Held(s.st.rows, x);
    }
    OwnRows(s, s');
  }

  /** A task moves within a phase that owns nothing more than before. */
  lemma OwnPhase(s: State, s': State, t: TaskId)
    requires Own(s) && t in s.tasks && t in s'.tasks && s'.tasks == SetPhase(s.tasks, t, s'.tasks[t].phase)
    requires s'.st.rows == s.st.rows
    requires var ph, ph' := s.tasks[t].phase, s'.tasks[t].phase;
      ph'.Sending? ==> ph.Sending? && ph'.todo == ph.todo && ph'.sent == ph.sent && !ph'.cur.SendFailed?
    ensures Own(s')
  {
    OwnShrink(s, t, s'.tasks[t].phase);
    OwnRows(s.(tasks := s'.tasks), s');
  }

  lemma OwnCreate(s: State, id: Id, ch: Channel, p: Priority)
    requires Own(s) && id !in s.st.rows
    ensures Own(DoCreate(s, id, ch, p))
  {
    var s1 := DoInsert(s, id, NewRow(ch, p, Queued, None));
    OwnInsert(s, id, NewRow(ch, p, Queued, None));
    assert DoCreate(s, id, ch, p).st.rows == s1.st.rows;
    OwnRows(s1, DoCreate(s, id, ch, p));
  }

  lemma OwnCancel(s: State, id: Id)
    requires Own(s)
    ensures Own(DoCancel(s, id)) && Own(DoCancel(s, id).(cancels := s.cancels - multiset{id}))
  {
    OwnStatus(s, DoCancel(s, id), id, Cancelled);
  }

  lemma OwnSchedule(s: State, id: Id)
    requires Own(s) && CanSchedule(s, id)
    ensures Own(DoSchedule(s, id))
  {
    OwnStatus(s, DoSchedule(s, id), id, Queued);
  }

  /** Steps of neither tasks nor rows. */
  lemma OwnStill(s: State, s': State)
    requires Own(s) && s'.tasks == s.tasks && s'.st.rows == s.st.rows
    ensures Own(s')
  {
  }

  lemma OwnPop(s: State, t: TaskId, ch: Channel, msgs: seq<Message>)
    requires Own(s) && CanPop(s, t, ch, msgs)
    ensures Own(DoPop(s, t, ch, msgs))
  {
  }

  lemma OwnAckAll(s: State, t: TaskId)
    requires Own(s) && CanAckAll(s, t)
    ensures Own(DoAckAll(s, t))
  {
    OwnRemove(s, t);
    OwnStill(s.(tasks := s.tasks - {t}), DoAckAll(s, t));
  }

  lemma OwnStepOther(s: State, a: Action)
    requires Own(s) && Enabled(s, a) && !IsWork(a)
    ensures Own(Next(s, a))
  {
    match a
    case Create(id, ch, p) => OwnCreate(s, id, ch, p);
    case CreateUnqueued(id, ch, p) => OwnInsert(s, id, NewRow(ch, p, Pending, None));
    case CreateScheduled(id, ch, p, at) => OwnInsert(s, id, NewRow(ch, p, Scheduled, Some(at)));
    case CancelWrite(id) => OwnCancel(s, id);
    case CancelNow(id) => OwnCancel(s, id);
    case ScheduleDue(id) => OwnSchedule(s, id);
    case _ => OwnStill(s, Next(s, a));
  }

  lemma OwnStepWork(s: State, a: Action)
    requires Own(s) && Enabled(s, a) && IsWork(a)
    ensures Own(Next(s, a))
  {
    match a
    case Pop(t, ch, msgs) => OwnPop(s, t, ch, msgs);
    case Mark(t, at) => OwnPhase(s, DoMark(s, t, at), t);
    case ClaimBatch(t, order) => OwnClaim(s, t, order);
    case Send(t, out) => OwnSend(s, t, out);
    case WriteFailure(t) => OwnWriteFailure(s, t);
    case Bury(t) => OwnPhase(s, DoBury(s, t), t);
    case Delay(t, delay) => OwnPhase(s, DoDelay(s, t, delay), t);
    case AckOne(t) => OwnPhase(s, DoAckOne(s, t), t);
    case RecordSent(t) => OwnRecordSent(s, t);
    case AckAll(t) => OwnAckAll(s, t);
    case Crash(t) => OwnRemove(s, t);
  }

  lemma OwnStep(s: State, a: Action)
    requires Own(s) && Enabled(s, a)
    ensures Own(Next(s, a))
  {
    if IsWork(a) { OwnStepWork(s, a); } else { OwnStepOther(s, a); }
  }
}
