/** The published status graph, one notification at a time. The UPDATEs do not check the old status; unique ownership
    makes every write follow an edge, all but the late write of a cancel. */
module StatusFlow {
  import opened Domain
  import opened Databases
  import opened Pipeline
  import opened WellFormed
  import opened Ownership

  /** README "Notification Status Flow", with the retry edge its text describes (re-queues with backoff). */
  predicate Edge(a: Status, b: Status) {
    match a
    case Pending => b == Queued || b == Scheduled || b == Cancelled
    case Scheduled => b == Queued || b == Cancelled
    case Queued => b == Processing || b == Cancelled
    case Processing => b == Sent || b == Failed || b == Queued
    case _ => false
  }

  predicate Terminal(st: Status) {
    st == Sent || st == Failed || st == Cancelled
  }

  /** Whoever owns id found it processing and nothing has changed that. */
  ghost predicate StrictAt(s: State, id: Id) {
    forall t :: t in s.tasks && Owns(s.tasks[t].phase, id) ==> id in s.st.rows && s.st.rows[id].status == Processing
  }

  predicate FollowsAt(rows: Table, rows': Table, id: Id) {
    id in rows ==> id in rows' && (rows'[id].status == rows[id].status || Edge(rows[id].status, rows'[id].status))
  }

  ghost predicate Flows(s: State, s': State, id: Id) {
    StrictAt(s', id) && FollowsAt(s.st.rows, s'.st.rows, id)
  }

  /** The write half of a cancel finds what its read half accepted, or another cancel's work. */
  predicate InTime(s: State, id: Id) {
    id in s.st.rows && (Cancellable(s.st.rows[id].status) || s.st.rows[id].status == Cancelled)
  }

  /** The late write of a cancel follows the graph exactly when it is in time. */
  lemma LateCancelFollows(s: State, id: Id)
    requires id in s.st.rows && id in s.cancels
    ensures FollowsAt(s.st.rows, Next(s, CancelWrite(id)).st.rows, id) <==> InTime(s, id)
  {
  }

  // ---- one lemma a kind of step ----

  /** A status write by the API or the scheduler. */
  lemma FlowStatus(s: State, s': State, x: Id, st: Status, id: Id)
    requires StrictAt(s, id) && s'.tasks == s.tasks && s'.st.rows == SetStatus(s.st.rows, x, st)
    requires x == id && id in s.st.rows ==>
      s.st.rows[id].status != Processing && (s.st.rows[id].status == st || Edge(s.st.rows[id].status, st))
    ensures Flows(s, s', id)
  {
  }

  lemma FlowInsert(s: State, s': State, x: Id, id: Id)
    requires StrictAt(s, id) && s'.tasks == s.tasks
    requires x !in s.st.rows && x in s'.st.rows && s'.st.rows == s.st.rows[x := s'.st.rows[x]]
    ensures Flows(s, s', id)
  {
  }

  /** Steps that change no row and make no owner. */
  lemma FlowTask(s: State, s': State, id: Id)
    requires StrictAt(s, id) && s'.st.rows == s.st.rows
    requires forall t :: t in s'.tasks && Owns(s'.tasks[t].phase, id) ==> t in s.tasks && Owns(s.tasks[t].phase, id)
    ensures Flows(s, s', id)
  {
  }

  lemma FlowPhase(s: State, s': State, t: TaskId, id: Id)
    requires StrictAt(s, id) && t in s.tasks && t in s'.tasks && s'.tasks == SetPhase(s.tasks, t, s'.tasks[t].phase)
    requires s'.st.rows == s.st.rows
    requires var ph, ph' := s.tasks[t].phase, s'.tasks[t].phase;
      ph'.Sending? ==> ph.Sending? && ph'.todo == ph.todo && ph'.sent == ph.sent && !ph'.cur.SendFailed?
    ensures Flows(s, s', id)
  {
    FlowTask(s, s', id);
  }

  lemma FlowSend(s: State, t: TaskId, out: Outcome, id: Id)
    requires Own(s) && StrictAt(s, id) && CanSend(s, t)
    ensures Flows(s, DoSend(s, t, out), id)
  {
    SendShifts(s.tasks[t].phase, out);
    FlowTask(s, DoSend(s, t, out), id);
  }

  /** The claim does not take a row that is still pending. */
  predicate ClaimsQueued(s: State, a: Action, id: Id) {
    a.ClaimBatch? && a.t in s.tasks && id in Ids(s.tasks[a.t].msgs) && id in s.st.rows ==> s.st.rows[id].status != Pending
  }

  /** A pending or scheduled row has no message anywhere. */
  lemma WfClaims(s: State, a: Action, id: Id)
    requires Wf(s)
    ensures ClaimsQueued(s, a, id)
  {
    if a.ClaimBatch? && a.t in s.tasks && id in Ids(s.tasks[a.t].msgs) {
      assert BatchAgrees(s.st.rows, s.tasks[a.t]);
      var m :| m in s.tasks[a.t].msgs && m.id == id;
      var i :| 0 <= i < |s.tasks[a.t].msgs| && s.tasks[a.t].msgs[i] == m;
    }
  }

  lemma FlowClaimRows(s: State, t: TaskId, order: seq<Id>, id: Id)
    requires CanClaim(s, t, order) && ClaimsQueued(s, ClaimBatch(t, order), id)
    ensures FollowsAt(s.st.rows, DoClaim(s, t, order).st.rows, id)
  {
  }

  lemma FlowClaim(s: State, t: TaskId, order: seq<Id>, id: Id)
    requires StrictAt(s, id) && CanClaim(s, t, order)
    ensures StrictAt(DoClaim(s, t, order), id)
  {
    var s' := DoClaim(s, t, order);
    forall u | u in s'.tasks && Owns(s'.tasks[u].phase, id) ensures id in s'.st.rows && s'.st.rows[id].status == Processing {
      if u == t {
        var i :| 0 <= i < |order| && s'.tasks[t].phase.todo[i].id == id;
        assert order[i] in order;
        assert order[i] in Claimed(s.st.rows, Ids(s.tasks[t].msgs));
      } else {
        assert Owns(s.tasks[u].phase, id);
      }
    }
  }

  lemma FlowWriteFailure(s: State, t: TaskId, id: Id)
    requires Own(s) && StrictAt(s, id) && CanWriteFailure(s, t)
    ensures Flows(s, DoWriteFailure(s, t), id)
  {
  }

  lemma FlowRecordSent(s: State, t: TaskId, id: Id)
    requires Own(s) && StrictAt(s, id) && CanRecordSent(s, t)
    ensures Flows(s, DoRecordSent(s, t), id)
  {
    var s' := DoRecordSent(s, t);
    var ph := s.tasks[t].phase;
    MarkSentAt(s.st.rows, ph.sent, id);
    if InSent(ph.sent, id) { assert Owns(ph, id); }
    forall u | u in s'.tasks && Owns(s'.tasks[u].phase, id) ensures id in s'.st.rows && s'.st.rows[id].status == Processing {
      assert u != t && Owns(s.tasks[u].phase, id);
      assert !Owns(ph, id);
    }
  }

  // ---- every step ----

  lemma FlowStepOther(s: State, a: Action, id: Id)
    requires StrictAt(s, id) && Enabled(s, a) && !IsWork(a)
    requires a == CancelWrite(id) && id in s.st.rows ==> InTime(s, id)
    ensures Flows(s, Next(s, a), id)
  {
    match a
    case Create(x, ch, p) => FlowInsert(s, DoCreate(s, x, ch, p), x, id);
    case CreateUnqueued(x, ch, p) => FlowInsert(s, Next(s, a), x, id);
    case CreateScheduled(x, ch, p, at) => FlowInsert(s, Next(s, a), x, id);
    case CancelWrite(x) => FlowStatus(s, Next(s, a), x, Cancelled, id);
    case CancelNow(x) => FlowStatus(s, DoCancel(s, x), x, Cancelled, id);
    case ScheduleDue(x) => FlowStatus(s, DoSchedule(s, x), x, Queued, id);
    case _ => FlowTask(s, Next(s, a), id);
  }

  lemma FlowStepQuiet(s: State, a: Action, id: Id)
    requires StrictAt(s, id) && Enabled(s, a)
    requires a.Pop? || a.AckAll? || a.Crash? || a.Mark? || a.Bury? || a.Delay? || a.AckOne?
    ensures Flows(s, Next(s, a), id)
  {
    match a
    case Pop(t, ch, msgs) => FlowTask(s, DoPop(s, t, ch, msgs), id);
    case AckAll(t) => FlowTask(s, DoAckAll(s, t), id);
    case Crash(t) => FlowTask(s, DoCrash(s, t), id);
    case Mark(t, at) => FlowPhase(s, DoMark(s, t, at), t, id);
    case Bury(t) => FlowPhase(s, DoBury(s, t), t, id);
    case Delay(t, delay) => FlowPhase(s, DoDelay(s, t, delay), t, id);
    case AckOne(t) => FlowPhase(s, DoAckOne(s, t), t, id);
  }

  lemma FlowStepWork(s: State, a: Action, id: Id)
    requires Own(s) && StrictAt(s, id) && Enabled(s, a) && IsWork(a) && ClaimsQueued(s, a, id)
    ensures Flows(s, Next(s, a), id)
  {
    match a
    case ClaimBatch(t, order) => FlowClaimRows(s, t, order, id); FlowClaim(s, t, order, id);
    case Send(t, out) => FlowSend(s, t, out, id);
    case WriteFailure(t) => FlowWriteFailure(s, t, id);
    case RecordSent(t) => FlowRecordSent(s, t, id);
    case _ => FlowStepQuiet(s, a, id);
  }

  /** Every step but a cancel's write that comes too late moves the status along an edge or leaves it. */
  lemma FlowStep(s: State, a: Action, id: Id)
    requires Wf(s) && Own(s) && StrictAt(s, id) && Enabled(s, a)
    requires a == CancelWrite(id) && id in s.st.rows ==> InTime(s, id)
    ensures Flows(s, Next(s, a), id)
  {
    WfClaims(s, a, id);
    FlowStepBy(s, a, id);
  }

  lemma FlowStepBy(s: State, a: Action, id: Id)
    requires Own(s) && StrictAt(s, id) && Enabled(s, a) && ClaimsQueued(s, a, id)
    requires a == CancelWrite(id) && id in s.st.rows ==> InTime(s, id)
    ensures Flows(s, Next(s, a), id)
  {
    if IsWork(a) { FlowStepWork(s, a, id); } else { FlowStepOther(s, a, id); }
  }

  /** Whatever is claimed, owners find their rows processing. */
  lemma StrictStep(s: State, a: Action, id: Id)
    requires Own(s) && StrictAt(s, id) && Enabled(s, a)
    requires a == CancelWrite(id) && id in s.st.rows ==> InTime(s, id)
    ensures StrictAt(Next(s, a), id)
  {
    if a.ClaimBatch? { FlowClaim(s, a.t, a.order, id); } else { FlowStepBy(s, a, id); }
  }
}
