/** How often a notification is sent, delivered and buried, over every interleaving and crash. */
module Delivery {
  import opened Domain
  import opened Databases
  import opened Pipeline
  import opened Ownership

  predicate Fresh(st: Status) {
    Claimable(st) || st == Scheduled
  }

  /** The row keeps the count of sends while nobody owns it. */
  ghost predicate RowOk(s: State, id: Id) {
    if id !in s.st.rows then s.sends[id] == 0 && s.delivered[id] == 0
    else
      var r := s.st.rows[id];
      && s.sends[id] <= r.maxAttempts && s.delivered[id] <= 1 && r.attempts <= r.maxAttempts
      && (Fresh(r.status) ==> s.sends[id] == r.attempts < r.maxAttempts && s.delivered[id] == 0)
      && (r.status == Sent ==> s.delivered[id] == 1)
      && (r.status == Failed ==> r.attempts == r.maxAttempts && s.delivered[id] == 0)
  }

  ghost predicate TodoOk(s: State, c: Claim) {
    && c.id in s.st.rows && c == ClaimOf(s.st.rows, c.id)
    && s.sends[c.id] == c.attempts < c.maxAttempts && s.delivered[c.id] == 0
  }

  ghost predicate SentOk(s: State, id: Id) {
    id in s.st.rows && s.delivered[id] == 1 && s.st.rows[id].attempts < s.st.rows[id].maxAttempts
  }

  ghost predicate FailedOk(s: State, f: Failure) {
    && f.id in s.st.rows && s.sends[f.id] == f.attempts <= f.maxAttempts && s.delivered[f.id] == 0
    && f.attempts == s.st.rows[f.id].attempts + 1 && f.maxAttempts == s.st.rows[f.id].maxAttempts
  }

  predicate Buried(dead: seq<DeadLetter>, id: Id) {
    exists i :: 0 <= i < |dead| && dead[i].id == id
  }

  ghost predicate BuryingOk(s: State, f: Failure) {
    && f.id in s.st.rows && s.st.rows[f.id].attempts == f.attempts == s.st.rows[f.id].maxAttempts
    && !Buried(s.st.dead, f.id)
  }

  ghost predicate TaskOk(s: State, ph: Phase) {
    ph.Sending? ==>
      && (forall i :: 0 <= i < |ph.todo| ==> TodoOk(s, ph.todo[i]))
      && (forall i :: 0 <= i < |ph.sent| ==> SentOk(s, ph.sent[i].id))
      && (ph.cur.SendFailed? ==> FailedOk(s, ph.cur.f))
      && (ph.cur.Burying? ==> BuryingOk(s, ph.cur.f))
  }

  predicate Burying(ph: Phase, id: Id) {
    ph.Sending? && ph.cur.Burying? && ph.cur.f.id == id
  }

  /** Dead letters are written once, at the last attempt. */
  ghost predicate DeadOk(st: Store) {
    && (forall i :: 0 <= i < |st.dead| ==>
          st.dead[i].id in st.rows && st.dead[i].attempts == st.rows[st.dead[i].id].attempts == st.rows[st.dead[i].id].maxAttempts)
    && (forall i, j :: 0 <= i < j < |st.dead| ==> st.dead[i].id != st.dead[j].id)
  }

  ghost predicate Del(s: State) {
    && (forall id :: RowOk(s, id))
    && (forall t :: t in s.tasks ==> TaskOk(s, s.tasks[t].phase))
    && DeadOk(s.st)
    && (forall t, u, id :: t in s.tasks && u in s.tasks && Burying(s.tasks[t].phase, id) && Burying(s.tasks[u].phase, id) ==> t == u)
  }

  // ---- framing ----

  predicate Mentions(ph: Phase, id: Id) {
    Owns(ph, id) || Burying(ph, id)
  }

  /** Counters of id are the same in both states. */
  ghost predicate SameAt(s: State, s': State, id: Id) {
    && (id in s.st.rows ==>
          && id in s'.st.rows && s'.st.rows[id].channel == s.st.rows[id].channel
          && s'.st.rows[id].attempts == s.st.rows[id].attempts && s'.st.rows[id].maxAttempts == s.st.rows[id].maxAttempts)
    && s'.sends[id] == s.sends[id] && s'.delivered[id] == s.delivered[id]
    && (Buried(s'.st.dead, id) ==> Buried(s.st.dead, id))
  }

  lemma TaskOkFrame(s: State, s': State, ph: Phase)
    requires TaskOk(s, ph)
    requires forall id :: Mentions(ph, id) ==> SameAt(s, s', id)
    ensures TaskOk(s', ph)
  {
    if ph.Sending? {
      forall i | 0 <= i < |ph.todo| ensures TodoOk(s', ph.todo[i]) { assert Mentions(ph, ph.todo[i].id); }
      forall i | 0 <= i < |ph.sent| ensures SentOk(s', ph.sent[i].id) { assert Mentions(ph, ph.sent[i].id); }
      if ph.cur.SendFailed? || ph.cur.Burying? { assert Mentions(ph, ph.cur.f.id); }
    }
  }

  /** ph' has nothing to count that ph has not. */
  predicate Weaker(ph': Phase, ph: Phase) {
    ph'.Sending? ==>
      && ph.Sending? && ph'.todo == ph.todo && ph'.sent == ph.sent
      && (ph'.cur == ph.cur || !(ph'.cur.SendFailed? || ph'.cur.Burying?))
  }

  /** A step that leaves all counters alone and gives no task more to count. */
  lemma DelFrame(s: State, s': State)
    requires Del(s) && s'.st.dead == s.st.dead
    requires forall t :: t in s'.tasks ==>
      !s'.tasks[t].phase.Sending? || (t in s.tasks && Weaker(s'.tasks[t].phase, s.tasks[t].phase))
    requires forall id :: id in s.st.rows ==> SameAt(s, s', id)
    requires forall id :: RowOk(s', id)
    ensures Del(s')
  {
    forall t | t in s'.tasks && s'.tasks[t].phase.Sending? ensures TaskOk(s', s'.tasks[t].phase) {
      var ph := s.tasks[t].phase;
      forall id | Mentions(ph, id) ensures SameAt(s, s', id) { MentionsRow(s, ph, id); }
      TaskOkFrame(s, s', ph);
    }
  }

  lemma MentionsRow(s: State, ph: Phase, id: Id)
    requires TaskOk(s, ph) && Mentions(ph, id)
    ensures id in s.st.rows
  {
  }

  /** Two tasks never mention the same id. */
  lemma MentionsApart(s: State, t: TaskId, u: TaskId, id: Id)
    requires Own(s) && Del(s) && t in s.tasks && u in s.tasks && t != u
    requires Mentions(s.tasks[t].phase, id)
    ensures !Mentions(s.tasks[u].phase, id)
  {
  }

  /** One task's step on one id. */
  lemma DelOne(s: State, s': State, t: TaskId, x: Id)
    requires Own(s) && Del(s) && t in s.tasks && t in s'.tasks
    requires s'.tasks == SetPhase(s.tasks, t, s'.tasks[t].phase)
    requires Mentions(s.tasks[t].phase, x)
    requires forall id :: id != x ==> SameAt(s, s', id)
    requires forall id :: RowOk(s', id)
    requires TaskOk(s', s'.tasks[t].phase) && DeadOk(s'.st)
    requires forall id :: Burying(s'.tasks[t].phase, id) ==> Mentions(s.tasks[t].phase, id)
    ensures Del(s')
  {
    forall u | u in s'.tasks ensures TaskOk(s', s'.tasks[u].phase) {
      if u != t {
        MentionsApart(s, t, u, x);
        TaskOkFrame(s, s', s.tasks[u].phase);
      }
    }
    forall u, v, id | u in s'.tasks && v in s'.tasks && Burying(s'.tasks[u].phase, id) && Burying(s'.tasks[v].phase, id)
      ensures u == v
    {
      if u != v {
        if u == t { MentionsApart(s, t, v, id); } else if v == t { MentionsApart(s, t, u, id); }
      }
    }
  }

  // ---- the steps ----

  lemma DelInsert(s: State, id: Id, row: Row)
    requires Del(s) && id !in s.st.rows
    requires row.attempts == 0 < row.maxAttempts && Fresh(row.status)
    ensures Del(DoInsert(s, id, row))
  {
    var s' := DoInsert(s, id, row);
    forall x ensures RowOk(s', x) { assert RowOk(s, x); }
    DelFrame(s, s');
  }

  /** A status write that keeps a fresh row fresh, or takes it out of circulation. */
  lemma DelStatus(s: State, s': State, id: Id, st: Status)
    requires Del(s) && s'.tasks == s.tasks && s'.st.dead == s.st.dead && s'.sends == s.sends && s'.delivered == s.delivered
    requires s'.st.rows == SetStatus(s.st.rows, id, st)
    requires st == Cancelled || (st == Queued && id in s.st.rows && s.st.rows[id].status == Scheduled)
    ensures Del(s')
  {
    forall x ensures RowOk(s', x) { RowStatus(s, s', x, id, st); }
    DelFrame(s, s');
  }

  lemma RowStatus(s: State, s': State, x: Id, id: Id, st: Status)
    requires RowOk(s, x) && s'.sends == s.sends && s'.delivered == s.delivered
    requires s'.st.rows == SetStatus(s.st.rows, id, st)
    requires st == Cancelled || (st == Queued && id in s.st.rows && s.st.rows[id].status == Scheduled)
    ensures RowOk(s', x)
  {
  }

  /** Rows, dead letters and counters stay, and no task gets more to count. */
  ghost predicate Quiet(s: State, s': State) {
    && s'.st.rows == s.st.rows && s'.st.dead == s.st.dead && s'.sends == s.sends && s'.delivered == s.delivered
    && forall t :: t in s'.tasks ==>
         !s'.tasks[t].phase.Sending? || (t in s.tasks && Weaker(s'.tasks[t].phase, s.tasks[t].phase))
  }

  lemma DelQuiet(s: State, s': State)
    requires Del(s) && Quiet(s, s')
    ensures Del(s')
  {
    forall id ensures RowOk(s', id) { assert RowOk(s, id); }
    DelFrame(s, s');
  }

  lemma DelClaim(s: State, t: TaskId, order: seq<Id>)
    requires Del(s) && CanClaim(s, t, order)
    ensures Del(DoClaim(s, t, order))
  {
    var s' := DoClaim(s, t, order);
    var s1 := s.(st := s'.st);
    forall id ensures RowOk(s1, id) { assert RowOk(s, id); }
    DelFrame(s, s1);
    if order == [] {
      DelQuiet(s1, s');
    } else {
      ClaimedTodo(s, t, order);
      DelTask(s1, t, s'.tasks[t].phase);
      assert s' == s1.(tasks := SetPhase(s1.tasks, t, s'.tasks[t].phase));
    }
  }

  lemma ClaimedTodo(s: State, t: TaskId, order: seq<Id>)
    requires Del(s) && CanClaim(s, t, order) && order != []
    ensures TaskOk(DoClaim(s, t, order), DoClaim(s, t, order).tasks[t].phase)
  {
    var s' := DoClaim(s, t, order);
    var todo := s'.tasks[t].phase.todo;
    forall i | 0 <= i < |todo| ensures TodoOk(s', todo[i]) {
      assert order[i] in order && RowOk(s, order[i]);
      assert order[i] in Claimed(s.st.rows, Ids(s.tasks[t].msgs));
    }
  }

  /** A task takes on work that counts right. */
  lemma DelTask(s: State, t: TaskId, ph: Phase)
    requires Del(s) && t in s.tasks && TaskOk(s, ph) && forall id :: !Burying(ph, id)
    ensures Del(s.(tasks := SetPhase(s.tasks, t, ph)))
  {
    var s' := s.(tasks := SetPhase(s.tasks, t, ph));
    forall u | u in s'.tasks ensures TaskOk(s', s'.tasks[u].phase) {
      var q := if u == t then ph else s.tasks[u].phase;
      TaskOkFrame(s, s', q);
    }
    forall id ensures RowOk(s', id) { assert RowOk(s, id); }
  }

  lemma DelSend(s: State, t: TaskId, out: Outcome)
    requires Own(s) && Del(s) && CanSend(s, t)
    ensures Del(DoSend(s, t, out))
  {
    var s' := DoSend(s, t, out);
    var ph, ph' := s.tasks[t].phase, s'.tasks[t].phase;
    var x := ph.todo[0].id;
    assert Mentions(ph, x) && TodoOk(s, ph.todo[0]) && Held(s.st.rows, x);
    forall id ensures RowOk(s', id) { assert RowOk(s, id); }
    forall i | 0 <= i < |ph'.todo| ensures TodoOk(s', ph'.todo[i]) {
      assert ph'.todo[i] == ph.todo[i + 1] && TodoOk(s, ph.todo[i + 1]);
    }
    forall i | 0 <= i < |ph'.sent| ensures SentOk(s', ph'.sent[i].id) {
      if i < |ph.sent| { assert SentOk(s, ph.sent[i].id); }
    }
    assert TaskOk(s', ph');
    DelOne(s, s', t, x);
  }

  lemma DelWriteFailure(s: State, t: TaskId)
    requires Own(s) && Del(s) && CanWriteFailure(s, t)
    ensures Del(DoWriteFailure(s, t))
  {
    var s' := DoWriteFailure(s, t);
    var ph, ph' := s.tasks[t].phase, s'.tasks[t].phase;
    var x := ph.cur.f.id;
    assert Mentions(ph, x) && FailedOk(s, ph.cur.f) && Held(s.st.rows, x);
    forall id ensures RowOk(s', id) { assert RowOk(s, id); }
    forall i | 0 <= i < |ph'.todo| ensures TodoOk(s', ph'.todo[i]) {
      assert InTodo(ph.todo, ph.todo[i].id);
    }
    forall i | 0 <= i < |ph'.sent| ensures SentOk(s', ph'.sent[i].id) {
      assert InSent(ph.sent, ph.sent[i].id);
    }
    NotBuried(s, x);
    DelOne(s, s', t, x);
  }

  lemma NotBuried(s: State, x: Id)
    requires Del(s) && x in s.st.rows && s.st.rows[x].attempts < s.st.rows[x].maxAttempts
    ensures !Buried(s.st.dead, x)
  {
  }

  lemma DelBury(s: State, t: TaskId)
    requires Own(s) && Del(s) && CanBury(s, t)
    ensures Del(DoBury(s, t))
  {
    var s' := DoBury(s, t);
    var ph, ph' := s.tasks[t].phase, s'.tasks[t].phase;
    var x := ph.cur.f.id;
    assert Mentions(ph, x) && BuryingOk(s, ph.cur.f);
    forall id ensures RowOk(s', id) { assert RowOk(s, id); }
    forall id | id != x ensures SameAt(s, s', id) {
      if Buried(s'.st.dead, id) {
        var i :| 0 <= i < |s'.st.dead| && s'.st.dead[i].id == id;
        assert s.st.dead[i].id == id;
      }
    }
    assert Weaker(ph', ph);
    assert TaskOk(s', ph');
    DelOne(s, s', t, x);
  }

  lemma DelRecordSent(s: State, t: TaskId)
    requires Del(s) && CanRecordSent(s, t)
    ensures Del(DoRecordSent(s, t))
  {
    var s' := DoRecordSent(s, t);
    forall id ensures RowOk(s', id) && (id in s.st.rows ==> SameAt(s, s', id)) { RowSent(s, t, id); }
    DelFrame(s, s');
  }

  lemma RowSent(s: State, t: TaskId, id: Id)
    requires CanRecordSent(s, t) && TaskOk(s, s.tasks[t].phase) && RowOk(s, id)
    ensures RowOk(DoRecordSent(s, t), id) && (id in s.st.rows ==> SameAt(s, DoRecordSent(s, t), id))
  {
    var sent := s.tasks[t].phase.sent;
    MarkSentAt(s.st.rows, sent, id);
    if InSent(sent, id) {
      var i :| 0 <= i < |sent| && sent[i].id == id;
      assert SentOk(s, sent[i].id);
    }
  }

  lemma DelCreate(s: State, id: Id, ch: Channel, p: Priority)
    requires Del(s) && id !in s.st.rows
    ensures Del(DoCreate(s, id, ch, p))
  {
    var s1 := DoInsert(s, id, NewRow(ch, p, Queued, None));
    DelInsert(s, id, NewRow(ch, p, Queued, None));
    assert DoCreate(s, id, ch, p).st.rows == s1.st.rows;
    DelQuiet(s1, DoCreate(s, id, ch, p));
  }

  lemma DelCancel(s: State, id: Id)
    requires Del(s)
    ensures Del(DoCancel(s, id)) && Del(DoCancel(s, id).(cancels := s.cancels - multiset{id}))
  {
    DelStatus(s, DoCancel(s, id), id, Cancelled);
    DelQuiet(DoCancel(s, id), DoCancel(s, id).(cancels := s.cancels - multiset{id}));
  }

  lemma DelSchedule(s: State, id: Id)
    requires Del(s) && CanSchedule(s, id)
    ensures Del(DoSchedule(s, id))
  {
    DelStatus(s, DoSchedule(s, id), id, Queued);
  }

  lemma DelPop(s: State, t: TaskId, ch: Channel, msgs: seq<Message>)
    requires Del(s) && CanPop(s, t, ch, msgs)
    ensures Del(DoPop(s, t, ch, msgs))
  {
    DelQuiet(s, DoPop(s, t, ch, msgs));
  }

  lemma DelMark(s: State, t: TaskId, at: Time)
    requires Del(s) && CanMark(s, t, at)
    ensures Del(DoMark(s, t, at))
  {
    DelQuiet(s, DoMark(s, t, at));
  }

  lemma DelDelay(s: State, t: TaskId, delay: nat)
    requires Del(s) && CanDelay(s, t)
    ensures Del(DoDelay(s, t, delay))
  {
    DelQuiet(s, DoDelay(s, t, delay));
  }

  lemma DelAckOne(s: State, t: TaskId)
    requires Del(s) && CanAckOne(s, t)
    ensures Del(DoAckOne(s, t))
  {
    DelQuiet(s, DoAckOne(s, t));
  }

  lemma DelAckAll(s: State, t: TaskId)
    requires Del(s) && CanAckAll(s, t)
    ensures Del(DoAckAll(s, t))
  {
    DelQuiet(s, DoAckAll(s, t));
  }

  lemma DelStepOther(s: State, a: Action)
    requires Del(s) && Enabled(s, a) && !IsWork(a)
    ensures Del(Next(s, a))
  {
    match a
    case Create(id, ch, p) => DelCreate(s, id, ch, p);
    case CreateUnqueued(id, ch, p) => DelInsert(s, id, NewRow(ch, p, Pending, None));
    case CreateScheduled(id, ch, p, at) => DelInsert(s, id, NewRow(ch, p, Scheduled, Some(at)));
    case CancelWrite(id) => DelCancel(s, id);
    case CancelNow(id) => DelCancel(s, id);
    case ScheduleDue(id) => DelSchedule(s, id);
    case _ => DelQuiet(s, Next(s, a));
  }

  lemma DelStepWork(s: State, a: Action)
    requires Own(s) && Del(s) && Enabled(s, a) && IsWork(a)
    ensures Del(Next(s, a))
  {
    match a
    case Pop(t, ch, msgs) => DelPop(s, t, ch, msgs);
    case Mark(t, at) => DelMark(s, t, at);
    case ClaimBatch(t, order) => DelClaim(s, t, order);
    case Send(t, out) => DelSend(s, t, out);
    case WriteFailure(t) => DelWriteFailure(s, t);
    case Bury(t) => DelBury(s, t);
    case Delay(t, delay) => DelDelay(s, t, delay);
    case AckOne(t) => DelAckOne(s, t);
    case RecordSent(t) => DelRecordSent(s, t);
    case AckAll(t) => DelAckAll(s, t);
    case Crash(t) => DelQuiet(s, DoCrash(s, t));
  }

  lemma DelStep(s: State, a: Action)
    requires Own(s) && Del(s) && Enabled(s, a)
    ensures Del(Next(s, a))
  {
    if IsWork(a) { DelStepWork(s, a); } else { DelStepOther(s, a); }
  }
}
