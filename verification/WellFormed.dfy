/** Every message in Redis or in a worker's hands agrees with its row; no set holds two members for one id. */
module WellFormed {
  import opened Domain
  import opened Databases
  import opened Pipeline

  /** m is the message of its row, and the row has left its birth status. */
  predicate Agrees(rows: Table, m: Message) {
    && m.id in rows
    && m == Message(m.id, rows[m.id].channel, rows[m.id].priority, None)
    && rows[m.id].status != Pending && rows[m.id].status != Scheduled
  }

  ghost predicate SetAgrees(rows: Table, z: ZSet) {
    forall m {:trigger m in z} :: m in z ==> Agrees(rows, m)
  }

  ghost predicate ChannelAgrees(rows: Table, z: ZSet, ch: Channel) {
    forall m {:trigger m in z} :: m in z ==> Agrees(rows, m) && m.channel == ch
  }

  predicate HasId(ms: seq<Message>, id: Id) {
    exists i :: 0 <= i < |ms| && ms[i].id == id
  }

  ghost predicate BatchAgrees(rows: Table, k: Task) {
    && k.msgs != []
    && (forall i {:trigger k.msgs[i]} :: 0 <= i < |k.msgs| ==> Agrees(rows, k.msgs[i]) && k.msgs[i].channel == k.ch)
    && (forall i, j :: 0 <= i < j < |k.msgs| ==> k.msgs[i].id != k.msgs[j].id)
  }

  /** Everything a task is sending came out of its own batch. */
  ghost predicate WorkFromBatch(k: Task) {
    k.phase.Sending? ==>
      && (forall i :: 0 <= i < |k.phase.todo| ==> HasId(k.msgs, k.phase.todo[i].id))
      && (forall i :: 0 <= i < |k.phase.sent| ==> HasId(k.msgs, k.phase.sent[i].id))
      && (k.phase.cur != Idle ==> HasId(k.msgs, k.phase.cur.f.id))
  }

  ghost predicate Wf(s: State) {
    && (forall ch: Channel :: ChannelAgrees(s.st.rows, s.st.queue[ch], ch))
    && (forall ch: Channel :: ChannelAgrees(s.st.rows, s.st.processing[ch], ch))
    && SetAgrees(s.st.rows, s.st.delayed)
    && (forall t :: t in s.tasks ==> BatchAgrees(s.st.rows, s.tasks[t]) && WorkFromBatch(s.tasks[t]))
    && (forall id :: id in s.cancels ==> id in s.st.rows)
  }

  // ---- rows may change as long as identities stay and nothing falls back to its birth status ----

  ghost predicate Kept(rows: Table, rows': Table) {
    forall id :: id in rows ==>
      && id in rows'
      && rows'[id].channel == rows[id].channel && rows'[id].priority == rows[id].priority
      && (rows[id].status != Pending && rows[id].status != Scheduled ==>
            rows'[id].status != Pending && rows'[id].status != Scheduled)
  }

  lemma WfRows(s: State, s': State)
    requires Wf(s) && Kept(s.st.rows, s'.st.rows)
    requires s'.st.queue == s.st.queue && s'.st.processing == s.st.processing && s'.st.delayed == s.st.delayed
    requires s'.tasks == s.tasks
    requires forall id :: id in s'.cancels ==> id in s'.st.rows
    ensures Wf(s')
  {
  }

  lemma MsgForFinds(ms: seq<Message>, id: Id)
    requires HasId(ms, id)
    ensures MsgFor(ms, id).Some? && MsgFor(ms, id).value in ms && MsgFor(ms, id).value.id == id
  {
    if ms[|ms| - 1].id != id {
      var i :| 0 <= i < |ms| && ms[i].id == id;
      assert ms[..|ms| - 1][i].id == id;
      MsgForFinds(ms[..|ms| - 1], id);
    }
  }

  /** Adding the message of a row to its queue. */
  lemma WfEnqueue(s: State, m: Message)
    requires Wf(s) && Agrees(s.st.rows, m)
    ensures Wf(s.(st := s.st.(queue := Databases.Enqueue(s.st.queue, m, s.now))))
  {
  }

  lemma WfTask(s: State, t: TaskId, ph: Phase)
    requires Wf(s) && t in s.tasks
    requires WorkFromBatch(s.tasks[t].(phase := ph))
    ensures Wf(s.(tasks := SetPhase(s.tasks, t, ph)))
  {
  }

  lemma WfPop(s: State, t: TaskId, ch: Channel, msgs: seq<Message>)
    requires Wf(s) && CanPop(s, t, ch, msgs)
    ensures Wf(DoPop(s, t, ch, msgs))
  {
    WfPopped(s, t, ch, msgs);
    var s1 := s.(tasks := s.tasks[t := Task(ch, msgs, Popped(s.now))]);
    var s' := DoPop(s, t, ch, msgs);
    assert s' == s1.(st := s'.st);
  }

  lemma WfPopped(s: State, t: TaskId, ch: Channel, msgs: seq<Message>)
    requires Wf(s) && t !in s.tasks && msgs != [] && Pops(s.st.queue[ch], msgs)
    ensures Wf(s.(tasks := s.tasks[t := Task(ch, msgs, Popped(s.now))]))
  {
    PopsDistinct(s.st.queue[ch], msgs);
    assert ChannelAgrees(s.st.rows, s.st.queue[ch], ch);
    assert BatchAgrees(s.st.rows, Task(ch, msgs, Popped(s.now)));
  }

  lemma WfMark(s: State, t: TaskId, at: Time)
    requires Wf(s) && CanMark(s, t, at)
    ensures Wf(DoMark(s, t, at))
  {
    var s' := DoMark(s, t, at);
    var k := s.tasks[t];
    assert BatchAgrees(s.st.rows, k);
    forall m | m in s'.st.processing[k.ch] ensures Agrees(s.st.rows, m) && m.channel == k.ch {
      if m !in s.st.processing[k.ch] { assert m in k.msgs; }
    }
  }

  lemma WfClaim(s: State, t: TaskId, order: seq<Id>)
    requires Wf(s) && CanClaim(s, t, order)
    ensures Wf(DoClaim(s, t, order))
  {
    var s' := DoClaim(s, t, order);
    assert Kept(s.st.rows, s'.st.rows);
    WfRows(s, s.(st := s'.st));
    if order != [] {
      var todo := s'.tasks[t].phase.todo;
      forall i | 0 <= i < |todo| ensures HasId(s.tasks[t].msgs, todo[i].id) {
        assert order[i] in order;
        var m :| m in s.tasks[t].msgs && m.id == order[i];
      }
      WfTask(s.(st := s'.st), t, s'.tasks[t].phase);
    }
  }

  lemma WfSend(s: State, t: TaskId, out: Outcome)
    requires Wf(s) && CanSend(s, t)
    ensures Wf(DoSend(s, t, out))
  {
    var s' := DoSend(s, t, out);
    var ph, ph' := s.tasks[t].phase, s'.tasks[t].phase;
    assert WorkFromBatch(s.tasks[t]);
    assert forall i :: 0 <= i < |ph'.todo| ==> ph'.todo[i] == ph.todo[i + 1];
    WfTask(s, t, ph');
  }

  lemma WfAck(s: State, ch: Channel, ms: seq<Message>)
    requires Wf(s)
    ensures Wf(s.(st := s.st.(processing := Databases.Ack(s.st.processing, ch, ms))))
  {
  }

  lemma WfInsert(s: State, id: Id, row: Row)
    requires Wf(s) && id !in s.st.rows
    ensures Wf(DoInsert(s, id, row))
  {
    assert Kept(s.st.rows, s.st.rows[id := row]);
    WfRows(s, DoInsert(s, id, row));
  }

  lemma CreateRow(rows: Table, id: Id, row: Row)
    ensures SetStatus(rows[id := row], id, Queued) == rows[id := row.(status := Queued)]
  {
  }

  lemma WfCreate(s: State, id: Id, ch: Channel, p: Priority)
    requires Wf(s) && id !in s.st.rows
    ensures Wf(DoCreate(s, id, ch, p))
  {
    var s1 := DoInsert(s, id, NewRow(ch, p, Queued, None));
    WfInsert(s, id, NewRow(ch, p, Queued, None));
    CreateRow(s.st.rows, id, NewRow(ch, p, Pending, None));
    assert DoCreate(s, id, ch, p) == s1.(st := s1.st.(queue := Enqueue(s1.st.queue, Message(id, ch, p, None), s1.now)));
    WfEnqueue(s1, Message(id, ch, p, None));
  }

  lemma WfSchedule(s: State, id: Id)
    requires Wf(s) && CanSchedule(s, id)
    ensures Wf(DoSchedule(s, id))
  {
    var s1 := s.(st := s.st.(rows := SetStatus(s.st.rows, id, Queued)));
    WfRows(s, s1);
    var m := Message(id, s.st.rows[id].channel, s.st.rows[id].priority, None);
    WfEnqueue(s1, m);
    assert DoSchedule(s, id) == s1.(st := s1.st.(queue := Enqueue(s1.st.queue, m, s1.now)));
  }

  lemma WfCancel(s: State, id: Id)
    requires Wf(s)
    ensures Wf(DoCancel(s, id)) && Wf(DoCancel(s, id).(cancels := s.cancels - multiset{id}))
  {
    WfRows(s, DoCancel(s, id));
  }

  lemma WfPromote(s: State, m: Message)
    requires Wf(s) && Due(s.st.delayed, m, s.now)
    ensures Wf(DoPromote(s, m))
  {
    var s1 := s.(st := s.st.(delayed := s.st.delayed - {m}));
    assert Wf(s1);
    WfEnqueue(s1, m);
  }

  lemma WfReclaim(s: State, ch: Channel, m: Message)
    requires Wf(s) && Due(s.st.processing[ch], m, s.now)
    ensures Wf(DoReclaim(s, ch, m))
  {
    assert ChannelAgrees(s.st.rows, s.st.processing[ch], ch);
    WfEnqueue(s, m);
    WfAck(s.(st := s.st.(queue := Databases.Enqueue(s.st.queue, m, s.now))), ch, [m]);
  }

  lemma WfWriteFailure(s: State, t: TaskId)
    requires Wf(s) && CanWriteFailure(s, t)
    ensures Wf(DoWriteFailure(s, t))
  {
    var s' := DoWriteFailure(s, t);
    WfRows(s, s.(st := s'.st));
    assert WorkFromBatch(s.tasks[t]);
    WfTask(s.(st := s'.st), t, s'.tasks[t].phase);
  }

  lemma WfRecordSent(s: State, t: TaskId)
    requires Wf(s) && CanRecordSent(s, t)
    ensures Wf(DoRecordSent(s, t))
  {
    var s' := DoRecordSent(s, t);
    MarkSentKeeps(s.st.rows, s.tasks[t].phase.sent);
    WfRows(s, s.(st := s'.st));
    WfTask(s.(st := s'.st), t, Finishing);
  }

  lemma {:induction false} MarkSentKeeps(rows: Table, rs: seq<Receipt>)
    ensures Kept(rows, MarkSent(rows, rs))
  {
    if rs != [] { MarkSentKeeps(SetSent(rows, rs[0].id, rs[0].msgId), rs[1..]); }
  }

  lemma WfDelay(s: State, t: TaskId, delay: nat)
    requires Wf(s) && CanDelay(s, t)
    ensures Wf(DoDelay(s, t, delay))
  {
    var s' := DoDelay(s, t, delay);
    assert BatchAgrees(s.st.rows, s.tasks[t]) && WorkFromBatch(s.tasks[t]);
    MsgForFinds(s.tasks[t].msgs, s.tasks[t].phase.cur.f.id);
    var s1 := s.(st := s'.st);
    assert Wf(s1);
    WfTask(s1, t, s'.tasks[t].phase);
  }

  lemma WfAckOne(s: State, t: TaskId)
    requires Wf(s) && CanAckOne(s, t)
    ensures Wf(DoAckOne(s, t))
  {
    var s' := DoAckOne(s, t);
    assert WorkFromBatch(s.tasks[t]);
    MsgForFinds(s.tasks[t].msgs, s.tasks[t].phase.cur.f.id);
    var m := MsgFor(s.tasks[t].msgs, s.tasks[t].phase.cur.f.id).value;
    WfAck(s, m.channel, [m]);
    WfTask(s.(st := s'.st), t, s'.tasks[t].phase);
  }

  lemma WfAckAll(s: State, t: TaskId)
    requires Wf(s) && CanAckAll(s, t)
    ensures Wf(DoAckAll(s, t))
  {
    assert BatchAgrees(s.st.rows, s.tasks[t]);
    WfAck(s, s.tasks[t].msgs[0].channel, s.tasks[t].msgs);
  }

  lemma WfStepOther(s: State, a: Action)
    requires Wf(s) && Enabled(s, a)
    requires !IsWork(a)
    ensures Wf(Next(s, a))
  {
    match a
    case Create(id, ch, p) => WfCreate(s, id, ch, p);
    case CreateUnqueued(id, ch, p) => WfInsert(s, id, NewRow(ch, p, Pending, None));
    case CreateScheduled(id, ch, p, at) => WfInsert(s, id, NewRow(ch, p, Scheduled, Some(at)));
    case ScheduleDue(id) => WfSchedule(s, id);
    case CancelRead(_) =>
    case CancelWrite(id) => WfCancel(s, id);
    case CancelNow(id) => WfCancel(s, id);
    case Promote(m) => WfPromote(s, m);
    case Reclaim(ch, m) => WfReclaim(s, ch, m);
    case Tick(_) =>
  }

  lemma WfStepWork(s: State, a: Action)
    requires Wf(s) && Enabled(s, a)
    requires IsWork(a)
    ensures Wf(Next(s, a))
  {
    match a
    case Pop(t, ch, msgs) => WfPop(s, t, ch, msgs);
    case Mark(t, at) => WfMark(s, t, at);
    case ClaimBatch(t, order) => WfClaim(s, t, order);
    case Send(t, out) => WfSend(s, t, out);
    case WriteFailure(t) => WfWriteFailure(s, t);
    case Bury(t) =>
      assert WorkFromBatch(s.tasks[t]);
      WfTask(s, t, DoBury(s, t).tasks[t].phase);
    case Delay(t, delay) => WfDelay(s, t, delay);
    case AckOne(t) => WfAckOne(s, t);
    case RecordSent(t) => WfRecordSent(s, t);
    case AckAll(t) => WfAckAll(s, t);
    case Crash(t) =>
  }

  /** Every step of every actor keeps the databases well formed. */
  lemma WfStep(s: State, a: Action)
    requires Wf(s) && Enabled(s, a)
    ensures Wf(Next(s, a))
  {
    if IsWork(a) { WfStepWork(s, a); } else { WfStepOther(s, a); }
  }
}
