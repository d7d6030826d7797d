/** What becomes of messages when the pairs of calls are taken apart: no crash is needed to lose one. Says which moves
    lose a queued notification, exactly, and what it takes that none does. */
module GrainMessages {
  import opened Domain
  import opened Databases
  import opened Pipeline
  import opened WellFormed
  import opened NoLoss
  import opened Grain
  import opened Recovery
  import opened Runs
  import Float64

  // ---- every message is its row's, although the row may still be pending or scheduled ----

  predicate IsOf(rows: Table, m: Message) {
    m.id in rows && m == MsgOf(rows, m.id)
  }

  ghost predicate NamedSet(rows: Table, z: ZSet) {
    forall m :: m in z ==> IsOf(rows, m)
  }

  ghost predicate NamedTask(rows: Table, k: Task) {
    (forall m :: m in k.msgs ==> IsOf(rows, m)) && WorkFromBatch(k)
  }

  ghost predicate Named(s: State) {
    && (forall ch: Channel :: NamedSet(s.st.rows, s.st.queue[ch]))
    && (forall ch: Channel :: NamedSet(s.st.rows, s.st.processing[ch]))
    && NamedSet(s.st.rows, s.st.delayed)
    && forall t :: t in s.tasks ==> NamedTask(s.st.rows, s.tasks[t])
  }

  ghost predicate NamesStay(rows: Table, rows': Table) {
    forall id :: id in rows ==> id in rows' && MsgOf(rows', id) == MsgOf(rows, id)
  }

  lemma NamedOf(rows: Table, rows': Table, z: ZSet, z': ZSet)
    requires NamedSet(rows, z) && NamesStay(rows, rows')
    requires forall m :: m in z' ==> m in z || IsOf(rows', m)
    ensures NamedSet(rows', z')
  {
  }

  /** Tasks stay, and the queues may get messages of rows. */
  lemma NamedSets(s: State, s': State)
    requires Named(s) && NamesStay(s.st.rows, s'.st.rows) && s'.tasks == s.tasks
    requires forall ch: Channel, m :: m in s'.st.queue[ch] ==> m in s.st.queue[ch] || IsOf(s'.st.rows, m)
    requires forall ch: Channel, m :: m in s'.st.processing[ch] ==> m in s.st.processing[ch]
    requires forall m :: m in s'.st.delayed ==> m in s.st.delayed
    ensures Named(s')
  {
    forall ch: Channel ensures NamedSet(s'.st.rows, s'.st.queue[ch]) && NamedSet(s'.st.rows, s'.st.processing[ch]) {
      NamedOf(s.st.rows, s'.st.rows, s.st.queue[ch], s'.st.queue[ch]);
      NamedOf(s.st.rows, s'.st.rows, s.st.processing[ch], s'.st.processing[ch]);
    }
  }

  /** One task's step. */
  lemma NamedByTask(s: State, s': State, t: TaskId)
    requires Named(s) && NamesStay(s.st.rows, s'.st.rows)
    requires forall ch: Channel, m :: m in s'.st.queue[ch] ==> m in s.st.queue[ch]
    requires forall ch: Channel, m :: m in s'.st.processing[ch] ==> m in s.st.processing[ch] || IsOf(s'.st.rows, m)
    requires forall m :: m in s'.st.delayed ==> m in s.st.delayed || IsOf(s'.st.rows, m)
    requires forall u :: u in s'.tasks && u != t ==> u in s.tasks && s'.tasks[u] == s.tasks[u]
    requires t in s'.tasks ==> NamedTask(s.st.rows, s'.tasks[t])
    ensures Named(s')
  {
    forall ch: Channel ensures NamedSet(s'.st.rows, s'.st.queue[ch]) && NamedSet(s'.st.rows, s'.st.processing[ch]) {
      NamedOf(s.st.rows, s'.st.rows, s.st.queue[ch], s'.st.queue[ch]);
      NamedOf(s.st.rows, s'.st.rows, s.st.processing[ch], s'.st.processing[ch]);
    }
    NamedOf(s.st.rows, s'.st.rows, s.st.delayed, s'.st.delayed);
  }

  lemma NamedBatch(s: State, ch: Channel, msgs: seq<Message>)
    requires Named(s) && Pops(s.st.queue[ch], msgs)
    ensures NamedTask(s.st.rows, Task(ch, msgs, Popped(s.now)))
  {
    PopsDistinct(s.st.queue[ch], msgs);
    assert NamedSet(s.st.rows, s.st.queue[ch]);
  }

  lemma NamedPop(s: State, t: TaskId, ch: Channel, msgs: seq<Message>)
    requires Named(s) && CanPop(s, t, ch, msgs)
    ensures Named(DoPop(s, t, ch, msgs))
  {
    NamedBatch(s, ch, msgs);
    NamedByTask(s, DoPop(s, t, ch, msgs), t);
  }

  lemma NamedClaim(s: State, t: TaskId, order: seq<Id>)
    requires Named(s) && CanClaim(s, t, order)
    ensures Named(DoClaim(s, t, order))
  {
    var s' := DoClaim(s, t, order);
    if order != [] {
      var todo := s'.tasks[t].phase.todo;
      forall i | 0 <= i < |todo| ensures HasId(s.tasks[t].msgs, todo[i].id) {
        assert order[i] in order;
        var m :| m in s.tasks[t].msgs && m.id == order[i];
        var j :| 0 <= j < |s.tasks[t].msgs| && s.tasks[t].msgs[j] == m;
      }
    }
    NamedByTask(s, s', t);
  }

  lemma NamedSend(s: State, t: TaskId, out: Outcome)
    requires Named(s) && CanSend(s, t)
    ensures Named(DoSend(s, t, out))
  {
    var ph, ph' := s.tasks[t].phase, DoSend(s, t, out).tasks[t].phase;
    assert NamedTask(s.st.rows, s.tasks[t]);
    assert forall i :: 0 <= i < |ph'.todo| ==> ph'.todo[i] == ph.todo[i + 1];
    NamedByTask(s, DoSend(s, t, out), t);
  }

  lemma NamedDelay(s: State, t: TaskId, delay: nat)
    requires Named(s) && CanDelay(s, t)
    ensures Named(DoDelay(s, t, delay)) && DelaysItsOwn(s, Delay(t, delay))
  {
    assert NamedTask(s.st.rows, s.tasks[t]);
    MsgForFinds(s.tasks[t].msgs, s.tasks[t].phase.cur.f.id);
    NamedByTask(s, DoDelay(s, t, delay), t);
  }

  lemma NamedRecordSent(s: State, t: TaskId)
    requires Named(s) && CanRecordSent(s, t)
    ensures Named(DoRecordSent(s, t))
  {
    var s' := DoRecordSent(s, t);
    forall id | id in s.st.rows ensures id in s'.st.rows && MsgOf(s'.st.rows, id) == MsgOf(s.st.rows, id) {
      MarkSentAt(s.st.rows, s.tasks[t].phase.sent, id);
    }
    assert NamedTask(s.st.rows, s.tasks[t]);
    NamedByTask(s, s', t);
  }

  lemma NamedMark(s: State, t: TaskId, at: Time)
    requires Named(s) && CanMark(s, t, at)
    ensures Named(DoMark(s, t, at))
  {
    assert NamedTask(s.st.rows, s.tasks[t]);
    NamedByTask(s, DoMark(s, t, at), t);
  }

  lemma NamedWriteFailure(s: State, t: TaskId)
    requires Named(s) && CanWriteFailure(s, t)
    ensures Named(DoWriteFailure(s, t))
  {
    assert NamedTask(s.st.rows, s.tasks[t]);
    NamedByTask(s, DoWriteFailure(s, t), t);
  }

  lemma NamedPhase(s: State, t: TaskId, ph: Phase)
    requires Named(s) && t in s.tasks && s.tasks[t].phase.Sending?
    requires ph.Sending? && ph.todo == s.tasks[t].phase.todo && ph.sent == s.tasks[t].phase.sent && ph.cur == Idle
    ensures NamedTask(s.st.rows, s.tasks[t].(phase := ph))
  {
    assert NamedTask(s.st.rows, s.tasks[t]);
  }

  lemma NamedBury(s: State, t: TaskId)
    requires Named(s) && CanBury(s, t)
    ensures Named(DoBury(s, t))
  {
    assert NamedTask(s.st.rows, s.tasks[t]);
    NamedByTask(s, DoBury(s, t), t);
  }

  lemma NamedAckOne(s: State, t: TaskId)
    requires Named(s) && CanAckOne(s, t)
    ensures Named(DoAckOne(s, t))
  {
    NamedPhase(s, t, DoAckOne(s, t).tasks[t].phase);
    NamedByTask(s, DoAckOne(s, t), t);
  }

  lemma NamedAckAll(s: State, t: TaskId)
    requires Named(s) && CanAckAll(s, t)
    ensures Named(DoAckAll(s, t))
  {
    NamedByTask(s, DoAckAll(s, t), t);
  }

  lemma NamedCrash(s: State, t: TaskId)
    requires Named(s) && t in s.tasks
    ensures Named(DoCrash(s, t))
  {
    NamedByTask(s, DoCrash(s, t), t);
  }

  lemma NamedWork(s: State, a: Action)
    requires Named(s) && Enabled(s, a) && IsWork(a)
    ensures Named(Next(s, a))
  {
    match a
    case Pop(t, ch, msgs) => NamedPop(s, t, ch, msgs);
    case ClaimBatch(t, order) => NamedClaim(s, t, order);
    case Send(t, out) => NamedSend(s, t, out);
    case Delay(t, delay) => NamedDelay(s, t, delay);
    case RecordSent(t) => NamedRecordSent(s, t);
    case Mark(t, at) => NamedMark(s, t, at);
    case WriteFailure(t) => NamedWriteFailure(s, t);
    case Bury(t) => NamedBury(s, t);
    case AckOne(t) => NamedAckOne(s, t);
    case AckAll(t) => NamedAckAll(s, t);
    case Crash(t) => NamedCrash(s, t);
  }

  lemma NamedOther(s: State, a: Action)
    requires Named(s) && Enabled(s, a) && !IsWork(a)
    ensures Named(Next(s, a))
  {
    match a
    case Create(id, ch, p) => NamedCreate(s, id, ch, p);
    case ScheduleDue(id) => NamedSchedule(s, id);
    case Promote(m) => NamedPromote(s, m);
    case Reclaim(ch, m) => NamedReclaim(s, ch, m);
    case _ => NamedStill(s, a);
  }

  lemma NamedCreate(s: State, id: Id, ch: Channel, p: Priority)
    requires Named(s) && id !in s.st.rows
    ensures Named(DoCreate(s, id, ch, p))
  {
    NamedPut(s, DoCreate(s, id, ch, p), Message(id, ch, p, None));
  }

  lemma NamedPut(s: State, s': State, m: Message)
    requires Named(s) && NamesStay(s.st.rows, s'.st.rows) && s'.tasks == s.tasks && IsOf(s'.st.rows, m)
    requires s'.st.queue == Enqueue(s.st.queue, m, s.now)
    requires s'.st.processing == s.st.processing && s'.st.delayed == s.st.delayed
    ensures Named(s')
  {
    NamedSets(s, s');
  }

  lemma NamedSchedule(s: State, id: Id)
    requires Named(s) && CanSchedule(s, id)
    ensures Named(DoSchedule(s, id))
  {
    NamedPut(s, DoSchedule(s, id), MsgOf(s.st.rows, id));
  }

  lemma NamedPromote(s: State, m: Message)
    requires Named(s) && m in s.st.delayed
    ensures Named(DoPromote(s, m))
  {
    NamedSets(s, DoPromote(s, m));
  }

  lemma NamedReclaim(s: State, ch: Channel, m: Message)
    requires Named(s) && m in s.st.processing[ch]
    ensures Named(DoReclaim(s, ch, m))
  {
    assert NamedSet(s.st.rows, s.st.processing[ch]);
    NamedSets(s, DoReclaim(s, ch, m));
  }

  lemma NamedStill(s: State, a: Action)
    requires Named(s) && Enabled(s, a) && !IsWork(a) && !(a.Create? || a.ScheduleDue? || a.Promote? || a.Reclaim?)
    ensures Named(Next(s, a))
  {
    NamedSets(s, Next(s, a));
  }

  lemma NamedHalf(f: Fine, mv: Move)
    requires Named(f.s) && Can(f, mv) && !mv.Step?
    ensures Named(Do(f, mv).s)
  {
    match mv
    case Insert(id, ch, p) => NamedSets(f.s, DoInsert(f.s, id, NewRow(ch, p, Pending, None)));
    case ReadDue(_) =>
    case Add(id) => NamedSets(f.s, Queue(f.s, MsgOf(f.s.st.rows, id)));
    case WriteQueued(id) => NamedSets(f.s, Write(f.s, id));
    case PromoteAdd(m) => NamedSets(f.s, Queue(f.s, m));
    case PromoteRemove(seen) => NamedSets(f.s, Undelay(f.s, seen.m));
    case ReclaimAdd(m) =>
      assert NamedSet(f.s.st.rows, f.s.st.processing[m.channel]);
      NamedSets(f.s, Queue(f.s, m));
    case ReclaimRemove(m) => NamedSets(f.s, Unprocess(f.s, m));
  }

  lemma NamedMove(f: Fine, mv: Move)
    requires Named(f.s) && Can(f, mv)
    ensures Named(Do(f, mv).s)
  {
    if mv.Step? {
      if IsWork(mv.a) { NamedWork(f.s, mv.a); } else { NamedOther(f.s, mv.a); }
    } else {
      NamedHalf(f, mv);
    }
  }

  lemma {:induction false} FineNamed(fs: seq<Fine>, moves: seq<Move>, i: nat)
    requires FineRun(fs, moves) && i < |fs|
    ensures Named(fs[i].s)
  {
    if i > 0 {
      FineNamed(fs, moves, i - 1);
      assert fs[i - 1 + 1] == Do(fs[i - 1], moves[i - 1]);
      NamedMove(fs[i - 1], moves[i - 1]);
    }
  }

  // ---- which moves lose a message ----

  /** In its queue or in somebody's hands, not only among the delayed. */
  ghost predicate InHand(s: State, m: Message) {
    m in s.st.queue[m.channel] || exists t :: t in s.tasks && Holds(s.tasks[t], m)
  }

  ghost predicate CarriedBesides(s: State, t: TaskId, m: Message) {
    m in s.st.queue[m.channel] || m in s.st.delayed || exists u :: u in s.tasks && u != t && Holds(s.tasks[u], m)
  }

  /** A crash of the only one who holds a queued message, a write of queued whose message nobody has any more, and a
      ZREM that deletes the only entry of a queued message. */
  ghost predicate Loses(f: Fine, mv: Move) {
    match mv
    case Step(a) => a.Crash? && exists id :: IsQueued(f.s.st.rows, id) && !CarriedBesides(f.s, a.t, MsgOf(f.s.st.rows, id))
    case WriteQueued(id) => id in f.s.st.rows && !Carried(f.s, MsgOf(f.s.st.rows, id))
    case PromoteRemove(seen) =>
      IsQueued(f.s.st.rows, seen.m.id) && seen.m == MsgOf(f.s.st.rows, seen.m.id) && !InHand(f.s, seen.m)
    case _ => false
  }

  lemma CrashLoses(s: State, t: TaskId)
    requires NothingLost(s)
    ensures NothingLost(DoCrash(s, t)) <==> forall id :: IsQueued(s.st.rows, id) ==> CarriedBesides(s, t, MsgOf(s.st.rows, id))
  {
    forall id | IsQueued(s.st.rows, id)
      ensures Carried(DoCrash(s, t), MsgOf(s.st.rows, id)) <==> CarriedBesides(s, t, MsgOf(s.st.rows, id))
    {
      CrashCarries(s, t, MsgOf(s.st.rows, id));
    }
  }

  lemma CrashCarries(s: State, t: TaskId, m: Message)
    ensures Carried(DoCrash(s, t), m) <==> CarriedBesides(s, t, m)
  {
    var s' := DoCrash(s, t);
    if u :| u in s'.tasks && Holds(s'.tasks[u], m) { assert u in s.tasks && u != t; }
    if u :| u in s.tasks && u != t && Holds(s.tasks[u], m) { assert u in s'.tasks && Holds(s'.tasks[u], m); }
  }

  lemma WriteLoses(s: State, id: Id)
    requires NothingLost(s)
    ensures NothingLost(Write(s, id)) <==> (id in s.st.rows ==> Carried(s, MsgOf(s.st.rows, id)))
  {
    var s' := Write(s, id);
    forall m: Message ensures Carried(s', m) <==> Carried(s, m) { }
    if id in s.st.rows { assert IsQueued(s'.st.rows, id) && MsgOf(s'.st.rows, id) == MsgOf(s.st.rows, id); }
    if id in s.st.rows ==> Carried(s, MsgOf(s.st.rows, id)) {
      forall x | IsQueued(s'.st.rows, x) ensures Carried(s', MsgOf(s'.st.rows, x)) { assert x == id || IsQueued(s.st.rows, x); }
    }
  }

  lemma RemoveLoses(s: State, m: Message)
    requires NothingLost(s)
    ensures NothingLost(Undelay(s, m)) <==>
      (IsQueued(s.st.rows, m.id) && m == MsgOf(s.st.rows, m.id) ==> InHand(s, m))
  {
    var s' := Undelay(s, m);
    forall o: Message ensures Carried(s', o) <==> (if o == m then InHand(s, m) else Carried(s, o)) { }
    if IsQueued(s.st.rows, m.id) && m == MsgOf(s.st.rows, m.id) { assert IsQueued(s'.st.rows, m.id); }
  }

  lemma LosesExactly(f: Fine, mv: Move)
    requires Named(f.s) && NothingLost(f.s) && Can(f, mv)
    ensures NothingLost(Do(f, mv).s) <==> !Loses(f, mv)
  {
    match mv
    case Step(a) =>
      if a.Crash? {
        CrashLoses(f.s, a.t);
      } else {
        if a.Delay? { NamedDelay(f.s, a.t, a.delay); }
        LossStepBy(f.s, a);
      }
    case Insert(id, ch, p) => LossStill(f.s, DoInsert(f.s, id, NewRow(ch, p, Pending, None)));
    case ReadDue(_) =>
    case Add(id) => LossGrows(f.s, Queue(f.s, MsgOf(f.s.st.rows, id)));
    case WriteQueued(id) => WriteLoses(f.s, id);
    case PromoteAdd(m) => LossGrows(f.s, Queue(f.s, m));
    case PromoteRemove(seen) => RemoveLoses(f.s, seen.m);
    case ReclaimAdd(m) => LossGrows(f.s, Queue(f.s, m));
    case ReclaimRemove(m) => LossStill(f.s, Unprocess(f.s, m));
  }

  ghost predicate NeverLoses(fs: seq<Fine>, moves: seq<Move>)
    requires |fs| > |moves|
  {
    forall k {:trigger moves[k]} :: 0 <= k < |moves| ==> !Loses(fs[k], moves[k])
  }

  lemma LossNext(fs: seq<Fine>, moves: seq<Move>, k: nat)
    requires FineRun(fs, moves) && k < |moves| && NothingLost(fs[k].s)
    ensures NothingLost(fs[k + 1].s) <==> !Loses(fs[k], moves[k])
  {
    FineNamed(fs, moves, k);
    LosesExactly(fs[k], moves[k]);
  }

  /** What is not lost at one index is not lost at the next. */
  ghost predicate Passes(fs: seq<Fine>, k: nat)
    requires k + 1 < |fs|
  {
    NothingLost(fs[k].s) ==> NothingLost(fs[k + 1].s)
  }

  lemma {:induction false} PassesOn(fs: seq<Fine>, i: nat)
    requires i < |fs| && NothingLost(fs[0].s) && forall k: nat :: k + 1 < |fs| ==> Passes(fs, k)
    ensures NothingLost(fs[i].s)
  {
    if i > 0 {
      PassesOn(fs, i - 1);
      assert Passes(fs, i - 1);
    }
  }

  lemma NothingLostUpTo(fs: seq<Fine>, moves: seq<Move>, i: nat)
    requires FineRun(fs, moves) && i < |fs| && NeverLoses(fs, moves)
    ensures NothingLost(fs[i].s)
  {
    forall k: nat | k + 1 < |fs| ensures Passes(fs, k) { LossPasses(fs, moves, k); }
    PassesOn(fs, i);
  }

  lemma LossPasses(fs: seq<Fine>, moves: seq<Move>, k: nat)
    requires FineRun(fs, moves) && k < |moves| && NeverLoses(fs, moves)
    ensures Passes(fs, k)
  {
    assert !Loses(fs[k], moves[k]);
    if NothingLost(fs[k].s) { LossNext(fs, moves, k); }
  }

  /** A run keeps every queued notification's message in its queue, among the delayed or in somebody's hands, if and only
      if none of its moves is one of those three. */
  lemma NothingLostExactly(fs: seq<Fine>, moves: seq<Move>)
    requires FineRun(fs, moves)
    ensures (forall i :: 0 <= i < |fs| ==> NothingLost(fs[i].s)) <==> NeverLoses(fs, moves)
  {
    if NeverLoses(fs, moves) {
      forall i | 0 <= i < |fs| ensures NothingLost(fs[i].s) { NothingLostUpTo(fs, moves, i); }
    }
    if forall i :: 0 <= i < |fs| ==> NothingLost(fs[i].s) {
      forall k | 0 <= k < |moves| ensures !Loses(fs[k], moves[k]) { LossNext(fs, moves, k); }
    }
  }

  // ---- what it takes that no ZREM does ----

  /** If the notification is queued, somebody has its message besides the delayed set. */
  ghost predicate Spare(s: State, m: Message) {
    IsQueued(s.st.rows, m.id) && m == MsgOf(s.st.rows, m.id) ==> InHand(s, m)
  }

  ghost predicate NotNewlyQueued(s: State, s': State, m: Message) {
    IsQueued(s'.st.rows, m.id) && m == MsgOf(s'.st.rows, m.id) ==> IsQueued(s.st.rows, m.id) && m == MsgOf(s.st.rows, m.id)
  }

  lemma SpareStill(s: State, s': State, m: Message)
    requires Spare(s, m) && NotNewlyQueued(s, s', m)
    requires m in s.st.queue[m.channel] ==> m in s'.st.queue[m.channel]
    requires forall u :: u in s.tasks ==> u in s'.tasks && s'.tasks[u] == s.tasks[u]
    ensures Spare(s', m)
  {
    if u :| u in s.tasks && Holds(s.tasks[u], m) { assert u in s'.tasks && Holds(s'.tasks[u], m); }
  }

  lemma SpareByTask(s: State, s': State, t: TaskId, m: Message)
    requires Spare(s, m) && NotNewlyQueued(s, s', m)
    requires forall u :: u in s.tasks && u != t ==> u in s'.tasks && s'.tasks[u] == s.tasks[u]
    requires m in s.st.queue[m.channel] ==> InHand(s', m)
    requires IsQueued(s'.st.rows, m.id) && m == MsgOf(s'.st.rows, m.id) && t in s.tasks && Holds(s.tasks[t], m) ==> InHand(s', m)
    ensures Spare(s', m)
  {
    if u :| u in s.tasks && u != t && Holds(s.tasks[u], m) { assert u in s'.tasks && Holds(s'.tasks[u], m); }
  }

  lemma SparePop(s: State, t: TaskId, ch: Channel, msgs: seq<Message>, m: Message)
    requires Spare(s, m) && CanPop(s, t, ch, msgs)
    ensures Spare(DoPop(s, t, ch, msgs), m)
  {
    var s' := DoPop(s, t, ch, msgs);
    if m in msgs { assert t in s'.tasks && Holds(s'.tasks[t], m); }
    SpareByTask(s, s', t, m);
  }

  lemma SpareClaim(s: State, t: TaskId, order: seq<Id>, m: Message)
    requires Spare(s, m) && CanClaim(s, t, order)
    ensures Spare(DoClaim(s, t, order), m)
  {
    if IsQueued(DoClaim(s, t, order).st.rows, m.id) { assert m.id !in Ids(s.tasks[t].msgs) && m !in s.tasks[t].msgs; }
    SpareByTask(s, DoClaim(s, t, order), t, m);
  }

  lemma SpareWriteFailure(s: State, t: TaskId, m: Message)
    requires Spare(s, m) && CanWriteFailure(s, t)
    ensures Spare(DoWriteFailure(s, t), m)
  {
    var s', f := DoWriteFailure(s, t), s.tasks[t].phase.cur.f;
    if m.id == f.id && !LastAttempt(f) {
      assert t in s'.tasks && Holds(s'.tasks[t], m);
    } else {
      SpareByTask(s, s', t, m);
    }
  }

  lemma SpareDelay(s: State, t: TaskId, delay: nat, m: Message)
    requires Spare(s, m) && CanDelay(s, t) && DelaysItsOwn(s, Delay(t, delay)) && MsgFor(s.tasks[t].msgs, s.tasks[t].phase.cur.f.id) != Some(m)
    ensures Spare(DoDelay(s, t, delay), m)
  {
    SpareByTask(s, DoDelay(s, t, delay), t, m);
  }

  lemma SpareRecordSent(s: State, t: TaskId, m: Message)
    requires Spare(s, m) && CanRecordSent(s, t)
    ensures Spare(DoRecordSent(s, t), m)
  {
    MarkSentAt(s.st.rows, s.tasks[t].phase.sent, m.id);
    SpareByTask(s, DoRecordSent(s, t), t, m);
  }

  /** Tasks that hold what they held. */
  lemma SpareHolding(s: State, a: Action, m: Message)
    requires Spare(s, m) && Enabled(s, a) && (a.Mark? || a.Send? || a.Bury? || a.AckOne? || a.AckAll?)
    ensures Spare(Next(s, a), m)
  {
    match a
    case Mark(t, at) => SpareMark(s, t, at, m);
    case Send(t, out) => SpareSend(s, t, out, m);
    case Bury(t) => SpareBury(s, t, m);
    case AckOne(t) => SpareAckOne(s, t, m);
    case AckAll(t) => SpareAckAll(s, t, m);
  }

  lemma SpareAckOne(s: State, t: TaskId, m: Message)
    requires Spare(s, m) && CanAckOne(s, t)
    ensures Spare(DoAckOne(s, t), m)
  {
    SpareByTask(s, DoAckOne(s, t), t, m);
  }

  lemma SpareAckAll(s: State, t: TaskId, m: Message)
    requires Spare(s, m) && CanAckAll(s, t)
    ensures Spare(DoAckAll(s, t), m)
  {
    SpareByTask(s, DoAckAll(s, t), t, m);
  }

  lemma SpareBury(s: State, t: TaskId, m: Message)
    requires Spare(s, m) && CanBury(s, t)
    ensures Spare(DoBury(s, t), m)
  {
    SpareByTask(s, DoBury(s, t), t, m);
  }

  lemma SpareSend(s: State, t: TaskId, out: Outcome, m: Message)
    requires Spare(s, m) && CanSend(s, t)
    ensures Spare(DoSend(s, t, out), m)
  {
    SpareByTask(s, DoSend(s, t, out), t, m);
  }

  lemma SpareMark(s: State, t: TaskId, at: Time, m: Message)
    requires Spare(s, m) && CanMark(s, t, at)
    ensures Spare(DoMark(s, t, at), m)
  {
    var s' := DoMark(s, t, at);
    if Holds(s.tasks[t], m) { assert t in s'.tasks && Holds(s'.tasks[t], m); }
    SpareByTask(s, s', t, m);
  }

  predicate Delays(s: State, a: Action, m: Message) {
    a.Delay? && CanDelay(s, a.t) && MsgFor(s.tasks[a.t].msgs, s.tasks[a.t].phase.cur.f.id) == Some(m)
  }

  lemma SpareWork(s: State, a: Action, m: Message)
    requires Named(s) && Spare(s, m) && Enabled(s, a) && IsWork(a) && !a.Crash? && !Delays(s, a, m)
    ensures Spare(Next(s, a), m)
  {
    match a
    case Pop(t, ch, msgs) => SparePop(s, t, ch, msgs, m);
    case ClaimBatch(t, order) => SpareClaim(s, t, order, m);
    case WriteFailure(t) => SpareWriteFailure(s, t, m);
    case Delay(t, delay) => NamedDelay(s, t, delay); SpareDelay(s, t, delay, m);
    case RecordSent(t) => SpareRecordSent(s, t, m);
    case _ => SpareHolding(s, a, m);
  }

  /** A message that is put into its queue. */
  lemma SparePut(s: State, s': State, o: Message, m: Message)
    requires Spare(s, m) && s'.tasks == s.tasks && s'.st.queue == Enqueue(s.st.queue, o, s.now)
    requires m == o || NotNewlyQueued(s, s', m)
    ensures Spare(s', m)
  {
    if m != o { SpareStill(s, s', m); }
  }

  lemma SpareOther(s: State, a: Action, m: Message)
    requires Spare(s, m) && Enabled(s, a) && !IsWork(a)
    ensures Spare(Next(s, a), m)
  {
    match a
    case Create(id, ch, p) => SparePut(s, DoCreate(s, id, ch, p), Message(id, ch, p, None), m);
    case ScheduleDue(id) => SparePut(s, DoSchedule(s, id), MsgOf(s.st.rows, id), m);
    case Promote(o) => SparePut(s, DoPromote(s, o), o, m);
    case Reclaim(ch, o) => SparePut(s, DoReclaim(s, ch, o), o, m);
    case _ => SpareQuiet(s, a, m);
  }

  lemma SpareQuiet(s: State, a: Action, m: Message)
    requires Spare(s, m) && Enabled(s, a) && !IsWork(a) && !(a.Create? || a.ScheduleDue? || a.Promote? || a.Reclaim?)
    ensures Spare(Next(s, a), m)
  {
    SpareStill(s, Next(s, a), m);
  }

  lemma SpareHalf(f: Fine, mv: Move, m: Message)
    requires Spare(f.s, m) && Can(f, mv) && !mv.Step?
    requires mv.WriteQueued? && mv.id in f.s.st.rows ==> InHand(f.s, MsgOf(f.s.st.rows, mv.id))
    ensures Spare(Do(f, mv).s, m)
  {
    match mv
    case Insert(id, ch, p) => SpareStill(f.s, DoInsert(f.s, id, NewRow(ch, p, Pending, None)), m);
    case ReadDue(_) =>
    case Add(id) => SparePut(f.s, Queue(f.s, MsgOf(f.s.st.rows, id)), MsgOf(f.s.st.rows, id), m);
    case WriteQueued(id) => SpareWrite(f.s, id, m);
    case PromoteAdd(o) => SparePut(f.s, Queue(f.s, o), o, m);
    case PromoteRemove(seen) => SpareStill(f.s, Undelay(f.s, seen.m), m);
    case ReclaimAdd(o) => SparePut(f.s, Queue(f.s, o), o, m);
    case ReclaimRemove(o) => SpareStill(f.s, Unprocess(f.s, o), m);
  }

  lemma SpareWrite(s: State, id: Id, m: Message)
    requires Spare(s, m) && (id in s.st.rows ==> InHand(s, MsgOf(s.st.rows, id)))
    ensures Spare(Write(s, id), m)
  {
    var s' := Write(s, id);
    if m.id == id && id in s.st.rows && m == MsgOf(s.st.rows, id) {
      if u :| u in s.tasks && Holds(s.tasks[u], m) { assert u in s'.tasks; }
    } else {
      SpareStill(s, s', m);
    }
  }

  /** Nobody dies; a failed message is delayed by more than the rounding of the clock; a write of queued finds the message
      still in its queue or in somebody's hands; and the ZREM of a promotion finds the score that was promoted, or no
      entry. */
  ghost predicate InGoodTime(f: Fine, mv: Move) {
    match mv
    case Step(a) => !a.Crash? && (a.Delay? ==> Float64.F64(f.s.now) < Float64.F64(f.s.now + a.delay))
    case WriteQueued(id) => id in f.s.st.rows ==> InHand(f.s, MsgOf(f.s.st.rows, id))
    case PromoteRemove(seen) => seen.m in f.s.st.delayed ==> f.s.st.delayed[seen.m] == seen.score
    case _ => true
  }

  /** An entry that is still as its promoter saw it is one too many. */
  ghost predicate Promised(f: Fine, seen: Seen) {
    && seen.score <= Float64.F64(f.s.now)
    && (seen.m in f.s.st.delayed && f.s.st.delayed[seen.m] == seen.score ==> Spare(f.s, seen.m))
  }

  /** A step leaves the delayed entry of m, deletes it, or puts a later one. */
  ghost predicate Rescored(s: State, s': State, m: Message) {
    m in s'.st.delayed ==> m in s.st.delayed && s'.st.delayed[m] == s.st.delayed[m]
  }

  lemma OnlyDelaysRescore(s: State, a: Action, m: Message)
    requires Enabled(s, a) && !Delays(s, a, m)
    ensures Rescored(s, Next(s, a), m)
  {
    if a.Delay? { DelayRescores(s, a.t, a.delay, m); } else if IsWork(a) { WorkRescores(s, a, m); }
  }

  lemma DelayRescores(s: State, t: TaskId, delay: nat, m: Message)
    requires CanDelay(s, t) && MsgFor(s.tasks[t].msgs, s.tasks[t].phase.cur.f.id) != Some(m)
    ensures Rescored(s, DoDelay(s, t, delay), m)
  {
  }

  lemma WorkRescores(s: State, a: Action, m: Message)
    requires Enabled(s, a) && IsWork(a) && !a.Delay?
    ensures Rescored(s, Next(s, a), m)
  {
  }

  lemma DelayScores(s: State, a: Action, m: Message)
    requires Enabled(s, a) && Delays(s, a, m)
    ensures m in Next(s, a).st.delayed && Next(s, a).st.delayed[m] == Float64.F64(s.now + a.delay) && Next(s, a).now == s.now
  {
  }

  lemma PromisedStep(f: Fine, a: Action, seen: Seen)
    requires Named(f.s) && Promised(f, seen) && Enabled(f.s, a) && InGoodTime(f, Step(a))
    ensures Promised(Do(f, Step(a)), seen)
  {
    ClockStep(f.s, a);
    Float64.Monotone(f.s.now, Next(f.s, a).now);
    if Delays(f.s, a, seen.m) {
      DelayScores(f.s, a, seen.m);
    } else {
      OnlyDelaysRescore(f.s, a, seen.m);
      if Spare(f.s, seen.m) { SpareAfter(f.s, a, seen.m); }
    }
  }

  lemma SpareAfter(s: State, a: Action, m: Message)
    requires Named(s) && Spare(s, m) && Enabled(s, a) && !a.Crash? && !Delays(s, a, m)
    ensures Spare(Next(s, a), m)
  {
    if IsWork(a) { SpareWork(s, a, m); } else { SpareOther(s, a, m); }
  }

  lemma PromisedHalf(f: Fine, mv: Move, seen: Seen)
    requires Promised(f, seen) && Can(f, mv) && InGoodTime(f, mv) && !mv.Step?
    ensures Promised(Do(f, mv), seen)
  {
    if Spare(f.s, seen.m) { SpareHalf(f, mv, seen.m); }
  }

  lemma NewlyPromised(f: Fine, m: Message)
    requires Can(f, PromoteAdd(m))
    ensures Promised(Do(f, PromoteAdd(m)), Seen(m, f.s.st.delayed[m]))
  {
  }

  ghost predicate AllPromised(f: Fine) {
    forall seen :: seen in f.promoting ==> Promised(f, seen)
  }

  lemma PromisedMove(f: Fine, mv: Move)
    requires Named(f.s) && AllPromised(f) && Can(f, mv) && InGoodTime(f, mv)
    ensures AllPromised(Do(f, mv))
  {
    forall seen | seen in Do(f, mv).promoting ensures Promised(Do(f, mv), seen) {
      if seen in f.promoting {
        if mv.Step? { PromisedStep(f, mv.a, seen); } else { PromisedHalf(f, mv, seen); }
      } else {
        assert mv.PromoteAdd?;
        NewlyPromised(f, mv.m);
      }
    }
  }

  lemma GoodTimeKeeps(f: Fine, mv: Move)
    requires Named(f.s) && AllPromised(f) && NothingLost(f.s) && Can(f, mv) && InGoodTime(f, mv)
    ensures !Loses(f, mv)
  {
    match mv
    case WriteQueued(id) =>
    case PromoteRemove(seen) =>
      assert Promised(f, seen);
      if IsQueued(f.s.st.rows, seen.m.id) && seen.m == MsgOf(f.s.st.rows, seen.m.id) { assert Carried(f.s, seen.m); }
    case _ =>
  }

  ghost predicate SafeSoFar(f: Fine) {
    Named(f.s) && NothingLost(f.s) && AllPromised(f)
  }

  lemma GoodTimeMove(f: Fine, mv: Move)
    requires SafeSoFar(f) && Can(f, mv) && InGoodTime(f, mv)
    ensures SafeSoFar(Do(f, mv))
  {
    GoodTimeKeeps(f, mv);
    LosesExactly(f, mv);
    NamedMove(f, mv);
    PromisedMove(f, mv);
  }

  ghost predicate AllInGoodTime(fs: seq<Fine>, moves: seq<Move>)
    requires |fs| > |moves|
  {
    forall k {:trigger moves[k]} :: 0 <= k < |moves| ==> InGoodTime(fs[k], moves[k])
  }

  lemma GoodTimeNext(fs: seq<Fine>, moves: seq<Move>, i: nat)
    requires FineRun(fs, moves) && i < |moves| && AllInGoodTime(fs, moves) && SafeSoFar(fs[i])
    ensures SafeSoFar(fs[i + 1])
  {
    assert InGoodTime(fs[i], moves[i]);
    GoodTimeMove(fs[i], moves[i]);
  }

  /** With every move in good time no queued notification is lost, whatever comes between the calls. */
  lemma {:induction false} GoodTimeLosesNothing(fs: seq<Fine>, moves: seq<Move>, i: nat)
    requires FineRun(fs, moves) && i < |fs| && AllInGoodTime(fs, moves)
    ensures NothingLost(fs[i].s) && SafeSoFar(fs[i])
  {
    if i > 0 {
      GoodTimeLosesNothing(fs, moves, i - 1);
      GoodTimeNext(fs, moves, i - 1);
    }
  }

  // ---- a message given up without a crash ----

  /** m alone in an empty queue, known to nobody else. */
  ghost predicate Alone(s: State, m: Message) {
    && m in s.st.queue[m.channel] && (forall o :: o in s.st.queue[m.channel] ==> o == m)
    && m !in s.st.delayed && forall t :: t in s.tasks ==> !Holds(s.tasks[t], m)
  }

  /** A worker pops it, marks it, finds its row not claimable and lets go of it. */
  lemma TakenInVain(s: State, t: TaskId, m: Message) returns (acts: seq<Action>, s': State)
    requires Alone(s, m) && t !in s.tasks && m.id in s.st.rows && !Claimable(s.st.rows[m.id].status)
    ensures Path(Enabled, Next, s, acts, s') && s'.st.rows == s.st.rows && !Carried(s', m)
  {
    var z := s.st.queue[m.channel];
    assert Pops(z, [m]) by { assert [m][1..] == []; }
    assert Members([m]) == {m} && z - {m} == map[];
    var s1 := Next(s, Pop(t, m.channel, [m]));
    PathOne(Enabled, Next, s, Pop(t, m.channel, [m]));
    assert s1.st.rows == s.st.rows && s1.st.delayed == s.st.delayed && m !in s1.st.queue[m.channel];
    acts, s' := LetGo(s1, t, m);
    PathTrans(Enabled, Next, s, [Pop(t, m.channel, [m])], s1, acts, s');
    acts := [Pop(t, m.channel, [m])] + acts;
  }

  lemma LetGo(s: State, t: TaskId, m: Message) returns (acts: seq<Action>, s': State)
    requires IsIn(s, t, [m]) && s.tasks[t].phase == Popped(s.now) && m.id in s.st.rows && !Claimable(s.st.rows[m.id].status)
    requires m !in s.st.queue[m.channel] && m !in s.st.delayed && forall u :: u in s.tasks && u != t ==> !Holds(s.tasks[u], m)
    ensures Path(Enabled, Next, s, acts, s') && s'.st.rows == s.st.rows && !Carried(s', m)
  {
    var s1 := Next(s, Mark(t, s.now));
    PathOne(Enabled, Next, s, Mark(t, s.now));
    NothingClaimed(s1, t, m);
    s' := Next(s1, ClaimBatch(t, []));
    PathThen(Enabled, Next, s, [Mark(t, s.now)], s1, ClaimBatch(t, []));
    acts := [Mark(t, s.now)] + [ClaimBatch(t, [])];
  }

  predicate IsIn(s: State, t: TaskId, msgs: seq<Message>) {
    t in s.tasks && s.tasks[t].msgs == msgs
  }

  lemma NothingClaimed(s: State, t: TaskId, m: Message)
    requires IsIn(s, t, [m]) && s.tasks[t].phase.Waiting? && m.id in s.st.rows && !Claimable(s.st.rows[m.id].status)
    requires m !in s.st.queue[m.channel] && m !in s.st.delayed && forall u :: u in s.tasks && u != t ==> !Holds(s.tasks[u], m)
    ensures Enabled(s, ClaimBatch(t, []))
    ensures var s' := Next(s, ClaimBatch(t, [])); s'.st.rows == s.st.rows && !Carried(s', m)
  {
    assert Claimed(s.st.rows, Ids([m])) == {};
    assert ClaimRows(s.st.rows, Ids([m])) == s.st.rows;
  }

  /** A due notification is enqueued and at once dequeued, its row still scheduled; the claim takes nothing and the worker
      drops the message; then the row becomes queued. */
  lemma LateWriteUncarried(f: Fine, id: Id, t: TaskId) returns (moves: seq<Move>, f': Fine)
    requires CanSchedule(f.s, id) && t !in f.s.tasks && f.s.st.queue[f.s.st.rows[id].channel] == map[]
    requires !Carried(f.s, MsgOf(f.s.st.rows, id))
    ensures Path(Can, Do, f, moves, f') && IsQueued(f'.s.st.rows, id) && !Carried(f'.s, MsgOf(f'.s.st.rows, id))
  {
    var m := MsgOf(f.s.st.rows, id);
    var f1 := Do(f, ReadDue(id));
    PathOne(Can, Do, f, ReadDue(id));
    var f2 := Do(f1, Add(id));
    PathThen(Can, Do, f, [ReadDue(id)], f1, Add(id));
    assert Alone(f2.s, m);
    var acts, s' := TakenInVain(f2.s, t, m);
    var more := StepsOf(f2, acts, s');
    var f3 := f2.(s := s');
    PathTrans(Can, Do, f, [ReadDue(id)] + [Add(id)], f2, more, f3);
    f' := Do(f3, WriteQueued(id));
    PathThen(Can, Do, f, [ReadDue(id)] + [Add(id)] + more, f3, WriteQueued(id));
    moves := [ReadDue(id)] + [Add(id)] + more + [WriteQueued(id)];
  }
}
