/** The four pairs of calls that Pipeline takes as one step each, taken apart: insert, ZADD and status write of a create;
    ZADD and status write of a due row; ZADD and ZREM of a promotion and of a reclaim. Anybody may come between them.
    Says what of the ownership theorem is left, exactly. */
module Grain {
  import opened Domain
  import opened Databases
  import opened Pipeline
  import opened Ownership
  import opened Delivery
  import opened StatusFlow
  import opened Recovery
  import opened Loss
  import opened Runs

  /** A member as a scheduler found it. */
  datatype Seen = Seen(m: Message, score: nat)

  /** `adding` are the requests and schedulers about to ZADD, `writing` those about to write queued, and `promoting` and
      `reclaiming` the schedulers about to ZREM. */
  datatype Fine = Fine(s: State, adding: multiset<Id>, writing: multiset<Id>,
                       promoting: multiset<Seen>, reclaiming: multiset<Message>)

  datatype Move =
    | Step(a: Action)                                    // anything else, and the pairs that nobody comes between
    | Insert(id: Id, channel: Channel, priority: Priority)
    | ReadDue(id: Id)
    | Add(id: Id)
    | WriteQueued(id: Id)
    | PromoteAdd(m: Message)
    | PromoteRemove(seen: Seen)
    | ReclaimAdd(m: Message)
    | ReclaimRemove(m: Message)

  ghost predicate Can(f: Fine, mv: Move) {
    match mv
    case Step(a) => Enabled(f.s, a)
    case Insert(id, _, _) => id !in f.s.st.rows
    case ReadDue(id) => CanSchedule(f.s, id)
    case Add(id) => id in f.adding && id in f.s.st.rows
    case WriteQueued(id) => id in f.writing
    case PromoteAdd(m) => Due(f.s.st.delayed, m, f.s.now)
    case PromoteRemove(seen) => seen in f.promoting
    case ReclaimAdd(m) => Due(f.s.st.processing[m.channel], m, f.s.now)
    case ReclaimRemove(m) => m in f.reclaiming
  }

  function Queue(s: State, m: Message): State {
    s.(st := s.st.(queue := Enqueue(s.st.queue, m, s.now)))
  }

  function Write(s: State, id: Id): State {
    s.(st := s.st.(rows := SetStatus(s.st.rows, id, Queued)))
  }

  function Undelay(s: State, m: Message): State {
    s.(st := s.st.(delayed := s.st.delayed - {m}))
  }

  function Unprocess(s: State, m: Message): State {
    s.(st := s.st.(processing := Ack(s.st.processing, m.channel, [m])))
  }

  ghost function Do(f: Fine, mv: Move): Fine {
    match mv
    case Step(a) => f.(s := Next(f.s, a))
    case Insert(id, ch, p) => f.(s := DoInsert(f.s, id, NewRow(ch, p, Pending, None)), adding := f.adding + multiset{id})
    case ReadDue(id) => f.(adding := f.adding + multiset{id})
    case Add(id) =>
      if id in f.s.st.rows
      then f.(s := Queue(f.s, MsgOf(f.s.st.rows, id)), adding := f.adding - multiset{id}, writing := f.writing + multiset{id})
      else f
    case WriteQueued(id) => f.(s := Write(f.s, id), writing := f.writing - multiset{id})
    case PromoteAdd(m) =>
      if m in f.s.st.delayed
      then f.(s := Queue(f.s, m), promoting := f.promoting + multiset{Seen(m, f.s.st.delayed[m])})
      else f
    case PromoteRemove(seen) => f.(s := Undelay(f.s, seen.m), promoting := f.promoting - multiset{seen})
    case ReclaimAdd(m) => f.(s := Queue(f.s, m), reclaiming := f.reclaiming + multiset{m})
    case ReclaimRemove(m) => f.(s := Unprocess(f.s, m), reclaiming := f.reclaiming - multiset{m})
  }

  ghost predicate FineRun(fs: seq<Fine>, moves: seq<Move>) {
    && |fs| == |moves| + 1 && Init(fs[0].s)
    && fs[0].adding == multiset{} && fs[0].writing == multiset{}
    && fs[0].promoting == multiset{} && fs[0].reclaiming == multiset{}
    && forall i {:trigger moves[i]} :: 0 <= i < |moves| ==> Can(fs[i], moves[i]) && fs[i + 1] == Do(fs[i], moves[i])
  }

  // ---- undisturbed, the halves are the step ----

  lemma CreateHalves(s: State, id: Id, ch: Channel, p: Priority)
    requires id !in s.st.rows
    ensures Write(Queue(DoInsert(s, id, NewRow(ch, p, Pending, None)), Message(id, ch, p, None)), id) == DoCreate(s, id, ch, p)
  {
  }

  lemma ScheduleHalves(s: State, id: Id)
    requires CanSchedule(s, id)
    ensures Write(Queue(s, MsgOf(s.st.rows, id)), id) == DoSchedule(s, id)
  {
  }

  lemma MoveHalves(s: State, m: Message)
    ensures Undelay(Queue(s, m), m) == DoPromote(s, m) && Unprocess(Queue(s, m), m) == DoReclaim(s, m.channel, m)
  {
  }

  // ---- ownership ----

  /** The write of queued over an owned row is the one move that breaks ownership, and it always does. */
  lemma WriteExactly(s: State, id: Id)
    requires Own(s)
    ensures Own(Write(s, id)) <==> !Owned(s, id)
  {
    var s' := Write(s, id);
    if t :| t in s.tasks && Owns(s.tasks[t].phase, id) {
      assert Held(s.st.rows, id) && t in s'.tasks;
      assert !Held(s'.st.rows, id);
    } else {
      forall t, x | t in s.tasks && Owns(s.tasks[t].phase, x) ensures Held(s'.st.rows, x) { assert Held(s.st.rows, x); }
      OwnRows(s, s');
    }
  }

  lemma FineOwnStep(f: Fine, mv: Move)
    requires Own(f.s) && Can(f, mv)
    ensures Own(Do(f, mv).s) <==> (mv.WriteQueued? ==> !Owned(f.s, mv.id))
  {
    match mv
    case Step(a) => OwnStep(f.s, a);
    case Insert(id, ch, p) => OwnInsert(f.s, id, NewRow(ch, p, Pending, None));
    case WriteQueued(id) => WriteExactly(f.s, id);
    case _ => OwnStill(f.s, Do(f, mv).s);
  }

  /** A write of queued that finds an owner. */
  ghost predicate WritesOverOwner(f: Fine, mv: Move) {
    mv.WriteQueued? && Owned(f.s, mv.id)
  }

  ghost predicate NeverOverOwner(fs: seq<Fine>, moves: seq<Move>)
    requires |fs| > |moves|
  {
    forall k {:trigger moves[k]} :: 0 <= k < |moves| ==> !WritesOverOwner(fs[k], moves[k])
  }

  lemma OwnNext(fs: seq<Fine>, moves: seq<Move>, i: nat)
    requires FineRun(fs, moves) && i < |moves| && Own(fs[i].s)
    ensures Own(fs[i + 1].s) <==> !WritesOverOwner(fs[i], moves[i])
  {
    FineOwnStep(fs[i], moves[i]);
  }

  lemma OwnKept(fs: seq<Fine>, moves: seq<Move>, i: nat)
    requires FineRun(fs, moves) && i < |moves| && NeverOverOwner(fs, moves) && Own(fs[i].s)
    ensures Own(fs[i + 1].s)
  {
    assert !WritesOverOwner(fs[i], moves[i]);
    OwnNext(fs, moves, i);
  }

  lemma {:induction false} OwnUpTo(fs: seq<Fine>, moves: seq<Move>, i: nat)
    requires FineRun(fs, moves) && i < |fs| && NeverOverOwner(fs, moves)
    ensures Own(fs[i].s)
  {
    if i > 0 {
      OwnUpTo(fs, moves, i - 1);
      OwnKept(fs, moves, i - 1);
    }
  }

  /** A run keeps one owner per notification, with a status no claim accepts, if and only if none of its writes of
      queued, by a create or by the scheduler, comes after a claim of the row and before the claimer's own write. */
  lemma OwnExactly(fs: seq<Fine>, moves: seq<Move>)
    requires FineRun(fs, moves)
    ensures (forall i :: 0 <= i < |fs| ==> Own(fs[i].s)) <==> NeverOverOwner(fs, moves)
  {
    if NeverOverOwner(fs, moves) {
      forall i | 0 <= i < |fs| ensures Own(fs[i].s) { OwnUpTo(fs, moves, i); }
    }
    if forall i :: 0 <= i < |fs| ==> Own(fs[i].s) {
      forall k | 0 <= k < |moves| ensures !WritesOverOwner(fs[k], moves[k]) { OwnNext(fs, moves, k); }
    }
  }

  // ---- the same on the row's status, which the UPDATE could test ----

  /** What processing means: somebody owns the row. */
  ghost predicate Attended(s: State, id: Id) {
    id in s.st.rows && s.st.rows[id].status == Processing ==> Owned(s, id)
  }

  lemma AttendedByTask(s: State, s': State, t: TaskId, id: Id)
    requires Attended(s, id) && t in s.tasks
    requires id in s'.st.rows && s'.st.rows[id].status == Processing ==> id in s.st.rows && s.st.rows[id].status == Processing
    requires forall u :: u in s.tasks && u != t ==> u in s'.tasks && s'.tasks[u] == s.tasks[u]
    requires id in s'.st.rows && s'.st.rows[id].status == Processing && Owns(s.tasks[t].phase, id) ==>
      t in s'.tasks && Owns(s'.tasks[t].phase, id)
    ensures Attended(s', id)
  {
    if id in s'.st.rows && s'.st.rows[id].status == Processing {
      var u :| u in s.tasks && Owns(s.tasks[u].phase, id);
      assert u in s'.tasks && Owns(s'.tasks[u].phase, id);
    }
  }

  lemma AttendedClaim(s: State, t: TaskId, order: seq<Id>, id: Id)
    requires Attended(s, id) && CanClaim(s, t, order)
    ensures Attended(DoClaim(s, t, order), id)
  {
    var s' := DoClaim(s, t, order);
    if id in order {
      var i :| 0 <= i < |order| && order[i] == id;
      assert s'.tasks[t].phase.todo[i].id == id;
    } else {
      assert id !in Claimed(s.st.rows, Ids(s.tasks[t].msgs));
      AttendedByTask(s, s', t, id);
    }
  }

  lemma AttendedSent(s: State, t: TaskId, id: Id)
    requires Attended(s, id) && CanRecordSent(s, t)
    ensures Attended(DoRecordSent(s, t), id)
  {
    MarkSentAt(s.st.rows, s.tasks[t].phase.sent, id);
    AttendedByTask(s, DoRecordSent(s, t), t, id);
  }

  lemma SendKeepsOwned(ph: Phase, out: Outcome, id: Id)
    requires ph.Sending? && ph.cur == Idle && ph.todo != [] && Owns(ph, id)
    ensures Owns(AfterSend(ph, out), id)
  {
    var ph' := AfterSend(ph, out);
    if i :| 0 <= i < |ph.todo| && ph.todo[i].id == id {
      if i > 0 {
        assert ph'.todo[i - 1].id == id;
      } else if out.Delivered? {
        assert ph'.sent[|ph.sent|].id == id;
      }
    } else {
      var j :| 0 <= j < |ph.sent| && ph.sent[j].id == id;
      assert ph'.sent[j].id == id;
    }
  }

  lemma AttendedSend(s: State, t: TaskId, out: Outcome, id: Id)
    requires Attended(s, id) && CanSend(s, t)
    ensures Attended(DoSend(s, t, out), id)
  {
    if Owns(s.tasks[t].phase, id) { SendKeepsOwned(s.tasks[t].phase, out, id); }
    AttendedByTask(s, DoSend(s, t, out), t, id);
  }

  lemma AttendedWork(s: State, a: Action, id: Id)
    requires Attended(s, id) && Enabled(s, a) && IsWork(a) && !a.Crash?
    ensures Attended(Next(s, a), id)
  {
    match a
    case ClaimBatch(t, order) => AttendedClaim(s, t, order, id);
    case Send(t, out) => AttendedSend(s, t, out, id);
    case WriteFailure(t) => AttendedByTask(s, DoWriteFailure(s, t), t, id);
    case RecordSent(t) => AttendedSent(s, t, id);
    case _ => if a.Pop? || a.Mark? || a.AckAll? { AttendedBatch(s, a, id); } else { AttendedFailure(s, a, id); }
  }

  lemma AttendedBatch(s: State, a: Action, id: Id)
    requires Attended(s, id) && Enabled(s, a) && (a.Pop? || a.Mark? || a.AckAll?)
    ensures Attended(Next(s, a), id)
  {
    match a
    case Pop(t, ch, msgs) => AttendedStill(s, DoPop(s, t, ch, msgs), id);
    case Mark(t, at) => AttendedByTask(s, DoMark(s, t, at), t, id);
    case AckAll(t) => AttendedByTask(s, DoAckAll(s, t), t, id);
  }

  lemma AttendedFailure(s: State, a: Action, id: Id)
    requires Attended(s, id) && Enabled(s, a) && (a.Bury? || a.Delay? || a.AckOne?)
    ensures Attended(Next(s, a), id)
  {
    match a
    case Bury(t) => AttendedByTask(s, DoBury(s, t), t, id);
    case Delay(t, delay) => AttendedByTask(s, DoDelay(s, t, delay), t, id);
    case AckOne(t) => AttendedByTask(s, DoAckOne(s, t), t, id);
  }

  lemma AttendedStill(s: State, s': State, id: Id)
    requires Attended(s, id)
    requires forall u :: u in s.tasks ==> u in s'.tasks && s'.tasks[u] == s.tasks[u]
    requires id in s'.st.rows && s'.st.rows[id].status == Processing ==> id in s.st.rows && s.st.rows[id].status == Processing
    ensures Attended(s', id)
  {
    if Owned(s, id) { var u :| u in s.tasks && Owns(s.tasks[u].phase, id); assert u in s'.tasks; }
  }

  lemma AttendedOther(s: State, a: Action, id: Id)
    requires Attended(s, id) && Enabled(s, a) && !IsWork(a)
    ensures Attended(Next(s, a), id)
  {
    match a
    case Create(i, ch, p) => AttendedStill(s, DoCreate(s, i, ch, p), id);
    case ScheduleDue(i) => AttendedStill(s, DoSchedule(s, i), id);
    case _ => AttendedStill(s, Next(s, a), id);
  }

  lemma AttendedMove(f: Fine, mv: Move, id: Id)
    requires Attended(f.s, id) && Can(f, mv) && !(mv.Step? && mv.a.Crash?)
    ensures Attended(Do(f, mv).s, id)
  {
    match mv
    case Step(a) => if IsWork(a) { AttendedWork(f.s, a, id); } else { AttendedOther(f.s, a, id); }
    case _ => AttendedStill(f.s, Do(f, mv).s, id);
  }

  lemma StrictMove(f: Fine, mv: Move, id: Id)
    requires Own(f.s) && StrictAt(f.s, id) && Can(f, mv) && !WritesOverOwner(f, mv) && !(mv.Step? && mv.a.CancelWrite?)
    ensures StrictAt(Do(f, mv).s, id)
  {
    match mv
    case Step(a) => StrictStep(f.s, a, id);
    case _ =>
  }

  /** Nobody dies, and nobody cancels in two steps. */
  ghost predicate Calm(mv: Move) {
    mv.Step? ==> !mv.a.Crash? && !mv.a.CancelWrite?
  }

  ghost predicate WritesOverProcessing(f: Fine, mv: Move) {
    mv.WriteQueued? && mv.id in f.s.st.rows && f.s.st.rows[mv.id].status == Processing
  }

  ghost predicate AllCalm(moves: seq<Move>) {
    forall k {:trigger moves[k]} :: 0 <= k < |moves| ==> Calm(moves[k])
  }

  ghost predicate NeverOverProcessing(fs: seq<Fine>, moves: seq<Move>)
    requires |fs| > |moves|
  {
    forall k {:trigger moves[k]} :: 0 <= k < |moves| ==> !WritesOverProcessing(fs[k], moves[k])
  }

  /** Processing rows are the owned ones. */
  ghost predicate OwnersAreProcessing(s: State) {
    Own(s) && forall id :: StrictAt(s, id) && Attended(s, id)
  }

  lemma OwnerIsProcessing(f: Fine, mv: Move)
    requires OwnersAreProcessing(f.s)
    ensures WritesOverOwner(f, mv) <==> WritesOverProcessing(f, mv)
  {
    if mv.WriteQueued? { assert StrictAt(f.s, mv.id) && Attended(f.s, mv.id); }
  }

  lemma ProcessingMove(f: Fine, mv: Move)
    requires OwnersAreProcessing(f.s) && Can(f, mv) && Calm(mv) && !WritesOverOwner(f, mv)
    ensures OwnersAreProcessing(Do(f, mv).s)
  {
    FineOwnStep(f, mv);
    forall id ensures StrictAt(Do(f, mv).s, id) && Attended(Do(f, mv).s, id) {
      assert StrictAt(f.s, id) && Attended(f.s, id);
      StrictMove(f, mv, id);
      AttendedMove(f, mv, id);
    }
  }

  lemma ProcessingNext(fs: seq<Fine>, moves: seq<Move>, i: nat)
    requires FineRun(fs, moves) && AllCalm(moves) && (NeverOverOwner(fs, moves) || NeverOverProcessing(fs, moves))
    requires i < |moves| && OwnersAreProcessing(fs[i].s)
    ensures OwnersAreProcessing(fs[i + 1].s) && !WritesOverOwner(fs[i], moves[i]) && !WritesOverProcessing(fs[i], moves[i])
  {
    OwnerIsProcessing(fs[i], moves[i]);
    assert Can(fs[i], moves[i]) && Calm(moves[i]);
    ProcessingMove(fs[i], moves[i]);
  }

  /** Processing rows stay the owned ones from one index to the next. */
  ghost predicate StaysProcessing(fs: seq<Fine>, k: nat)
    requires k + 1 < |fs|
  {
    OwnersAreProcessing(fs[k].s) ==> OwnersAreProcessing(fs[k + 1].s)
  }

  lemma {:induction false} ProcessingOn(fs: seq<Fine>, i: nat)
    requires i < |fs| && OwnersAreProcessing(fs[0].s) && forall k: nat :: k + 1 < |fs| ==> StaysProcessing(fs, k)
    ensures OwnersAreProcessing(fs[i].s)
  {
    if i > 0 {
      ProcessingOn(fs, i - 1);
      assert StaysProcessing(fs, i - 1);
    }
  }

  lemma ProcessingStays(fs: seq<Fine>, moves: seq<Move>, k: nat)
    requires FineRun(fs, moves) && AllCalm(moves) && (NeverOverOwner(fs, moves) || NeverOverProcessing(fs, moves))
    requires k < |moves|
    ensures StaysProcessing(fs, k)
  {
    if OwnersAreProcessing(fs[k].s) { ProcessingNext(fs, moves, k); }
  }

  lemma ProcessingUpTo(fs: seq<Fine>, moves: seq<Move>, i: nat)
    requires FineRun(fs, moves) && AllCalm(moves) && (NeverOverOwner(fs, moves) || NeverOverProcessing(fs, moves))
    requires i < |fs|
    ensures OwnersAreProcessing(fs[i].s)
  {
    forall k: nat | k + 1 < |fs| ensures StaysProcessing(fs, k) { ProcessingStays(fs, moves, k); }
    ProcessingOn(fs, i);
  }

  /** Without crashes and split cancels a guard on the old status is the exact cure: a run keeps one owner per
      notification if and only if no write of queued finds its row processing. */
  lemma OwnByStatus(fs: seq<Fine>, moves: seq<Move>)
    requires FineRun(fs, moves) && AllCalm(moves)
    ensures (forall i :: 0 <= i < |fs| ==> Own(fs[i].s)) <==> NeverOverProcessing(fs, moves)
  {
    OwnExactly(fs, moves);
    if NeverOverOwner(fs, moves) || NeverOverProcessing(fs, moves) {
      forall k | 0 <= k < |moves| ensures !WritesOverOwner(fs[k], moves[k]) && !WritesOverProcessing(fs[k], moves[k]) {
        ProcessingUpTo(fs, moves, k);
        ProcessingNext(fs, moves, k);
      }
    }
  }

  // ---- late writes happen ----

  lemma FineRoundedStep(f: Fine, mv: Move)
    requires Rounded(f.s) && Can(f, mv)
    ensures Rounded(Do(f, mv).s)
  {
    match mv
    case Step(a) => RoundedStep(f.s, a);
    case _ => RoundedShrinks(f.s, Do(f, mv).s);
  }

  lemma {:induction false} FineRounded(fs: seq<Fine>, moves: seq<Move>, i: nat)
    requires FineRun(fs, moves) && i < |fs|
    ensures Rounded(fs[i].s)
  {
    if i > 0 {
      FineRounded(fs, moves, i - 1);
      assert fs[i - 1 + 1] == Do(fs[i - 1], moves[i - 1]);
      FineRoundedStep(fs[i - 1], moves[i - 1]);
    }
  }

  /** A claim, by somebody new, of a notification whose message some set knows. */
  lemma ClaimedMeanwhile(f: Fine, m: Message) returns (moves: seq<Move>, f': Fine, u: TaskId)
    requires Rounded(f.s) && !NoSetHas(f.s.st, m) && m.id in f.s.st.rows && Claimable(f.s.st.rows[m.id].status)
    ensures Path(Can, Do, f, moves, f') && f' == f.(s := f'.s)
    ensures KeepsTasks(f.s, f'.s) && u !in f.s.tasks && u in f'.s.tasks && Owns(f'.s.tasks[u].phase, m.id)
    ensures Rounded(f'.s) && m.id in f'.s.st.rows && m in f'.s.st.processing[m.channel]
  {
    var acts, s';
    acts, u, s' := CanBeClaimed(f.s, m);
    RoundedPath(f.s, acts, s');
    moves := StepsOf(f, acts, s');
    f' := f.(s := s');
  }

  /** After any run, between the ZADD of a create whose row has not been cancelled and its status write some continuation
      puts a claim, so that the write finds an owner; and then a second owner beside the first. */
  lemma LateWrite(fs: seq<Fine>, moves: seq<Move>, i: nat, id: Id)
    returns (a: seq<Move>, f1: Fine, b: seq<Move>, f2: Fine, t: TaskId, u: TaskId)
    requires FineRun(fs, moves) && i < |fs| && Can(fs[i], Add(id)) && Claimable(fs[i].s.st.rows[id].status)
    ensures Path(Can, Do, fs[i], [Add(id)] + a, f1) && Can(f1, WriteQueued(id)) && WritesOverOwner(f1, WriteQueued(id))
    ensures Path(Can, Do, Do(f1, WriteQueued(id)), b, f2)
    ensures t != u && t in f2.s.tasks && u in f2.s.tasks
    ensures Owns(f2.s.tasks[t].phase, id) && Owns(f2.s.tasks[u].phase, id)
  {
    FineRounded(fs, moves, i);
    a, f1, b, f2, t, u := LateWriteFrom(fs[i], id);
  }

  lemma LateWriteFrom(f: Fine, id: Id) returns (a: seq<Move>, f1: Fine, b: seq<Move>, f2: Fine, t: TaskId, u: TaskId)
    requires Rounded(f.s) && Can(f, Add(id)) && Claimable(f.s.st.rows[id].status)
    ensures Path(Can, Do, f, [Add(id)] + a, f1) && Can(f1, WriteQueued(id)) && WritesOverOwner(f1, WriteQueued(id))
    ensures Path(Can, Do, Do(f1, WriteQueued(id)), b, f2)
    ensures t != u && t in f2.s.tasks && u in f2.s.tasks
    ensures Owns(f2.s.tasks[t].phase, id) && Owns(f2.s.tasks[u].phase, id)
  {
    var m := MsgOf(f.s.st.rows, id);
    var f0 := Do(f, Add(id));
    PathOne(Can, Do, f, Add(id));
    a, f1, t := ClaimedMeanwhile(f0, m);
    PathTrans(Can, Do, f, [Add(id)], f0, a, f1);
    b, f2, u := ClaimedMeanwhile(Do(f1, WriteQueued(id)), m);
  }

  /** Steps of the pipeline are moves here. */
  lemma {:induction false} StepsOf(f: Fine, acts: seq<Action>, s': State) returns (moves: seq<Move>)
    requires Path(Enabled, Next, f.s, acts, s')
    ensures Path(Can, Do, f, moves, f.(s := s'))
    decreases |acts|
  {
    if acts == [] {
      moves := [];
    } else {
      var f1 := Do(f, Step(acts[0]));
      var rest := StepsOf(f1, acts[1..], s');
      PathOne(Can, Do, f, Step(acts[0]));
      moves := [Step(acts[0])] + rest;
      PathTrans(Can, Do, f, [Step(acts[0])], f1, rest, f.(s := s'));
    }
  }

  // ---- the counts ----

  /** The row still waits for this write. */
  predicate Awaits(s: State, id: Id) {
    id !in s.st.rows || Fresh(s.st.rows[id].status)
  }

  ghost predicate WritesInTime(fs: seq<Fine>, moves: seq<Move>, i: nat)
    requires |fs| > |moves| >= i
  {
    forall k {:trigger moves[k]} :: 0 <= k < i && moves[k].WriteQueued? ==> Awaits(fs[k].s, moves[k].id)
  }

  lemma AwaitedIsFree(s: State, id: Id)
    requires Own(s) && Awaits(s, id)
    ensures !Owned(s, id)
  {
    forall t | t in s.tasks ensures !Owns(s.tasks[t].phase, id) {
      assert Owns(s.tasks[t].phase, id) ==> Held(s.st.rows, id);
    }
  }

  lemma DelWrite(s: State, id: Id)
    requires Del(s) && Awaits(s, id)
    ensures Del(Write(s, id))
  {
    var s' := Write(s, id);
    forall x ensures RowOk(s', x) { assert RowOk(s, x); }
    DelFrame(s, s');
  }

  lemma FineDelStep(f: Fine, mv: Move)
    requires Own(f.s) && Del(f.s) && Can(f, mv) && (mv.WriteQueued? ==> Awaits(f.s, mv.id))
    ensures Del(Do(f, mv).s)
  {
    match mv
    case Step(a) => DelStep(f.s, a);
    case Insert(id, ch, p) => DelInsert(f.s, id, NewRow(ch, p, Pending, None));
    case WriteQueued(id) => DelWrite(f.s, id);
    case _ => FineQuiet(f, mv);
  }

  /** The other halves write to Redis only. */
  lemma FineQuiet(f: Fine, mv: Move)
    requires Del(f.s) && !mv.Step? && !mv.Insert? && !mv.WriteQueued?
    ensures Del(Do(f, mv).s)
  {
    match mv
    case ReadDue(_) =>
    case Add(id) => if id in f.s.st.rows { DelQuiet(f.s, Queue(f.s, MsgOf(f.s.st.rows, id))); }
    case PromoteAdd(m) => if m in f.s.st.delayed { DelQuiet(f.s, Queue(f.s, m)); }
    case PromoteRemove(seen) => DelQuiet(f.s, Undelay(f.s, seen.m));
    case ReclaimAdd(m) => DelQuiet(f.s, Queue(f.s, m));
    case ReclaimRemove(m) => DelQuiet(f.s, Unprocess(f.s, m));
  }

  lemma FineStep(f: Fine, mv: Move)
    requires Own(f.s) && Del(f.s) && Can(f, mv) && (mv.WriteQueued? ==> Awaits(f.s, mv.id))
    ensures Own(Do(f, mv).s) && Del(Do(f, mv).s)
  {
    if mv.WriteQueued? { AwaitedIsFree(f.s, mv.id); }
    FineOwnStep(f, mv);
    FineDelStep(f, mv);
  }

  lemma FineNext(fs: seq<Fine>, moves: seq<Move>, i: nat)
    requires FineRun(fs, moves) && i < |moves| && WritesInTime(fs, moves, i + 1) && Own(fs[i].s) && Del(fs[i].s)
    ensures Own(fs[i + 1].s) && Del(fs[i + 1].s)
  {
    assert moves[i].WriteQueued? ==> Awaits(fs[i].s, moves[i].id);
    FineStep(fs[i], moves[i]);
  }

  lemma {:induction false} FineInvariants(fs: seq<Fine>, moves: seq<Move>, i: nat)
    requires FineRun(fs, moves) && i < |fs| && WritesInTime(fs, moves, i)
    ensures Own(fs[i].s) && Del(fs[i].s)
  {
    if i > 0 {
      FineInvariants(fs, moves, i - 1);
      FineNext(fs, moves, i - 1);
    }
  }

  /** At the grain of the code's calls: while every write of queued finds its row pending, scheduled or queued still,
      whatever else comes between, there is one owner at most, and the sends and deliveries keep their bounds. */
  lemma FineBounds(fs: seq<Fine>, moves: seq<Move>, i: nat, t: TaskId, u: TaskId, id: Id)
    requires FineRun(fs, moves) && i < |fs| && WritesInTime(fs, moves, i) && id in fs[i].s.st.rows
    ensures fs[i].s.delivered[id] <= 1 && fs[i].s.sends[id] <= fs[i].s.st.rows[id].maxAttempts
    ensures t in fs[i].s.tasks && u in fs[i].s.tasks && Owns(fs[i].s.tasks[t].phase, id) && Owns(fs[i].s.tasks[u].phase, id)
      ==> t == u && !Claimable(fs[i].s.st.rows[id].status)
  {
    FineInvariants(fs, moves, i);
    assert RowOk(fs[i].s, id);
    if t in fs[i].s.tasks && Owns(fs[i].s.tasks[t].phase, id) { assert Held(fs[i].s.st.rows, id); }
  }

  /** Nobody owns the row, attempts are left, and every send of it has been counted as one that failed. */
  ghost predicate Settled(s: State, id: Id) {
    id in s.st.rows ==>
      && !Owned(s, id)
      && s.sends[id] == s.st.rows[id].attempts < s.st.rows[id].maxAttempts && s.delivered[id] == 0
  }

  ghost predicate Sane(s: State) {
    Own(s) && Del(s)
  }

  lemma NoRowNoOwner(s: State, id: Id)
    requires Own(s) && id !in s.st.rows
    ensures !Owned(s, id)
  {
    forall t | t in s.tasks ensures !Owns(s.tasks[t].phase, id) { assert Owns(s.tasks[t].phase, id) ==> Held(s.st.rows, id); }
  }

  lemma WriteSettles(s: State, id: Id)
    requires Sane(s)
    ensures Sane(Write(s, id)) <==> Settled(s, id)
  {
    WriteExactly(s, id);
    if id !in s.st.rows { NoRowNoOwner(s, id); }
    if Settled(s, id) { DelSettled(s, id); }
    if Sane(Write(s, id)) { assert RowOk(Write(s, id), id); }
  }

  lemma DelSettled(s: State, id: Id)
    requires Del(s) && Settled(s, id)
    ensures Del(Write(s, id))
  {
    var s' := Write(s, id);
    forall x ensures RowOk(s', x) { assert RowOk(s, x); }
    DelFrame(s, s');
  }

  lemma SaneExactly(f: Fine, mv: Move)
    requires Sane(f.s) && Can(f, mv)
    ensures Sane(Do(f, mv).s) <==> (mv.WriteQueued? ==> Settled(f.s, mv.id))
  {
    if mv.WriteQueued? { WriteSettles(f.s, mv.id); } else { FineStep(f, mv); }
  }

  ghost predicate Unsettles(f: Fine, mv: Move) {
    mv.WriteQueued? && !Settled(f.s, mv.id)
  }

  ghost predicate AllSettled(fs: seq<Fine>, moves: seq<Move>)
    requires |fs| > |moves|
  {
    forall k {:trigger moves[k]} :: 0 <= k < |moves| ==> !Unsettles(fs[k], moves[k])
  }

  lemma SaneNext(fs: seq<Fine>, moves: seq<Move>, i: nat)
    requires FineRun(fs, moves) && i < |moves| && Sane(fs[i].s)
    ensures Sane(fs[i + 1].s) <==> !Unsettles(fs[i], moves[i])
  {
    SaneExactly(fs[i], moves[i]);
  }

  lemma SaneKept(fs: seq<Fine>, moves: seq<Move>, i: nat)
    requires FineRun(fs, moves) && i < |moves| && AllSettled(fs, moves) && Sane(fs[i].s)
    ensures Sane(fs[i + 1].s)
  {
    assert !Unsettles(fs[i], moves[i]);
    SaneNext(fs, moves, i);
  }

  lemma {:induction false} SaneUpTo(fs: seq<Fine>, moves: seq<Move>, i: nat)
    requires FineRun(fs, moves) && i < |fs| && AllSettled(fs, moves)
    ensures Sane(fs[i].s)
  {
    if i > 0 {
      SaneUpTo(fs, moves, i - 1);
      SaneKept(fs, moves, i - 1);
    }
  }

  /** A run keeps one owner per notification and exact counts of its sends, deliveries and dead letters if and only if
      every write of queued finds its row settled. */
  lemma CountsExactly(fs: seq<Fine>, moves: seq<Move>)
    requires FineRun(fs, moves)
    ensures (forall i :: 0 <= i < |fs| ==> Sane(fs[i].s)) <==> AllSettled(fs, moves)
  {
    if AllSettled(fs, moves) {
      forall i | 0 <= i < |fs| ensures Sane(fs[i].s) { SaneUpTo(fs, moves, i); }
    }
    if forall i :: 0 <= i < |fs| ==> Sane(fs[i].s) {
      forall k | 0 <= k < |moves| ensures !Unsettles(fs[k], moves[k]) { SaneNext(fs, moves, k); }
    }
  }
}
