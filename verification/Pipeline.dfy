/** The delivery pipeline as a transition system: any number of API requests, schedulers and worker tasks
    share the two databases; every step below is atomic and steps of different actors interleave freely. */
module Pipeline {
  import opened Domain
  import opened Databases
  import Float64

  type TaskId = nat

  /** A failed send: `attempts` is n.Attempts after the increment. */
  datatype Failure = Failure(id: Id, attempts: nat, maxAttempts: nat, err: string)

  /** Where handleFailure stands. */
  datatype Failing =
    | Idle
    | SendFailed(f: Failure)     // send failed, status not yet written
    | Burying(f: Failure)    // status failed written, dead letter not yet
    | Delaying(f: Failure)   // status queued written, message not yet delayed
    | Acking(f: Failure)     // single ack not yet done

  datatype Phase =
    | Popped(at: Time)       // ZPOPMIN done at time `at`, ZADD processing not yet
    | Waiting                // in the pool channel or about to claim
    | Sending(todo: seq<Claim>, sent: seq<Receipt>, cur: Failing)
    | Finishing              // final ack not yet done

  /** One dequeued batch and the goroutine that owns it. */
  datatype Task = Task(ch: Channel, msgs: seq<Message>, phase: Phase)

  /** `cancels` holds cancel requests that have read a cancellable status and not yet written;
      `sends` and `delivered` count the provider calls and the successful ones. */
  datatype State = State(st: Store, tasks: map<TaskId, Task>, cancels: multiset<Id>, now: Time, visibility: nat,
                         sends: multiset<Id>, delivered: multiset<Id>)

  datatype Action =
    | Create(id: Id, channel: Channel, priority: Priority)
    | CreateUnqueued(id: Id, channel: Channel, priority: Priority)   // the ZADD failed; only logged
    | CreateScheduled(id: Id, channel: Channel, priority: Priority, at: Time)
    | CancelRead(id: Id)
    | CancelWrite(id: Id)
    | CancelNow(id: Id)
    | ScheduleDue(id: Id)
    | Promote(m: Message)
    | Reclaim(channel: Channel, m: Message)
    | Pop(t: TaskId, channel: Channel, msgs: seq<Message>)
    | Mark(t: TaskId, at: Time)
    | ClaimBatch(t: TaskId, order: seq<Id>)
    | Send(t: TaskId, out: Outcome)
    | WriteFailure(t: TaskId)
    | Bury(t: TaskId)
    | Delay(t: TaskId, delay: nat)
    | AckOne(t: TaskId)
    | RecordSent(t: TaskId)
    | AckAll(t: TaskId)
    | Crash(t: TaskId)
    | Tick(elapsed: nat)

  ghost predicate Init(s: State) {
    && s.st == Store(map[], [], EMPTY_SETS, EMPTY_SETS, map[])
    && s.tasks == map[] && s.cancels == multiset{} && s.sends == multiset{} && s.delivered == multiset{}
  }

  /** msgMap[id] of ProcessBatch: the last message of the batch with that id. */
  function MsgFor(ms: seq<Message>, id: Id): Option<Message> {
    if ms == [] then None
    else if ms[|ms| - 1].id == id then Some(ms[|ms| - 1])
    else MsgFor(ms[..|ms| - 1], id)
  }

  // ---- requests of the API ----

  function NewRow(ch: Channel, p: Priority, st: Status, at: Option<Time>): Row {
    Row(ch, p, st, at, 0, MAX_ATTEMPTS, None, None)
  }

  /** Create: insert as pending, ZADD, status queued. */
  function DoCreate(s: State, id: Id, ch: Channel, p: Priority): State {
    s.(st := s.st.(rows := SetStatus(s.st.rows[id := NewRow(ch, p, Pending, None)], id, Queued),
                   queue := Enqueue(s.st.queue, Message(id, ch, p, None), s.now)))
  }

  function DoInsert(s: State, id: Id, row: Row): State {
    s.(st := s.st.(rows := s.st.rows[id := row]))
  }

  predicate CanCancel(s: State, id: Id) {
    id in s.st.rows && Cancellable(s.st.rows[id].status)
  }

  /** The write of a cancel, whatever the status is by then. */
  function DoCancel(s: State, id: Id): State {
    s.(st := s.st.(rows := SetStatus(s.st.rows, id, Cancelled)))
  }

  // ---- the scheduler ----

  predicate CanSchedule(s: State, id: Id) {
    && id in s.st.rows && s.st.rows[id].status == Scheduled
    && s.st.rows[id].scheduledAt.Some? && s.st.rows[id].scheduledAt.value <= s.now
  }

  function DoSchedule(s: State, id: Id): State
    requires id in s.st.rows
  {
    var m := Message(id, s.st.rows[id].channel, s.st.rows[id].priority, None);
    s.(st := s.st.(rows := SetStatus(s.st.rows, id, Queued), queue := Enqueue(s.st.queue, m, s.now)))
  }

  function DoPromote(s: State, m: Message): State {
    s.(st := s.st.(queue := Enqueue(s.st.queue, m, s.now), delayed := s.st.delayed - {m}))
  }

  function DoReclaim(s: State, ch: Channel, m: Message): State {
    s.(st := s.st.(queue := Enqueue(s.st.queue, m, s.now), processing := Ack(s.st.processing, ch, [m])))
  }

  // ---- a worker task ----

  function SetPhase(tasks: map<TaskId, Task>, t: TaskId, ph: Phase): map<TaskId, Task>
    requires t in tasks
  {
    tasks[t := tasks[t].(phase := ph)]
  }

  predicate SendingAt(s: State, t: TaskId) {
    t in s.tasks && s.tasks[t].phase.Sending?
  }

  ghost predicate CanPop(s: State, t: TaskId, ch: Channel, msgs: seq<Message>) {
    t !in s.tasks && msgs != [] && Pops(s.st.queue[ch], msgs)
  }

  /** DequeueBatch, first half: ZPOPMIN. */
  function DoPop(s: State, t: TaskId, ch: Channel, msgs: seq<Message>): State {
    s.(st := s.st.(queue := s.st.queue[ch := s.st.queue[ch] - Members(msgs)]),
       tasks := s.tasks[t := Task(ch, msgs, Popped(s.now))])
  }

  predicate CanMark(s: State, t: TaskId, at: Time) {
    t in s.tasks && s.tasks[t].phase.Popped? && s.tasks[t].phase.at <= at <= s.now
  }

  /** DequeueBatch, second half: the ZADDs, with a deadline computed from a clock reading after the pop. */
  function DoMark(s: State, t: TaskId, at: Time): State
    requires t in s.tasks
  {
    var k := s.tasks[t];
    var deadline := Float64.F64(at + s.visibility);
    s.(st := s.st.(processing := s.st.processing[k.ch := AddAll(s.st.processing[k.ch], k.msgs, deadline)]),
       tasks := SetPhase(s.tasks, t, Waiting))
  }

  ghost predicate CanClaim(s: State, t: TaskId, order: seq<Id>) {
    && t in s.tasks && s.tasks[t].phase.Waiting?
    && IsClaimOrder(s.st.rows, Ids(s.tasks[t].msgs), order)
  }

  /** GetAndMarkProcessingBatch, rows returned in any order; a batch in which nothing is claimable
      is dropped without an ack. */
  ghost function DoClaim(s: State, t: TaskId, order: seq<Id>): State
    requires CanClaim(s, t, order)
  {
    var rows := ClaimRows(s.st.rows, Ids(s.tasks[t].msgs));
    s.(st := s.st.(rows := rows),
       tasks := if order == [] then s.tasks - {t} else SetPhase(s.tasks, t, Sending(Claims(rows, order), [], Idle)))
  }

  function Claims(rows: Table, order: seq<Id>): seq<Claim>
    requires forall id :: id in order ==> id in rows
  {
    seq(|order|, i requires 0 <= i < |order| => assert order[i] in order; ClaimOf(rows, order[i]))
  }

  predicate CanSend(s: State, t: TaskId) {
    SendingAt(s, t) && s.tasks[t].phase.cur == Idle && s.tasks[t].phase.todo != []
  }

  /** One turn of the send loop: the first claim is sent, or becomes the failure in hand. */
  function AfterSend(ph: Phase, out: Outcome): Phase
    requires ph.Sending? && ph.todo != []
  {
    var c := ph.todo[0];
    match out
    case Delivered(id) => Sending(ph.todo[1..], ph.sent + [Receipt(c.id, id)], Idle)
    case Errored(err) => Sending(ph.todo[1..], ph.sent, SendFailed(Failure(c.id, c.attempts + 1, c.maxAttempts, err)))
  }

  function DoSend(s: State, t: TaskId, out: Outcome): State
    requires CanSend(s, t)
  {
    var id := s.tasks[t].phase.todo[0].id;
    s.(tasks := SetPhase(s.tasks, t, AfterSend(s.tasks[t].phase, out)),
       sends := s.sends + multiset{id},
       delivered := if out.Delivered? then s.delivered + multiset{id} else s.delivered)
  }

  predicate CanWriteFailure(s: State, t: TaskId) {
    SendingAt(s, t) && s.tasks[t].phase.cur.SendFailed?
  }

  predicate LastAttempt(f: Failure) {
    f.attempts >= f.maxAttempts
  }

  /** UpdateStatusWithError, with status failed at the last attempt and queued before. */
  function DoWriteFailure(s: State, t: TaskId): State
    requires CanWriteFailure(s, t)
  {
    var ph := s.tasks[t].phase;
    var f := ph.cur.f;
    var rows := SetFailure(s.st.rows, f.id, if LastAttempt(f) then Failed else Queued, f.err, f.attempts);
    s.(st := s.st.(rows := rows),
       tasks := SetPhase(s.tasks, t, ph.(cur := if LastAttempt(f) then Burying(f) else Delaying(f))))
  }

  predicate CanBury(s: State, t: TaskId) {
    SendingAt(s, t) && s.tasks[t].phase.cur.Burying?
  }

  function DoBury(s: State, t: TaskId): State
    requires CanBury(s, t)
  {
    var ph := s.tasks[t].phase;
    var f := ph.cur.f;
    s.(st := s.st.(dead := s.st.dead + [DeadLetter(f.id, f.err, f.attempts)]),
       tasks := SetPhase(s.tasks, t, ph.(cur := Acking(f))))
  }

  predicate CanDelay(s: State, t: TaskId) {
    SendingAt(s, t) && s.tasks[t].phase.cur.Delaying?
  }

  function DoDelay(s: State, t: TaskId, delay: nat): State
    requires CanDelay(s, t)
  {
    var ph := s.tasks[t].phase;
    var m := MsgFor(s.tasks[t].msgs, ph.cur.f.id);
    s.(st := if m.Some? then s.st.(delayed := EnqueueDelayed(s.st.delayed, m.value, s.now, delay)) else s.st,
       tasks := SetPhase(s.tasks, t, ph.(cur := Acking(ph.cur.f))))
  }

  predicate CanAckOne(s: State, t: TaskId) {
    SendingAt(s, t) && s.tasks[t].phase.cur.Acking?
  }

  function DoAckOne(s: State, t: TaskId): State
    requires CanAckOne(s, t)
  {
    var ph := s.tasks[t].phase;
    var m := MsgFor(s.tasks[t].msgs, ph.cur.f.id);
    s.(st := if m.Some? then s.st.(processing := Ack(s.st.processing, m.value.channel, [m.value])) else s.st,
       tasks := SetPhase(s.tasks, t, ph.(cur := Idle)))
  }

  predicate CanRecordSent(s: State, t: TaskId) {
    SendingAt(s, t) && s.tasks[t].phase.cur == Idle && s.tasks[t].phase.todo == []
  }

  /** UpdateBatchSent. */
  function DoRecordSent(s: State, t: TaskId): State
    requires CanRecordSent(s, t)
  {
    s.(st := s.st.(rows := MarkSent(s.st.rows, s.tasks[t].phase.sent)), tasks := SetPhase(s.tasks, t, Finishing))
  }

  predicate CanAckAll(s: State, t: TaskId) {
    t in s.tasks && s.tasks[t].phase.Finishing?
  }

  function DoAckAll(s: State, t: TaskId): State
    requires CanAckAll(s, t)
  {
    var ms := s.tasks[t].msgs;
    s.(st := if ms == [] then s.st else s.st.(processing := Ack(s.st.processing, ms[0].channel, ms)),
       tasks := s.tasks - {t})
  }

  function DoCrash(s: State, t: TaskId): State {
    s.(tasks := s.tasks - {t})
  }

  // ---- all of them ----

  ghost predicate Enabled(s: State, a: Action) {
    match a
    case Create(id, _, _) => id !in s.st.rows
    case CreateUnqueued(id, _, _) => id !in s.st.rows
    case CreateScheduled(id, _, _, _) => id !in s.st.rows
    case CancelRead(id) => CanCancel(s, id)
    case CancelWrite(id) => id in s.cancels
    case CancelNow(id) => CanCancel(s, id)
    case ScheduleDue(id) => CanSchedule(s, id)
    case Promote(m) => Due(s.st.delayed, m, s.now)
    case Reclaim(ch, m) => Due(s.st.processing[ch], m, s.now)
    case Pop(t, ch, msgs) => CanPop(s, t, ch, msgs)
    case Mark(t, at) => CanMark(s, t, at)
    case ClaimBatch(t, order) => CanClaim(s, t, order)
    case Send(t, _) => CanSend(s, t)
    case WriteFailure(t) => CanWriteFailure(s, t)
    case Bury(t) => CanBury(s, t)
    case Delay(t, _) => CanDelay(s, t)
    case AckOne(t) => CanAckOne(s, t)
    case RecordSent(t) => CanRecordSent(s, t)
    case AckAll(t) => CanAckAll(s, t)
    case Crash(t) => t in s.tasks
    case Tick(_) => true
  }

  /** The state after a; used only where a is enabled. */
  ghost function Next(s: State, a: Action): State {
    match a
    case Create(id, ch, p) => DoCreate(s, id, ch, p)
    case CreateUnqueued(id, ch, p) => DoInsert(s, id, NewRow(ch, p, Pending, None))
    case CreateScheduled(id, ch, p, at) => DoInsert(s, id, NewRow(ch, p, Scheduled, Some(at)))
    case CancelRead(id) => s.(cancels := s.cancels + multiset{id})
    case CancelWrite(id) => DoCancel(s, id).(cancels := s.cancels - multiset{id})
    case CancelNow(id) => DoCancel(s, id)
    case ScheduleDue(id) => if CanSchedule(s, id) then DoSchedule(s, id) else s
    case Promote(m) => DoPromote(s, m)
    case Reclaim(ch, m) => DoReclaim(s, ch, m)
    case Pop(t, ch, msgs) => DoPop(s, t, ch, msgs)
    case Mark(t, at) => if CanMark(s, t, at) then DoMark(s, t, at) else s
    case ClaimBatch(t, order) => if CanClaim(s, t, order) then DoClaim(s, t, order) else s
    case Send(t, out) => if CanSend(s, t) then DoSend(s, t, out) else s
    case WriteFailure(t) => if CanWriteFailure(s, t) then DoWriteFailure(s, t) else s
    case Bury(t) => if CanBury(s, t) then DoBury(s, t) else s
    case Delay(t, delay) => if CanDelay(s, t) then DoDelay(s, t, delay) else s
    case AckOne(t) => if CanAckOne(s, t) then DoAckOne(s, t) else s
    case RecordSent(t) => if CanRecordSent(s, t) then DoRecordSent(s, t) else s
    case AckAll(t) => if CanAckAll(s, t) then DoAckAll(s, t) else s
    case Crash(t) => DoCrash(s, t)
    case Tick(elapsed) => s.(now := s.now + elapsed)
  }

  /** Steps of a worker task, as opposed to the API, the scheduler and the clock. */
  predicate IsWork(a: Action) {
    a.Pop? || a.Mark? || a.ClaimBatch? || a.Send? || a.WriteFailure? || a.Bury? || a.Delay? || a.AckOne?
    || a.RecordSent? || a.AckAll? || a.Crash?
  }

  /** A run from an initial state. */
  ghost predicate Run(states: seq<State>, acts: seq<Action>) {
    && |states| == |acts| + 1
    && Init(states[0])
    && forall i :: 0 <= i < |acts| ==> Enabled(states[i], acts[i]) && states[i + 1] == Next(states[i], acts[i])
  }
}
