/** ProcessBatch, run to its end with nobody interfering, is a path of the transition system: every statement of
    its loop is one of the pipeline's steps, in the code's order. */
module BatchRun {
  import opened Domain
  import opened Databases
  import opened Pipeline
  import opened WellFormed
  import opened Processing
  import opened Runs

  /** s' differs from s in the store, in task t and in the send counters only. */
  ghost predicate OnlyTask(s: State, s': State, t: TaskId) {
    && s'.now == s.now && s'.visibility == s.visibility && s'.cancels == s.cancels
    && forall u :: u != t ==> (u in s'.tasks <==> u in s.tasks) && (u in s.tasks ==> s'.tasks[u] == s.tasks[u])
  }

  ghost predicate At(s: State, t: TaskId, k: Task) {
    t in s.tasks && s.tasks[t] == k
  }

  function Hold(ch: Channel, ms: seq<Message>, todo: seq<Claim>, sent: seq<Receipt>, cur: Failing): Task {
    Task(ch, ms, Sending(todo, sent, cur))
  }

  function FailureOf(n: Claim, err: string): Failure {
    Failure(n.id, n.attempts + 1, n.maxAttempts, err)
  }

  lemma SendFails(s: State, t: TaskId, k: Task, err: string)
    requires At(s, t, k) && k.phase.Sending? && k.phase.cur == Idle && k.phase.todo != []
    ensures CanSend(s, t) && OnlyTask(s, DoSend(s, t, Errored(err)), t) && DoSend(s, t, Errored(err)).st == s.st
    ensures At(DoSend(s, t, Errored(err)), t,
               Hold(k.ch, k.msgs, k.phase.todo[1..], k.phase.sent, SendFailed(FailureOf(k.phase.todo[0], err))))
  {
  }

  lemma SendDelivers(s: State, t: TaskId, k: Task, id: string)
    requires At(s, t, k) && k.phase.Sending? && k.phase.cur == Idle && k.phase.todo != []
    ensures CanSend(s, t) && OnlyTask(s, DoSend(s, t, Delivered(id)), t) && DoSend(s, t, Delivered(id)).st == s.st
    ensures At(DoSend(s, t, Delivered(id)), t,
               Hold(k.ch, k.msgs, k.phase.todo[1..], k.phase.sent + [Receipt(k.phase.todo[0].id, id)], Idle))
  {
  }

  lemma WriteTurn(s: State, t: TaskId, k: Task)
    requires At(s, t, k) && k.phase.Sending? && k.phase.cur.SendFailed?
    ensures CanWriteFailure(s, t) && OnlyTask(s, DoWriteFailure(s, t), t)
    ensures var f := k.phase.cur.f;
      && At(DoWriteFailure(s, t), t, k.(phase := k.phase.(cur := if LastAttempt(f) then Burying(f) else Delaying(f))))
      && DoWriteFailure(s, t).st ==
           s.st.(rows := SetFailure(s.st.rows, f.id, if LastAttempt(f) then Failed else Queued, f.err, f.attempts))
  {
  }

  lemma BuryTurn(s: State, t: TaskId, k: Task)
    requires At(s, t, k) && k.phase.Sending? && k.phase.cur.Burying?
    ensures CanBury(s, t) && OnlyTask(s, DoBury(s, t), t)
    ensures At(DoBury(s, t), t, k.(phase := k.phase.(cur := Acking(k.phase.cur.f))))
    ensures DoBury(s, t).st == s.st.(dead := s.st.dead + [DeadLetter(k.phase.cur.f.id, k.phase.cur.f.err, k.phase.cur.f.attempts)])
  {
  }

  lemma DelayTurn(s: State, t: TaskId, k: Task, m: Message, delay: nat)
    requires At(s, t, k) && k.phase.Sending? && k.phase.cur.Delaying? && MsgFor(k.msgs, k.phase.cur.f.id) == Some(m)
    ensures CanDelay(s, t) && OnlyTask(s, DoDelay(s, t, delay), t)
    ensures At(DoDelay(s, t, delay), t, k.(phase := k.phase.(cur := Acking(k.phase.cur.f))))
    ensures DoDelay(s, t, delay).st == s.st.(delayed := EnqueueDelayed(s.st.delayed, m, s.now, delay))
  {
  }

  lemma AckTurn(s: State, t: TaskId, k: Task, m: Message)
    requires At(s, t, k) && k.phase.Sending? && k.phase.cur.Acking? && MsgFor(k.msgs, k.phase.cur.f.id) == Some(m)
    ensures CanAckOne(s, t) && OnlyTask(s, DoAckOne(s, t), t)
    ensures At(DoAckOne(s, t), t, k.(phase := k.phase.(cur := Idle)))
    ensures DoAckOne(s, t).st == s.st.(processing := Ack(s.st.processing, m.channel, [m]))
  {
  }

  function StoreAfter(st: Store, n: Claim, m: Message, err: string, now: Time, delay: nat): Store {
    Store(FailRows(st.rows, n, err), FailDead(st.dead, n, err), st.queue, Ack(st.processing, m.channel, [m]),
          if Last(n) then st.delayed else EnqueueDelayed(st.delayed, m, now, delay))
  }

  /** A path of any length, then one more step. */
  lemma Then(s: State, acts: seq<Action>, s1: State, t: TaskId, a: Action) returns (acts': seq<Action>)
    requires Path(Enabled, Next, s, acts, s1) && OnlyTask(s, s1, t) && Enabled(s1, a) && OnlyTask(s1, Next(s1, a), t)
    ensures Path(Enabled, Next, s, acts', Next(s1, a)) && OnlyTask(s, Next(s1, a), t)
  {
    PathThen(Enabled, Next, s, acts, s1, a);
    acts' := acts + [a];
  }

  /** Send, status write, dead letter or delay, ack: one failed turn of the loop. */
  lemma FailedTurn(s: State, t: TaskId, k: Task, m: Message, err: string, delay: nat) returns (acts: seq<Action>, s': State)
    requires At(s, t, k) && k.phase.Sending? && k.phase.cur == Idle && k.phase.todo != []
    requires MsgFor(k.msgs, k.phase.todo[0].id) == Some(m)
    ensures Path(Enabled, Next, s, acts, s') && OnlyTask(s, s', t)
    ensures At(s', t, Hold(k.ch, k.msgs, k.phase.todo[1..], k.phase.sent, Idle))
    ensures s'.st == StoreAfter(s.st, k.phase.todo[0], m, err, s.now, delay)
  {
    var f := FailureOf(k.phase.todo[0], err);
    var k1 := Hold(k.ch, k.msgs, k.phase.todo[1..], k.phase.sent, SendFailed(f));
    SendFails(s, t, k, err);
    acts := Then(s, [], s, t, Send(t, Errored(err)));
    s' := DoSend(s, t, Errored(err));
    WriteTurn(s', t, k1);
    acts := Then(s, acts, s', t, WriteFailure(t));
    s' := DoWriteFailure(s', t);
    acts, s' := FailedRest(s, acts, s', t, k1.(phase := k1.phase.(cur := if LastAttempt(f) then Burying(f) else Delaying(f))), m, delay);
  }

  lemma FailedRest(s: State, acts: seq<Action>, s2: State, t: TaskId, k: Task, m: Message, delay: nat)
    returns (acts': seq<Action>, s': State)
    requires Path(Enabled, Next, s, acts, s2) && OnlyTask(s, s2, t)
    requires At(s2, t, k) && k.phase.Sending? && (k.phase.cur.Burying? || k.phase.cur.Delaying?)
    requires MsgFor(k.msgs, k.phase.cur.f.id) == Some(m)
    ensures Path(Enabled, Next, s, acts', s') && OnlyTask(s, s', t) && At(s', t, k.(phase := k.phase.(cur := Idle)))
    ensures var f := k.phase.cur.f;
      s'.st == s2.st.(dead := if k.phase.cur.Burying? then s2.st.dead + [DeadLetter(f.id, f.err, f.attempts)] else s2.st.dead,
                      delayed := if k.phase.cur.Delaying? then EnqueueDelayed(s2.st.delayed, m, s.now, delay) else s2.st.delayed,
                      processing := Ack(s2.st.processing, m.channel, [m]))
  {
    if k.phase.cur.Burying? {
      BuryTurn(s2, t, k);
      acts' := Then(s, acts, s2, t, Bury(t));
      s' := DoBury(s2, t);
    } else {
      DelayTurn(s2, t, k, m, delay);
      acts' := Then(s, acts, s2, t, Delay(t, delay));
      s' := DoDelay(s2, t, delay);
    }
    AckTurn(s', t, k.(phase := k.phase.(cur := Acking(k.phase.cur.f))), m);
    acts' := Then(s, acts', s', t, AckOne(t));
    s' := DoAckOne(s', t);
  }

  function LoopStore(st: Store, todo: seq<Claim>, ms: seq<Message>, env: Env): Store {
    Store(LoopRows(st.rows, todo, env), LoopDead(st.dead, todo, env), st.queue, LoopAck(st.processing, todo, ms, env),
          LoopDelayed(st.delayed, todo, ms, env))
  }

  function TurnStore(st: Store, n: Claim, m: Message, env: Env): Store {
    match env.send(n.id)
    case Errored(err) => StoreAfter(st, n, m, err, env.now, env.delay(n.id, n.attempts + 1))
    case Delivered(_) => st
  }

  function DelayOf(n: Claim, env: Env): nat {
    env.delay(n.id, n.attempts + 1)
  }

  lemma TurnStoreFails(st: Store, n: Claim, m: Message, env: Env)
    requires env.send(n.id).Errored?
    ensures TurnStore(st, n, m, env) == StoreAfter(st, n, m, env.send(n.id).err, env.now, DelayOf(n, env))
  {
  }

  lemma LoopStoreCons(st: Store, todo: seq<Claim>, ms: seq<Message>, m: Message, env: Env)
    requires todo != [] && MsgFor(ms, todo[0].id) == Some(m)
    ensures LoopStore(st, todo, ms, env) == LoopStore(TurnStore(st, todo[0], m, env), todo[1..], ms, env)
  {
  }

  /** The receipts grow by the first claim's, if it was delivered. */
  function TurnSent(sent: seq<Receipt>, n: Claim, env: Env): seq<Receipt> {
    if env.send(n.id).Delivered? then sent + [Receipt(n.id, env.send(n.id).msgId)] else sent
  }

  lemma ReceiptsCons(sent: seq<Receipt>, todo: seq<Claim>, env: Env)
    requires todo != []
    ensures TurnSent(sent, todo[0], env) + Receipts(todo[1..], env) == sent + Receipts(todo, env)
  {
  }

  lemma OneTurn(s: State, t: TaskId, k: Task, m: Message, env: Env) returns (acts: seq<Action>, s': State)
    requires At(s, t, k) && k.phase.Sending? && k.phase.cur == Idle && k.phase.todo != [] && env.now == s.now
    requires MsgFor(k.msgs, k.phase.todo[0].id) == Some(m)
    ensures Path(Enabled, Next, s, acts, s') && OnlyTask(s, s', t)
    ensures At(s', t, Hold(k.ch, k.msgs, k.phase.todo[1..], TurnSent(k.phase.sent, k.phase.todo[0], env), Idle))
    ensures s'.st == TurnStore(s.st, k.phase.todo[0], m, env)
  {
    if env.send(k.phase.todo[0].id).Errored? {
      var delay: nat := DelayOf(k.phase.todo[0], env);
      TurnStoreFails(s.st, k.phase.todo[0], m, env);
      acts, s' := FailedTurn(s, t, k, m, env.send(k.phase.todo[0].id).err, delay);
    } else {
      acts, s' := DeliveredTurn(s, t, k, env.send(k.phase.todo[0].id).msgId);
    }
  }

  lemma DeliveredTurn(s: State, t: TaskId, k: Task, id: string) returns (acts: seq<Action>, s': State)
    requires At(s, t, k) && k.phase.Sending? && k.phase.cur == Idle && k.phase.todo != []
    ensures Path(Enabled, Next, s, acts, s') && OnlyTask(s, s', t) && s'.st == s.st
    ensures At(s', t, Hold(k.ch, k.msgs, k.phase.todo[1..], k.phase.sent + [Receipt(k.phase.todo[0].id, id)], Idle))
  {
    SendDelivers(s, t, k, id);
    acts := Then(s, [], s, t, Send(t, Delivered(id)));
    s' := DoSend(s, t, Delivered(id));
  }

  /** The whole send loop. */
  lemma {:induction false} LoopIsAPath(s: State, t: TaskId, k: Task, env: Env) returns (acts: seq<Action>, s': State)
    requires At(s, t, k) && k.phase.Sending? && k.phase.cur == Idle && env.now == s.now
    requires forall i :: 0 <= i < |k.phase.todo| ==> HasId(k.msgs, k.phase.todo[i].id)
    ensures Path(Enabled, Next, s, acts, s') && OnlyTask(s, s', t)
    ensures At(s', t, Hold(k.ch, k.msgs, [], k.phase.sent + Receipts(k.phase.todo, env), Idle))
    ensures s'.st == LoopStore(s.st, k.phase.todo, k.msgs, env)
    decreases |k.phase.todo|
  {
    var todo, sent := k.phase.todo, k.phase.sent;
    if todo == [] {
      acts, s' := [], s;
      assert sent + [] == sent;
    } else {
      MsgForFinds(k.msgs, todo[0].id);
      var m := MsgFor(k.msgs, todo[0].id).value;
      var first, s1 := OneTurn(s, t, k, m, env);
      var k1 := Hold(k.ch, k.msgs, todo[1..], TurnSent(sent, todo[0], env), Idle);
      var rest;
      rest, s' := LoopIsAPath(s1, t, k1, env);
      LoopStoreCons(s.st, todo, k.msgs, m, env);
      ReceiptsCons(sent, todo, env);
      PathTrans(Enabled, Next, s, first, s1, rest, s');
      acts := first + rest;
    }
  }

  /** The store Batch leaves behind. */
  lemma BatchStore(sys: Sys, ms: seq<Message>, order: seq<Id>, env: Env)
    requires IsClaimOrder(sys.st.rows, Ids(ms), order) && order != []
    requires forall id :: id in order ==> id in sys.st.rows
    ensures ms != []
    ensures var st1 := LoopStore(sys.st.(rows := ClaimRows(sys.st.rows, Ids(ms))), Claims(sys.st.rows, order), ms, env);
      Batch(sys, ms, order, env).st ==
        st1.(rows := MarkSent(st1.rows, Receipts(Claims(sys.st.rows, order), env)),
             processing := Ack(st1.processing, ms[0].channel, ms))
  {
    OrderInRows(sys.st.rows, ms, order);
    LoopIs(sys.(st := sys.st.(rows := ClaimRows(sys.st.rows, Ids(ms)))), Claims(sys.st.rows, order), ms, env);
  }

  lemma ClaimTurn(s: State, t: TaskId, k: Task, order: seq<Id>)
    requires At(s, t, k) && k.phase.Waiting? && order != [] && IsClaimOrder(s.st.rows, Ids(k.msgs), order)
    ensures CanClaim(s, t, order) && OnlyTask(s, DoClaim(s, t, order), t)
    ensures forall id :: id in order ==> id in s.st.rows
    ensures At(DoClaim(s, t, order), t, Hold(k.ch, k.msgs, Claims(s.st.rows, order), [], Idle))
    ensures DoClaim(s, t, order).st == s.st.(rows := ClaimRows(s.st.rows, Ids(k.msgs)))
  {
    OrderInRows(s.st.rows, k.msgs, order);
    var rows := ClaimRows(s.st.rows, Ids(k.msgs));
    forall i | 0 <= i < |order| ensures Claims(rows, order)[i] == Claims(s.st.rows, order)[i] { assert order[i] in order; }
    assert Claims(rows, order) == Claims(s.st.rows, order);
  }

  lemma ClaimHasIds(rows: Table, ms: seq<Message>, order: seq<Id>)
    requires IsClaimOrder(rows, Ids(ms), order) && forall id :: id in order ==> id in rows
    ensures forall i :: 0 <= i < |order| ==> HasId(ms, Claims(rows, order)[i].id)
  {
    forall i | 0 <= i < |order| ensures HasId(ms, Claims(rows, order)[i].id) {
      assert order[i] in order && order[i] in Claimed(rows, Ids(ms));
      var m :| m in ms && m.id == order[i];
    }
  }

  lemma LastTurns(s: State, t: TaskId, k: Task)
    requires At(s, t, k) && k.phase.Sending? && k.phase.cur == Idle && k.phase.todo == [] && k.msgs != []
    ensures CanRecordSent(s, t) && OnlyTask(s, DoRecordSent(s, t), t) && CanAckAll(DoRecordSent(s, t), t)
    ensures var s' := DoAckAll(DoRecordSent(s, t), t);
      && OnlyTask(s, s', t) && t !in s'.tasks
      && s'.st == s.st.(rows := MarkSent(s.st.rows, k.phase.sent), processing := Ack(s.st.processing, k.msgs[0].channel, k.msgs))
  {
  }

  /** A waiting task that claims in the given order and meets the given outcomes can run to its end, and the
      store is then the one ProcessBatch computes; nobody else's state has changed. */
  lemma BatchIsAPath(s: State, t: TaskId, order: seq<Id>, sys: Sys, env: Env) returns (acts: seq<Action>, s': State)
    requires t in s.tasks && s.tasks[t].phase.Waiting? && sys.st == s.st && env.now == s.now
    requires IsClaimOrder(s.st.rows, Ids(s.tasks[t].msgs), order)
    ensures Path(Enabled, Next, s, acts, s') && OnlyTask(s, s', t) && t !in s'.tasks
    ensures s'.st == Batch(sys, s.tasks[t].msgs, order, env).st
  {
    if order == [] {
      acts, s' := NothingClaimed(s, t);
    } else {
      var s2, receipts;
      acts, s2, receipts := ClaimAndLoop(s, t, s.tasks[t], order, env);
      acts, s' := Finish(s, acts, s2, t, Hold(s.tasks[t].ch, s.tasks[t].msgs, [], receipts, Idle));
      BatchStore(sys, s.tasks[t].msgs, order, env);
    }
  }

  lemma ClaimAndLoop(s: State, t: TaskId, k: Task, order: seq<Id>, env: Env)
    returns (acts: seq<Action>, s2: State, receipts: seq<Receipt>)
    requires At(s, t, k) && k.phase.Waiting? && env.now == s.now && order != [] && IsClaimOrder(s.st.rows, Ids(k.msgs), order)
    ensures k.msgs != [] && forall id :: id in order ==> id in s.st.rows
    ensures receipts == Receipts(Claims(s.st.rows, order), env)
    ensures Path(Enabled, Next, s, acts, s2) && OnlyTask(s, s2, t) && At(s2, t, Hold(k.ch, k.msgs, [], receipts, Idle))
    ensures s2.st == LoopStore(s.st.(rows := ClaimRows(s.st.rows, Ids(k.msgs))), Claims(s.st.rows, order), k.msgs, env)
  {
    OrderInRows(s.st.rows, k.msgs, order);
    ClaimTurn(s, t, k, order);
    ClaimHasIds(s.st.rows, k.msgs, order);
    var first := Then(s, [], s, t, ClaimBatch(t, order));
    var s1 := DoClaim(s, t, order);
    var loop;
    loop, s2 := LoopIsAPath(s1, t, Hold(k.ch, k.msgs, Claims(s.st.rows, order), [], Idle), env);
    PathTrans(Enabled, Next, s, first, s1, loop, s2);
    acts := first + loop;
    receipts := Receipts(Claims(s.st.rows, order), env);
    assert [] + receipts == receipts;
  }

  lemma Finish(s: State, acts: seq<Action>, s2: State, t: TaskId, k: Task) returns (acts': seq<Action>, s': State)
    requires Path(Enabled, Next, s, acts, s2) && OnlyTask(s, s2, t)
    requires At(s2, t, k) && k.phase.Sending? && k.phase.cur == Idle && k.phase.todo == [] && k.msgs != []
    ensures Path(Enabled, Next, s, acts', s') && OnlyTask(s, s', t) && t !in s'.tasks
    ensures s'.st == s2.st.(rows := MarkSent(s2.st.rows, k.phase.sent),
                            processing := Ack(s2.st.processing, k.msgs[0].channel, k.msgs))
  {
    LastTurns(s2, t, k);
    acts' := Then(s, acts, s2, t, RecordSent(t));
    var s3 := DoRecordSent(s2, t);
    acts' := Then(s, acts', s3, t, AckAll(t));
    s' := DoAckAll(s3, t);
  }

  lemma NothingClaimed(s: State, t: TaskId) returns (acts: seq<Action>, s': State)
    requires t in s.tasks && s.tasks[t].phase.Waiting? && IsClaimOrder(s.st.rows, Ids(s.tasks[t].msgs), [])
    ensures Path(Enabled, Next, s, acts, s') && OnlyTask(s, s', t) && t !in s'.tasks && s'.st == s.st
  {
    NoneClaimed(s.st.rows, s.tasks[t].msgs);
    acts, s' := [ClaimBatch(t, [])], DoClaim(s, t, []);
    PathOne(Enabled, Next, s, ClaimBatch(t, []));
  }

  lemma NoneClaimed(rows: Table, ms: seq<Message>)
    requires IsClaimOrder(rows, Ids(ms), [])
    ensures ClaimRows(rows, Ids(ms)) == rows
  {
    forall id | id in rows && id in Ids(ms) ensures !Claimable(rows[id].status) {
      assert id !in [];
      assert id !in Claimed(rows, Ids(ms));
    }
  }

  // ---- the dequeue before it ----

  function Dequeued(st: Store, ch: Channel, ms: seq<Message>, deadline: Time): Store {
    st.(queue := st.queue[ch := st.queue[ch] - Members(ms)],
        processing := Marked(st.processing, ch, ms, deadline))
  }

  /** s' has the sets that the contract of DequeueBatch names, and t holds the batch. */
  ghost predicate Dequeues(s: State, s': State, t: TaskId, ch: Channel, ms: seq<Message>) {
    && s'.st == Dequeued(s.st, ch, ms, s.now + s.visibility)
    && At(s', t, Task(ch, ms, Waiting)) && OnlyTask(s, s', t)
  }

  /** DequeueBatch is a pop and then a mark: together they leave the sets its contract names, and a waiting batch. */
  lemma DequeueIsAPath(s: State, t: TaskId, ch: Channel, ms: seq<Message>) returns (s': State)
    requires CanPop(s, t, ch, ms)
    ensures Path(Enabled, Next, s, [Pop(t, ch, ms)] + [Mark(t, s.now)], s')
    ensures Dequeues(s, s', t, ch, ms)
  {
    var s1 := DoPop(s, t, ch, ms);
    PopThenMark(s, t, ch, ms);
    PathOne(Enabled, Next, s, Pop(t, ch, ms));
    PathThen(Enabled, Next, s, [Pop(t, ch, ms)], s1, Mark(t, s.now));
    s' := DoMark(s1, t, s.now);
  }

  lemma PopThenMark(s: State, t: TaskId, ch: Channel, ms: seq<Message>)
    requires t !in s.tasks
    ensures var s1 := DoPop(s, t, ch, ms); CanMark(s1, t, s.now) && Dequeues(s, DoMark(s1, t, s.now), t, ch, ms)
  {
    PopThenMarkStore(s, t, ch, ms);
    PopThenMarkTask(s, t, ch, ms);
  }

  lemma PopThenMarkStore(s: State, t: TaskId, ch: Channel, ms: seq<Message>)
    requires t !in s.tasks
    ensures var s1 := DoPop(s, t, ch, ms);
      t in s1.tasks && DoMark(s1, t, s.now).st == Dequeued(s.st, ch, ms, s.now + s.visibility)
  {
    PopStore(s, t, ch, ms);
    MarkStore(DoPop(s, t, ch, ms), t, ch, ms, s.now, s.st);
  }

  lemma PopStore(s: State, t: TaskId, ch: Channel, ms: seq<Message>)
    requires t !in s.tasks
    ensures var s1 := DoPop(s, t, ch, ms);
      && s1.st == s.st.(queue := s.st.queue[ch := s.st.queue[ch] - Members(ms)]) && s1.visibility == s.visibility
      && At(s1, t, Task(ch, ms, Popped(s.now)))
  {
  }

  lemma MarkStore(s: State, t: TaskId, ch: Channel, ms: seq<Message>, at: Time, st: Store)
    requires t in s.tasks && s.tasks[t].ch == ch && s.tasks[t].msgs == ms
    requires s.st == st.(queue := st.queue[ch := st.queue[ch] - Members(ms)])
    ensures DoMark(s, t, at).st == Dequeued(st, ch, ms, at + s.visibility)
  {
    MarkSets(s, t, at);
  }

  lemma MarkSets(s: State, t: TaskId, at: Time)
    requires t in s.tasks
    ensures DoMark(s, t, at).st ==
      s.st.(processing := Marked(s.st.processing, s.tasks[t].ch, s.tasks[t].msgs, at + s.visibility))
  {
  }

  lemma PopThenMarkTask(s: State, t: TaskId, ch: Channel, ms: seq<Message>)
    requires t !in s.tasks
    ensures var s1 := DoPop(s, t, ch, ms);
      && CanMark(s1, t, s.now)
      && At(DoMark(s1, t, s.now), t, Task(ch, ms, Waiting)) && OnlyTask(s, DoMark(s1, t, s.now), t)
  {
  }
}
