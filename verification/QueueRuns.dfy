/** The queue of a channel along a run of the pipeline is a run of the priority queue: creates, due rows, promotions
    and reclaims are its puts, and a batch pop is as many takes. So messages leave the pipeline in that order. */
module QueueRuns {
  import opened Domain
  import opened Databases
  import opened Pipeline
  import PriorityOrder
  import Float64

  type Stamps = map<Message, Time>

  /** The message a step puts into the queue of its channel. */
  ghost function PutBy(s: State, a: Action): Option<Message> {
    match a
    case Create(id, ch, p) => Some(Message(id, ch, p, None))
    case ScheduleDue(id) => if id in s.st.rows then Some(MsgOf(s.st.rows, id)) else None
    case Promote(m) => Some(m)
    case Reclaim(_, m) => Some(m)
    case _ => None
  }

  predicate PopsFrom(a: Action, ch: Channel) {
    a.Pop? && a.channel == ch
  }

  ghost predicate PutsInto(s: State, a: Action, ch: Channel) {
    PutBy(s, a).Some? && PutBy(s, a).value.channel == ch
  }

  /** The stamps of queue:<ch> after a step. */
  ghost function Stamped(at: Stamps, s: State, a: Action, ch: Channel): Stamps {
    if PopsFrom(a, ch) then at - Members(a.msgs)
    else if PutsInto(s, a, ch) then at[PutBy(s, a).value := PriorityOrder.Stamp(PutBy(s, a).value, s.now)]
    else at
  }

  /** The stamp each message of queue:<ch> was scored with when it was last put there. */
  ghost function StampsAt(states: seq<State>, acts: seq<Action>, ch: Channel, i: nat): Stamps
    requires i < |states| <= |acts| + 1
  {
    if i == 0 then map[] else Stamped(StampsAt(states, acts, ch, i - 1), states[i - 1], acts[i - 1], ch)
  }

  /** Where nothing but the clock decides, the stamp of a message is the reading at its last put. */
  lemma StampIsTheReading(states: seq<State>, acts: seq<Action>, i: nat, m: Message)
    requires i < |acts| && |states| == |acts| + 1 && m.scheduledAt == None
    requires acts[i] in {Create(m.id, m.channel, m.priority), ScheduleDue(m.id), Promote(m), Reclaim(m.channel, m)}
    requires acts[i].ScheduleDue? ==> m.id in states[i].st.rows && m == MsgOf(states[i].st.rows, m.id)
    ensures m in StampsAt(states, acts, m.channel, i + 1) && StampsAt(states, acts, m.channel, i + 1)[m] == states[i].now
  {
  }

  lemma StampStays(states: seq<State>, acts: seq<Action>, i: nat, m: Message)
    requires i < |acts| && |states| == |acts| + 1 && (acts[i].Pop? ==> m !in acts[i].msgs)
    requires !acts[i].Create? && !acts[i].ScheduleDue? && !acts[i].Promote? && !acts[i].Reclaim?
    ensures var at, at' := StampsAt(states, acts, m.channel, i), StampsAt(states, acts, m.channel, i + 1);
      (m in at' <==> m in at) && (m in at ==> at'[m] == at[m])
  {
  }

  // ---- one step ----

  /** queue:<ch> after a step that puts `put`, if it puts anything. */
  predicate QueueAfter(q: ZSets, q': ZSets, a: Action, put: Option<Message>, now: Time, ch: Channel) {
    q'[ch] ==
      if PopsFrom(a, ch) then q[ch] - Members(a.msgs)
      else if put.Some? && put.value.channel == ch then q[ch][put.value := Score(put.value, now)]
      else q[ch]
  }

  lemma QueueWork(s: State, a: Action)
    requires Enabled(s, a) && IsWork(a) && !a.Pop?
    ensures SameQueues(s.st.queue, Next(s, a).st.queue)
  {
    match a
    case Mark(t, at) => assert SameQueues(s.st.queue, DoMark(s, t, at).st.queue);
    case ClaimBatch(t, order) => assert SameQueues(s.st.queue, DoClaim(s, t, order).st.queue);
    case Send(t, out) => assert SameQueues(s.st.queue, DoSend(s, t, out).st.queue);
    case WriteFailure(t) => assert SameQueues(s.st.queue, DoWriteFailure(s, t).st.queue);
    case Bury(t) => assert SameQueues(s.st.queue, DoBury(s, t).st.queue);
    case Delay(t, delay) => assert SameQueues(s.st.queue, DoDelay(s, t, delay).st.queue);
    case AckOne(t) => assert SameQueues(s.st.queue, DoAckOne(s, t).st.queue);
    case RecordSent(t) => assert SameQueues(s.st.queue, DoRecordSent(s, t).st.queue);
    case AckAll(t) => assert SameQueues(s.st.queue, DoAckAll(s, t).st.queue);
    case Crash(t) =>
  }

  predicate SameQueues(q: ZSets, q': ZSets) {
    q' == q
  }

  lemma QueueQuiet(s: State, a: Action)
    requires Enabled(s, a) && !IsWork(a) && PutBy(s, a).None?
    ensures SameQueues(s.st.queue, Next(s, a).st.queue)
  {
    match a
    case CreateUnqueued(id, ch, p) => assert SameQueues(s.st.queue, DoInsert(s, id, NewRow(ch, p, Pending, None)).st.queue);
    case CreateScheduled(id, ch, p, at) => assert SameQueues(s.st.queue, DoInsert(s, id, NewRow(ch, p, Scheduled, Some(at))).st.queue);
    case CancelWrite(id) => assert SameQueues(s.st.queue, DoCancel(s, id).st.queue);
    case CancelNow(id) => assert SameQueues(s.st.queue, DoCancel(s, id).st.queue);
    case _ =>
  }

  lemma PutCreate(s: State, id: Id, ch: Channel, p: Priority)
    ensures SameQueues(Enqueue(s.st.queue, Message(id, ch, p, None), s.now), DoCreate(s, id, ch, p).st.queue)
  {
  }

  lemma PutDue(s: State, id: Id)
    requires CanSchedule(s, id)
    ensures SameQueues(Enqueue(s.st.queue, MsgOf(s.st.rows, id), s.now), DoSchedule(s, id).st.queue)
  {
  }

  lemma QueuePut(s: State, a: Action)
    requires Enabled(s, a) && PutBy(s, a).Some?
    ensures SameQueues(Enqueue(s.st.queue, PutBy(s, a).value, s.now), Next(s, a).st.queue)
  {
    match a
    case Create(id, ch, p) => PutCreate(s, id, ch, p);
    case ScheduleDue(id) => PutDue(s, id);
    case Promote(m) => assert SameQueues(Enqueue(s.st.queue, m, s.now), DoPromote(s, m).st.queue);
    case Reclaim(ch, m) => assert SameQueues(Enqueue(s.st.queue, m, s.now), DoReclaim(s, ch, m).st.queue);
  }

  lemma AfterSame(q: ZSets, q': ZSets, a: Action, now: Time, ch: Channel)
    requires SameQueues(q, q') && !a.Pop?
    ensures QueueAfter(q, q', a, None, now, ch)
  {
  }

  lemma AfterPut(q: ZSets, q': ZSets, a: Action, m: Message, now: Time, ch: Channel)
    requires SameQueues(Enqueue(q, m, now), q') && !a.Pop?
    ensures QueueAfter(q, q', a, Some(m), now, ch)
  {
  }

  lemma AfterPop(s: State, a: Action, ch: Channel)
    requires a.Pop?
    ensures QueueAfter(s.st.queue, DoPop(s, a.t, a.channel, a.msgs).st.queue, a, None, s.now, ch)
  {
  }

  lemma QueueStep(s: State, a: Action, ch: Channel)
    requires Enabled(s, a)
    ensures QueueAfter(s.st.queue, Next(s, a).st.queue, a, PutBy(s, a), s.now, ch)
  {
    if a.Pop? {
      AfterPop(s, a, ch);
    } else if IsWork(a) {
      QueueWork(s, a);
      AfterSame(s.st.queue, Next(s, a).st.queue, a, s.now, ch);
    } else if PutBy(s, a).Some? {
      QueuePut(s, a);
      AfterPut(s.st.queue, Next(s, a).st.queue, a, PutBy(s, a).value, s.now, ch);
    } else {
      QueueQuiet(s, a);
      AfterSame(s.st.queue, Next(s, a).st.queue, a, s.now, ch);
    }
  }

  // ---- runs of the priority queue ----

  ghost predicate EndsIn(qs: seq<PriorityOrder.Queue>, es: seq<PriorityOrder.Event>, q: PriorityOrder.Queue) {
    PriorityOrder.Run(Float64.F64, qs, es) && qs[|es|] == q
  }

  lemma Extended(qs: seq<PriorityOrder.Queue>, es: seq<PriorityOrder.Event>, q: PriorityOrder.Queue, e: PriorityOrder.Event)
    requires EndsIn(qs, es, q) && PriorityOrder.Can(q, e)
    ensures EndsIn(qs + [PriorityOrder.Do(Float64.F64, q, e)], es + [e], PriorityOrder.Do(Float64.F64, q, e))
  {
  }

  function Left(q: PriorityOrder.Queue, msgs: seq<Message>): PriorityOrder.Queue {
    PriorityOrder.Queue(q.z - Members(msgs), q.at - Members(msgs))
  }

  lemma LeftCons(q: PriorityOrder.Queue, msgs: seq<Message>)
    requires msgs != []
    ensures Left(PriorityOrder.Do(Float64.F64, q, PriorityOrder.Take(msgs[0])), msgs[1..]) == Left(q, msgs)
  {
    assert Members(msgs) == {msgs[0]} + Members(msgs[1..]);
    assert q.z - {msgs[0]} - Members(msgs[1..]) == q.z - Members(msgs);
    assert q.at - {msgs[0]} - Members(msgs[1..]) == q.at - Members(msgs);
  }

  /** A batch pop is one take after the other. */
  lemma {:induction false} Taken(qs: seq<PriorityOrder.Queue>, es: seq<PriorityOrder.Event>, q: PriorityOrder.Queue, msgs: seq<Message>)
    returns (qs': seq<PriorityOrder.Queue>, es': seq<PriorityOrder.Event>)
    requires EndsIn(qs, es, q) && Pops(q.z, msgs)
    ensures EndsIn(qs', es', Left(q, msgs))
    decreases |msgs|
  {
    if msgs == [] {
      assert q.z - {} == q.z && q.at - {} == q.at;
      qs', es' := qs, es;
    } else {
      var e := PriorityOrder.Take(msgs[0]);
      Extended(qs, es, q, e);
      qs', es' := Taken(qs + [PriorityOrder.Do(Float64.F64, q, e)], es + [e], PriorityOrder.Do(Float64.F64, q, e), msgs[1..]);
      LeftCons(q, msgs);
    }
  }

  lemma {:induction false} PopsPart(z: ZSet, msgs: seq<Message>, a: nat)
    requires Pops(z, msgs) && a < |msgs|
    ensures Pops(z, msgs[..a]) && IsMin(z - Members(msgs[..a]), msgs[a])
    decreases a
  {
    if a == 0 {
      assert z - Members(msgs[..0]) == z;
    } else {
      PopsPart(z - {msgs[0]}, msgs[1..], a - 1);
      assert msgs[..a][1..] == msgs[1..][..a - 1] && msgs[1..][a - 1] == msgs[a];
      assert Members(msgs[..a]) == {msgs[0]} + Members(msgs[1..][..a - 1]);
      assert z - {msgs[0]} - Members(msgs[1..][..a - 1]) == z - Members(msgs[..a]);
    }
  }

  // ---- the projection ----

  lemma StepProjects(s: State, a: Action, ch: Channel, at: Stamps, qs: seq<PriorityOrder.Queue>, es: seq<PriorityOrder.Event>)
    returns (qs': seq<PriorityOrder.Queue>, es': seq<PriorityOrder.Event>)
    requires Enabled(s, a) && EndsIn(qs, es, PriorityOrder.Queue(s.st.queue[ch], at))
    ensures EndsIn(qs', es', PriorityOrder.Queue(Next(s, a).st.queue[ch], Stamped(at, s, a, ch)))
  {
    QueueStep(s, a, ch);
    var q := PriorityOrder.Queue(s.st.queue[ch], at);
    if PopsFrom(a, ch) {
      qs', es' := Taken(qs, es, q, a.msgs);
    } else if PutsInto(s, a, ch) {
      var e := PriorityOrder.Put(PutBy(s, a).value, s.now);
      PriorityOrder.ScoreIsRounded(e.m, s.now);
      Extended(qs, es, q, e);
      qs', es' := qs + [PriorityOrder.Do(Float64.F64, q, e)], es + [e];
    } else {
      qs', es' := qs, es;
    }
  }

  /** Whatever everyone does, queue:<ch> and its stamps are what some run of the priority queue ends in. */
  lemma {:induction false} Projects(states: seq<State>, acts: seq<Action>, ch: Channel, i: nat)
    returns (qs: seq<PriorityOrder.Queue>, es: seq<PriorityOrder.Event>)
    requires Run(states, acts) && i < |states|
    ensures EndsIn(qs, es, PriorityOrder.Queue(states[i].st.queue[ch], StampsAt(states, acts, ch, i)))
  {
    if i == 0 {
      qs, es := [PriorityOrder.Queue(map[], map[])], [];
    } else {
      qs, es := Projects(states, acts, ch, i - 1);
      assert states[i - 1 + 1] == Next(states[i - 1], acts[i - 1]);
      qs, es := StepProjects(states[i - 1], acts[i - 1], ch, StampsAt(states, acts, ch, i - 1), qs, es);
    }
  }

  /** Step i pops m out of queue:<ch>, as number a of its batch, and o is still queued when m leaves. */
  ghost predicate Overtakes(states: seq<State>, acts: seq<Action>, i: nat, a: nat, m: Message, o: Message) {
    && Run(states, acts) && i < |acts| && acts[i].Pop? && a < |acts[i].msgs| && acts[i].msgs[a] == m
    && o in states[i].st.queue[acts[i].channel] && o !in acts[i].msgs[..a + 1]
  }

  lemma OvertakesProjects(states: seq<State>, acts: seq<Action>, i: nat, a: nat, m: Message, o: Message)
    returns (qs: seq<PriorityOrder.Queue>, es: seq<PriorityOrder.Event>)
    requires Overtakes(states, acts, i, a, m, o)
    ensures EndsIn(qs, es, Left(PriorityOrder.Queue(states[i].st.queue[acts[i].channel], StampsAt(states, acts, acts[i].channel, i)),
                                acts[i].msgs[..a]))
    ensures IsMin(qs[|es|].z, m) && o in qs[|es|].z && o != m
  {
    var ch, msgs := acts[i].channel, acts[i].msgs;
    var q := PriorityOrder.Queue(states[i].st.queue[ch], StampsAt(states, acts, ch, i));
    qs, es := Projects(states, acts, ch, i);
    assert Enabled(states[i], acts[i]);
    PopsPart(q.z, msgs, a);
    qs, es := Taken(qs, es, q, msgs[..a]);
    assert msgs[..a + 1][a] == m;
    forall k | 0 <= k < a ensures msgs[k] != o { assert msgs[..a + 1][k] == msgs[k]; }
  }

  /** The next event takes m. */
  lemma Leaving(qs: seq<PriorityOrder.Queue>, es: seq<PriorityOrder.Event>, q: PriorityOrder.Queue, m: Message, o: Message)
    returns (qs': seq<PriorityOrder.Queue>, es': seq<PriorityOrder.Event>)
    requires EndsIn(qs, es, q) && IsMin(q.z, m) && o in q.z && o != m
    ensures PriorityOrder.LeavesBefore(Float64.F64, qs', es', |es|, m, o) && qs'[|es|] == q
  {
    var e := PriorityOrder.Take(m);
    Extended(qs, es, q, e);
    qs', es' := qs + [PriorityOrder.Do(Float64.F64, q, e)], es + [e];
    assert qs'[|es|] == q;
    PriorityOrder.Scored(Float64.F64, qs', es', |es|);
  }

  /** Over every run of the pipeline, whatever dispatchers, schedulers and requests do: m leaves a queue before o only
      if its score is lower, or equal and its id no higher. */
  lemma LowestScoreLeaves(states: seq<State>, acts: seq<Action>, i: nat, a: nat, m: Message, o: Message)
    requires Overtakes(states, acts, i, a, m, o)
    ensures var at := StampsAt(states, acts, acts[i].channel, i);
      && m in at && o in at
      && var x := PriorityOrder.ScoreAt(Float64.F64, m.priority, at[m]); var y := PriorityOrder.ScoreAt(Float64.F64, o.priority, at[o]);
         x < y || (x == y && m.id <= o.id)
  {
    var qs, es := OvertakesProjects(states, acts, i, a, m, o);
    var n := |es|;
    var q := qs[n];
    qs, es := Leaving(qs, es, q, m, o);
    PriorityOrder.LowestScoreLeaves(Float64.F64, qs, es, n, m, o);
  }

  /** And in terms of the clock, for readings in range and up to 256 ns: a class is first in, first out, and nobody
      overtakes a high message; high goes before normal, and normal before low, unless it came 1e12 ns later, and high
      before low unless it came 2e12 ns later; a normal message is overtaken only by what came within 1e12 ns, a low one
      only by what came within 2e12 ns. */
  lemma PoppedInOrder(states: seq<State>, acts: seq<Action>, i: nat, a: nat, m: Message, o: Message)
    requires Overtakes(states, acts, i, a, m, o)
    ensures var at := StampsAt(states, acts, acts[i].channel, i);
      && m in at && o in at
      && (PriorityOrder.InRange(at[m]) && PriorityOrder.InRange(at[o]) ==>
            && (m.priority == o.priority ==>
                  Float64.F64(at[m]) < Float64.F64(at[o]) || (Float64.F64(at[m]) == Float64.F64(at[o]) && m.id <= o.id))
            && (m.priority == o.priority || o.priority == High ==> at[m] <= at[o] + 256)
            && (m.priority == Normal && o.priority == High ==> at[m] + 1_000_000_000_000 <= at[o] + 256)
            && (m.priority == Low && o.priority == Normal ==> at[m] + 1_000_000_000_000 <= at[o] + 256)
            && (m.priority == Low && o.priority == High ==> at[m] + 2_000_000_000_000 <= at[o] + 256)
            && (o.priority == Normal ==> at[m] <= at[o] + 1_000_000_000_000 + 256)
            && (o.priority == Low ==> at[m] <= at[o] + 2_000_000_000_000 + 256))
  {
    LowestScoreLeaves(states, acts, i, a, m, o);
    var at := StampsAt(states, acts, acts[i].channel, i);
    if PriorityOrder.InRange(at[m]) && PriorityOrder.InRange(at[o]) {
      PriorityOrder.ScoreInRange(m.priority, at[m]);
      PriorityOrder.ScoreInRange(o.priority, at[o]);
    }
  }
}
