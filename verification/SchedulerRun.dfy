/** A poll, with nobody interfering, is a path of the transition system; what it does to each message and row. */
module SchedulerRun {
  import opened Domain
  import opened Databases
  import opened Pipeline
  import opened WellFormed
  import opened Postgres
  import opened RedisQueue
  import opened Scheduler
  import opened Runs
  import Float64

  // ---- one row, one message ----

  function AfterDrain(st: Store, ids: set<Id>, now: Time): Store {
    st.(rows := QueuedRows(st.rows, ids), queue := WithMessages(st.queue, MessagesOf(st.rows, ids), now))
  }

  function AfterPromote(st: Store, ms: set<Message>, now: Time): Store {
    st.(queue := WithMessages(st.queue, ms, now), delayed := st.delayed - ms)
  }

  function AfterReclaim(st: Store, ch: Channel, ms: set<Message>, now: Time): Store {
    st.(queue := WithMessages(st.queue, ms, now), processing := Removed(st.processing, ch, ms))
  }

  function Removed(p: ZSets, ch: Channel, ms: set<Message>): ZSets {
    p[ch := p[ch] - ms]
  }

  function ToDrain(s: State, ids: set<Id>): State {
    s.(st := AfterDrain(s.st, ids, s.now))
  }

  function ToPromote(s: State, ms: set<Message>): State {
    s.(st := AfterPromote(s.st, ms, s.now))
  }

  function ToReclaim(s: State, ch: Channel, ms: set<Message>): State {
    s.(st := AfterReclaim(s.st, ch, ms, s.now))
  }

  lemma DrainNothing(s: State)
    ensures ToDrain(s, {}) == s
  {
    NothingMoved(s.st.rows, s.st.queue, s.now);
  }

  lemma PromoteNothing(s: State)
    ensures ToPromote(s, {}) == s
  {
    NoMessages(s.st.queue, s.now);
    assert s.st.delayed - {} == s.st.delayed;
  }

  lemma ReclaimNothing(s: State, ch: Channel)
    ensures ToReclaim(s, ch, {}) == s
  {
    NoMessages(s.st.queue, s.now);
    assert s.st.processing[ch] - {} == s.st.processing[ch];
  }

  /** Some run leads from s to s'. */
  ghost predicate Reaches(s: State, s': State) {
    exists acts: seq<Action> :: Path(Enabled, Next, s, acts, s')
  }

  lemma ReachesSelf(s: State)
    ensures Reaches(s, s)
  {
    assert Path(Enabled, Next, s, [], s);
  }

  lemma ReachesStep(s: State, a: Action, s': State)
    requires Enabled(s, a) && s' == Next(s, a)
    ensures Reaches(s, s')
  {
    PathOne(Enabled, Next, s, a);
  }

  lemma ReachesTrans(s: State, s1: State, s2: State)
    requires Reaches(s, s1) && Reaches(s1, s2)
    ensures Reaches(s, s2)
  {
    var a: seq<Action> :| Path(Enabled, Next, s, a, s1);
    var b: seq<Action> :| Path(Enabled, Next, s1, b, s2);
    PathTrans(Enabled, Next, s, a, s1, b, s2);
  }

  // ---- one step of each loop ----

  lemma DrainStep(s: State, ids: set<Id>, id: Id)
    requires id in DueIds(s.st.rows, s.now) && id !in ids
    ensures var s1 := ToDrain(s, ids);
      CanSchedule(s1, id) && DoSchedule(s1, id) == ToDrain(s, ids + {id})
  {
    DrainedOne(s.st.rows, ids, id);
    WithOne(s.st.queue, MessagesOf(s.st.rows, ids), MsgOf(s.st.rows, id), s.now);
  }

  /** The transition system schedules exactly the rows a poll does. */
  lemma SchedulesWhatIsDue(s: State, id: Id)
    ensures Enabled(s, ScheduleDue(id)) <==> id in DueIds(s.st.rows, s.now)
  {
  }

  lemma DrainReachesStep(s: State, ids: set<Id>, id: Id)
    requires id in DueIds(s.st.rows, s.now) && id !in ids
    ensures Reaches(ToDrain(s, ids), ToDrain(s, ids + {id}))
  {
    DrainStep(s, ids, id);
    var s1 := ToDrain(s, ids);
    ReachesStep(s1, ScheduleDue(id), DoSchedule(s1, id));
  }

  lemma PromoteStep(s: State, ms: set<Message>, m: Message)
    requires m in DueIn(s.st.delayed, s.now) && m !in ms
    ensures var s1 := ToPromote(s, ms);
      Due(s1.st.delayed, m, s1.now) && DoPromote(s1, m) == ToPromote(s, ms + {m})
  {
    WithOne(s.st.queue, ms, m, s.now);
    assert s.st.delayed - ms - {m} == s.st.delayed - (ms + {m});
  }

  lemma PromoteReachesStep(s: State, ms: set<Message>, m: Message)
    requires m in DueIn(s.st.delayed, s.now) && m !in ms
    ensures Reaches(ToPromote(s, ms), ToPromote(s, ms + {m}))
  {
    PromoteStep(s, ms, m);
    var s1 := ToPromote(s, ms);
    ReachesStep(s1, Promote(m), DoPromote(s1, m));
  }

  lemma RemovedOne(p: ZSets, ch: Channel, ms: set<Message>, m: Message, now: Time)
    requires m in DueIn(p[ch], now) && m !in ms
    ensures Due(Removed(p, ch, ms)[ch], m, now)
    ensures Ack(Removed(p, ch, ms), ch, [m]) == Removed(p, ch, ms + {m})
  {
    assert Members([m]) == {m};
    assert p[ch] - ms - {m} == p[ch] - (ms + {m});
  }

  lemma ReclaimReachesStep(s: State, ch: Channel, ms: set<Message>, m: Message)
    requires m in DueIn(s.st.processing[ch], s.now) && m !in ms
    ensures Reaches(ToReclaim(s, ch, ms), ToReclaim(s, ch, ms + {m}))
  {
    WithOne(s.st.queue, ms, m, s.now);
    RemovedOne(s.st.processing, ch, ms, m, s.now);
    var s1 := ToReclaim(s, ch, ms);
    ReachesStep(s1, Reclaim(ch, m), DoReclaim(s1, ch, m));
  }

  // ---- the loops ----

  /** A loop over xs, one step for each element in any order. */
  lemma {:induction false} ReachesOver<X(!new)>(at: set<X> -> State, xs: set<X>)
    requires forall ys: set<X>, x: X {:trigger at(ys + {x})} :: ys <= xs && x in xs && x !in ys ==> Reaches(at(ys), at(ys + {x}))
    ensures Reaches(at({}), at(xs))
    decreases xs
  {
    if xs == {} {
      ReachesSelf(at({}));
    } else {
      var x :| x in xs;
      ReachesOver(at, xs - {x});
      assert xs - {x} + {x} == xs;
      assert Reaches(at(xs - {x}), at(xs - {x} + {x}));
      ReachesTrans(at({}), at(xs - {x}), at(xs));
    }
  }

  lemma DrainReaches(s: State)
    ensures Reaches(s, ToDrain(s, DueIds(s.st.rows, s.now)))
  {
    var due := DueIds(s.st.rows, s.now);
    var at := ids => ToDrain(s, ids);
    forall ids: set<Id>, id: Id | ids <= due && id in due && id !in ids ensures Reaches(at(ids), at(ids + {id})) {
      DrainReachesStep(s, ids, id);
    }
    ReachesOver(at, due);
    DrainNothing(s);
  }

  lemma PromoteReaches(s: State)
    ensures Reaches(s, ToPromote(s, DueIn(s.st.delayed, s.now)))
  {
    var due := DueIn(s.st.delayed, s.now);
    var at := ms => ToPromote(s, ms);
    forall ms: set<Message>, m: Message | ms <= due && m in due && m !in ms ensures Reaches(at(ms), at(ms + {m})) {
      PromoteReachesStep(s, ms, m);
    }
    ReachesOver(at, due);
    PromoteNothing(s);
  }

  lemma ReclaimReaches(s: State, ch: Channel)
    ensures Reaches(s, ToReclaim(s, ch, DueIn(s.st.processing[ch], s.now)))
  {
    var due := DueIn(s.st.processing[ch], s.now);
    var at := ms => ToReclaim(s, ch, ms);
    forall ms: set<Message>, m: Message | ms <= due && m in due && m !in ms ensures Reaches(at(ms), at(ms + {m})) {
      ReclaimReachesStep(s, ch, ms, m);
    }
    ReachesOver(at, due);
    ReclaimNothing(s, ch);
  }

  // ---- the poll ----

  lemma ReclaimThree(s: State)
    ensures Reaches(s, s.(st := s.st.(queue := WithMessages(s.st.queue, ExpiredOn(s.st.processing, ALL, s.now), s.now),
                                      processing := KeptOn(s.st.processing, ALL, s.now))))
  {
    var a := Reclaimed(s, SMS);
    var b := Reclaimed(a, Email);
    ReclaimReaches(s, SMS);
    ReclaimReaches(a, Email);
    ReclaimReaches(b, Push);
    ReachesTrans(s, a, b);
    ReachesTrans(s, b, Reclaimed(b, Push));
    ReclaimedAll(s);
  }

  function Reclaimed(s: State, ch: Channel): State {
    ToReclaim(s, ch, DueIn(s.st.processing[ch], s.now))
  }

  lemma ReclaimedAll(s: State)
    ensures Reclaimed(Reclaimed(Reclaimed(s, SMS), Email), Push) ==
      s.(st := s.st.(queue := WithMessages(s.st.queue, ExpiredOn(s.st.processing, ALL, s.now), s.now),
                     processing := KeptOn(s.st.processing, ALL, s.now)))
  {
    var p := s.st.processing;
    var a := Reclaimed(s, SMS);
    assert a.st.processing[Email] == p[Email];
    var b := Reclaimed(a, Email);
    assert b.st.processing[Push] == p[Push];
    ThreeQueues(s.st.queue, p, s.now);
    ThreeSets(p, s.now);
  }

  lemma ThreeQueues(q: ZSets, p: ZSets, now: Time)
    ensures WithMessages(WithMessages(WithMessages(q, DueIn(p[SMS], now), now), DueIn(p[Email], now), now), DueIn(p[Push], now), now)
      == WithMessages(q, ExpiredOn(p, ALL, now), now)
  {
    var a, b, c := DueIn(p[SMS], now), DueIn(p[Email], now), DueIn(p[Push], now);
    WithMore(q, a, b, now);
    WithMore(q, a + b, c, now);
    ThreeExpired(p, now);
  }

  lemma ThreeExpired(p: ZSets, now: Time)
    ensures ExpiredOn(p, ALL, now) == DueIn(p[SMS], now) + DueIn(p[Email], now) + DueIn(p[Push], now)
  {
  }

  lemma ThreeSets(p: ZSets, now: Time)
    ensures Removed(Removed(Removed(p, SMS, DueIn(p[SMS], now)), Email, DueIn(p[Email], now)), Push, DueIn(p[Push], now))
      == KeptOn(p, ALL, now)
  {
  }

  /** The whole poll is one path of scheduler steps. */
  lemma PollIsAPath(s: State) returns (acts: seq<Action>)
    ensures Path(Enabled, Next, s, acts, s.(st := Polled(s.st, s.now)))
  {
    var due, delayed := MessagesOf(s.st.rows, DueIds(s.st.rows, s.now)), DueIn(s.st.delayed, s.now);
    var a := ToDrain(s, DueIds(s.st.rows, s.now));
    var b := ToPromote(a, delayed);
    var c := s.(st := Polled(s.st, s.now));
    DrainReaches(s);
    PromoteReaches(a);
    ReclaimThree(b);
    WithMore(s.st.queue, due, delayed, s.now);
    WithMore(s.st.queue, due + delayed, ExpiredOn(s.st.processing, ALL, s.now), s.now);
    ReachesTrans(s, a, b);
    ReachesTrans(s, b, c);
    acts :| Path(Enabled, Next, s, acts, c);
  }

  // ---- what a poll leaves behind ----

  /** What the queue of ch holds after a poll, and at which score. */
  lemma PolledQueue(st: Store, now: Time, ch: Channel, m: Message)
    ensures var q, q' := st.queue[ch], Polled(st, now).queue[ch]; var moved := m in Moved(st, now) && m.channel == ch;
      && (m in q' <==> m in q || moved)
      && (m in q' ==> q'[m] == if moved then Score(m, now) else q[m])
  {
    assert m in OnChannel(Moved(st, now), ch) <==> m in Moved(st, now) && m.channel == ch;
  }

  /** What a poll moves to a queue. */
  lemma MovedIs(st: Store, now: Time, m: Message)
    ensures m in Moved(st, now) <==>
      || (m.id in st.rows && st.rows[m.id].status == Scheduled && st.rows[m.id].scheduledAt.Some?
            && st.rows[m.id].scheduledAt.value <= now && m == Message(m.id, st.rows[m.id].channel, st.rows[m.id].priority, None))
      || (m in st.delayed && st.delayed[m] <= Float64.F64(now))
      || exists c: Channel :: m in st.processing[c] && st.processing[c][m] <= Float64.F64(now)
  {
    assert m in ExpiredOn(st.processing, ALL, now) <==> exists c: Channel :: m in DueIn(st.processing[c], now) by {
      if c: Channel :| m in DueIn(st.processing[c], now) { assert (c == SMS || c == Email || c == Push) && c in ALL; }
    }
    forall c: Channel ensures m in DueIn(st.processing[c], now) <==> m in st.processing[c] && st.processing[c][m] <= Float64.F64(now) { }
  }

  /** A poll queues exactly the due rows, and they keep every other column. */
  lemma PolledRows(st: Store, now: Time, id: Id)
    ensures Polled(st, now).rows.Keys == st.rows.Keys
    ensures id in st.rows ==>
      Polled(st, now).rows[id] ==
        if st.rows[id].status == Scheduled && st.rows[id].scheduledAt.Some? && st.rows[id].scheduledAt.value <= now
        then st.rows[id].(status := Queued) else st.rows[id]
  {
  }

  /** It takes from the delayed and the processing sets exactly what is due. */
  lemma PolledSets(st: Store, now: Time, m: Message, c: Channel)
    ensures var z' := Polled(st, now).delayed;
      (m in z' <==> m in st.delayed && st.delayed[m] > Float64.F64(now)) && (m in z' ==> z'[m] == st.delayed[m])
    ensures var z' := Polled(st, now).processing[c];
      (m in z' <==> m in st.processing[c] && st.processing[c][m] > Float64.F64(now)) && (m in z' ==> z'[m] == st.processing[c][m])
  {
    KeptIs(st.processing, now, c);
    assert Polled(st, now).processing == KeptOn(st.processing, ALL, now) && Polled(st, now).delayed == Without(st.delayed, now);
  }

  lemma KeptIs(p: ZSets, now: Time, c: Channel)
    ensures KeptOn(p, ALL, now)[c] == Without(p[c], now)
  {
    assert c == SMS || c == Email || c == Push;
  }

  /** A due row is queued with exactly one message, its own, in its own queue and nowhere else. */
  lemma DueRowQueuedOnce(s: State, id: Id, ch: Channel, m: Message)
    requires Wf(s) && id in DueIds(s.st.rows, s.now) && m.id == id
    ensures var st' := Polled(s.st, s.now);
      && st'.rows[id] == s.st.rows[id].(status := Queued)
      && (m in st'.queue[ch] <==> m == MsgOf(s.st.rows, id) && ch == s.st.rows[id].channel)
      && (m in st'.queue[ch] ==> st'.queue[ch][m] == Score(m, s.now))
      && m !in st'.delayed && m !in st'.processing[ch]
  {
    NoMessageYet(s, id, m, ch);
    PolledQueue(s.st, s.now, ch, m);
    MovedById(s, m);
  }

  /** A row still scheduled has no message anywhere. */
  lemma NoMessageYet(s: State, id: Id, m: Message, ch: Channel)
    requires Wf(s) && id in s.st.rows && s.st.rows[id].status == Scheduled && m.id == id
    ensures m !in s.st.queue[ch] && m !in s.st.processing[ch] && m !in s.st.delayed
  {
    assert !Agrees(s.st.rows, m);
    assert ChannelAgrees(s.st.rows, s.st.queue[ch], ch) && ChannelAgrees(s.st.rows, s.st.processing[ch], ch);
  }

  lemma MovedById(s: State, m: Message)
    requires Wf(s) && m.id in DueIds(s.st.rows, s.now)
    ensures m in Moved(s.st, s.now) <==> m == MsgOf(s.st.rows, m.id)
  {
    forall ch: Channel ensures m !in DueIn(s.st.processing[ch], s.now) && m !in s.st.delayed { NoMessageYet(s, m.id, m, ch); }
  }

  /** Rows that are not due keep every column; messages of such rows that are not due themselves stay where they are. */
  lemma OthersUntouched(st: Store, now: Time, id: Id, ch: Channel, m: Message)
    requires id !in DueIds(st.rows, now) && m.id !in DueIds(st.rows, now)
    requires !Due(st.delayed, m, now) && forall c: Channel :: !Due(st.processing[c], m, now)
    ensures var st' := Polled(st, now);
      && st'.rows.Keys == st.rows.Keys && (id in st.rows ==> st'.rows[id] == st.rows[id]) && st'.dead == st.dead
      && (m in st'.queue[ch] <==> m in st.queue[ch]) && (m in st.queue[ch] ==> st'.queue[ch][m] == st.queue[ch][m])
      && (m in st'.processing[ch] <==> m in st.processing[ch])
      && (m in st.processing[ch] ==> st'.processing[ch][m] == st.processing[ch][m])
      && (m in st'.delayed <==> m in st.delayed) && (m in st.delayed ==> st'.delayed[m] == st.delayed[m])
  {
    PolledQueue(st, now, ch, m);
    assert QueuedRows(st.rows, DueIds(st.rows, now)).Keys == st.rows.Keys;
  }

  /** No message is lost by a poll, and none that is due waits on. */
  lemma PollKeepsMessages(s: State, m: Message)
    requires Wf(s)
    ensures var st' := Polled(s.st, s.now); var ch := m.channel;
      && (m in st'.queue[ch] || m in st'.processing[ch] || m in st'.delayed <==>
            m in s.st.queue[ch] || m in s.st.processing[ch] || m in s.st.delayed
            || (m.id in DueIds(s.st.rows, s.now) && m == MsgOf(s.st.rows, m.id)))
      && !Due(st'.delayed, m, s.now) && !Due(st'.processing[ch], m, s.now)
      && (Due(s.st.delayed, m, s.now) || Due(s.st.processing[ch], m, s.now) ==> m in st'.queue[ch])
  {
    forall c: Channel | m in s.st.processing[c] ensures c == m.channel {
      assert ChannelAgrees(s.st.rows, s.st.processing[c], c);
    }
    MovedWhich(s.st, s.now, m);
    PolledQueue(s.st, s.now, m.channel, m);
    PolledRest(s.st, s.now, m);
  }

  lemma MovedWhich(st: Store, now: Time, m: Message)
    requires forall c: Channel :: m in st.processing[c] ==> c == m.channel
    ensures m in Moved(st, now) <==>
      || (m.id in DueIds(st.rows, now) && m == MsgOf(st.rows, m.id))
      || Due(st.delayed, m, now) || Due(st.processing[m.channel], m, now)
  {
    assert m in ExpiredOn(st.processing, ALL, now) <==> Due(st.processing[m.channel], m, now) by {
      var ch := m.channel;
      if Due(st.processing[ch], m, now) { assert ch in ALL && m in DueIn(st.processing[ch], now); }
    }
  }

  lemma PolledRest(st: Store, now: Time, m: Message)
    ensures var st' := Polled(st, now); var ch := m.channel;
      && (m in st'.delayed <==> m in st.delayed && !Due(st.delayed, m, now))
      && (m in st'.processing[ch] <==> m in st.processing[ch] && !Due(st.processing[ch], m, now))
      && !Due(st'.delayed, m, now) && !Due(st'.processing[ch], m, now)
  {
    var ch := m.channel;
    assert ch == SMS || ch == Email || ch == Push;
    assert KeptOn(st.processing, ALL, now)[ch] == Without(st.processing[ch], now);
    WithoutIs(st.processing[ch], now, m);
    WithoutIs(st.delayed, now, m);
  }

  lemma WithoutIs(z: ZSet, now: Time, m: Message)
    ensures (m in Without(z, now) <==> m in z && !Due(z, m, now)) && !Due(Without(z, now), m, now)
  {
  }
}
