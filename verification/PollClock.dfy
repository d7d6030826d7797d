/** A poll of the scheduler whose every query and every ZADD reads the clock anew: a path of single steps with ticks
    between them. Says what such a poll leaves behind, whatever the readings. */
module PollClock {
  import opened Domain
  import opened Databases
  import opened Pipeline
  import opened Postgres
  import opened RedisQueue
  import opened Scheduler
  import opened Recovery
  import opened Runs
  import Float64

  predicate ScoredDuring(m: Message, score: nat, lo: Time, hi: Time) {
    exists t: Time :: lo <= t <= hi && score == Score(m, t)
  }

  ghost predicate PutOn(z: ZSet, z': ZSet, ms: set<Message>, ch: Channel, lo: Time, hi: Time) {
    forall m :: if m in ms && m.channel == ch then m in z' && ScoredDuring(m, z'[m], lo, hi)
                else (m in z' <==> m in z) && (m in z ==> z'[m] == z[m])
  }

  /** The messages of ms are in their queues, scored at some reading between lo and hi; all others are as before. */
  ghost predicate PutDuring(q: ZSets, q': ZSets, ms: set<Message>, lo: Time, hi: Time) {
    forall ch: Channel :: PutOn(q[ch], q'[ch], ms, ch, lo, hi)
  }

  ghost predicate OnlyBy(acts: seq<Action>, kind: Action -> bool) {
    forall k :: 0 <= k < |acts| ==> acts[k].Tick? || kind(acts[k])
  }

  lemma OnlyRest(acts: seq<Action>, kind: Action -> bool)
    requires OnlyBy(acts, kind) && acts != []
    ensures (acts[0].Tick? || kind(acts[0])) && OnlyBy(acts[1..], kind)
  {
  }

  lemma PutNothing(q: ZSets, lo: Time, hi: Time)
    ensures PutDuring(q, q, {}, lo, hi)
  {
  }

  lemma PutLater(q: ZSets, q': ZSets, ms: set<Message>, lo: Time, later: Time, hi: Time)
    requires PutDuring(q, q', ms, later, hi) && lo <= later
    ensures PutDuring(q, q', ms, lo, hi)
  {
    forall ch: Channel ensures PutOn(q[ch], q'[ch], ms, ch, lo, hi) {
      assert PutOn(q[ch], q'[ch], ms, ch, later, hi);
    }
  }

  /** One ZADD first. */
  lemma PutFirst(q: ZSets, q': ZSets, m: Message, ms: set<Message>, now: Time, hi: Time)
    requires PutDuring(Enqueue(q, m, now), q', ms, now, hi) && now <= hi
    ensures PutDuring(q, q', ms + {m}, now, hi)
  {
    forall ch: Channel ensures PutOn(q[ch], q'[ch], ms + {m}, ch, now, hi) {
      assert PutOn(Enqueue(q, m, now)[ch], q'[ch], ms, ch, now, hi);
    }
  }

  // ---- the drain loop ----

  ghost predicate RowsDrained(rows: Table, rows': Table, due: set<Id>, hi: Time) {
    due <= DueIds(rows, hi) && rows' == QueuedRows(rows, due)
  }

  /** The rest of the store stays. */
  ghost predicate SameElse(st: Store, st': Store) {
    st'.delayed == st.delayed && st'.processing == st.processing && st'.dead == st.dead
  }

  /** What the drain has done when it has queued the rows of due. */
  ghost predicate DrainedBy(s: State, s': State, due: set<Id>) {
    && RowsDrained(s.st.rows, s'.st.rows, due, s'.now)
    && PutDuring(s.st.queue, s'.st.queue, MessagesOf(s.st.rows, due), s.now, s'.now)
    && SameElse(s.st, s'.st)
  }

  lemma RowsFirst(rows: Table, id: Id, rows': Table, due: set<Id>, now: Time, hi: Time)
    requires id in DueIds(rows, now) && now <= hi && RowsDrained(SetStatus(rows, id, Queued), rows', due, hi)
    ensures id !in due && RowsDrained(rows, rows', due + {id}, hi)
    ensures MessagesOf(SetStatus(rows, id, Queued), due) == MessagesOf(rows, due)
    ensures MessagesOf(rows, due + {id}) == MessagesOf(rows, due) + {MsgOf(rows, id)}
  {
    assert id !in DueIds(SetStatus(rows, id, Queued), hi);
  }

  lemma DueFirst(s: State, id: Id)
    requires CanSchedule(s, id)
    ensures id in DueIds(s.st.rows, s.now)
    ensures var s1 := Next(s, ScheduleDue(id));
      && s1.st.rows == SetStatus(s.st.rows, id, Queued) && s1.now == s.now && SameElse(s.st, s1.st)
      && s1.st.queue == Enqueue(s.st.queue, MsgOf(s.st.rows, id), s.now)
  {
  }

  lemma DrainedFirst(s: State, id: Id, s': State, due: set<Id>)
    requires CanSchedule(s, id) && s.now <= s'.now && DrainedBy(Next(s, ScheduleDue(id)), s', due)
    ensures DrainedBy(s, s', due + {id})
  {
    DueFirst(s, id);
    RowsFirst(s.st.rows, id, s'.st.rows, due, s.now, s'.now);
    PutFirst(s.st.queue, s'.st.queue, MsgOf(s.st.rows, id), MessagesOf(s.st.rows, due), s.now, s'.now);
  }

  lemma TickLeaves(s: State, elapsed: nat)
    ensures Next(s, Tick(elapsed)).st == s.st && Next(s, Tick(elapsed)).now == s.now + elapsed
  {
  }

  lemma DrainedLater(s: State, elapsed: nat, s': State, due: set<Id>)
    requires DrainedBy(Next(s, Tick(elapsed)), s', due)
    ensures DrainedBy(s, s', due)
  {
    TickLeaves(s, elapsed);
    PutLater(s.st.queue, s'.st.queue, MessagesOf(s.st.rows, due), s.now, s.now + elapsed, s'.now);
  }

  lemma DrainedNothing(s: State)
    ensures DrainedBy(s, s, {})
  {
    PutNothing(s.st.queue, s.now, s.now);
    assert QueuedRows(s.st.rows, {}) == s.st.rows && MessagesOf(s.st.rows, {}) == {};
  }

  /** Ticks and scheduled rows in any order: some rows that came due by the end are queued, nothing else happens. */
  lemma {:induction false} TimedDrain(s: State, acts: seq<Action>, s': State) returns (due: set<Id>)
    requires Path(Enabled, Next, s, acts, s') && OnlyBy(acts, (a: Action) => a.ScheduleDue?)
    ensures DrainedBy(s, s', due)
    decreases |acts|
  {
    if acts == [] {
      due := {};
      DrainedNothing(s);
    } else {
      OnlyRest(acts, (a: Action) => a.ScheduleDue?);
      due := TimedDrain(Next(s, acts[0]), acts[1..], s');
      due := DrainedStep(s, acts[0], acts[1..], s', due);
    }
  }

  lemma DrainedStep(s: State, a: Action, rest: seq<Action>, s': State, due: set<Id>) returns (due': set<Id>)
    requires Enabled(s, a) && (a.Tick? || a.ScheduleDue?) && DrainedBy(Next(s, a), s', due)
    requires Path(Enabled, Next, Next(s, a), rest, s')
    ensures DrainedBy(s, s', due')
  {
    if a.Tick? {
      due' := due;
      DrainedLater(s, a.elapsed, s', due);
    } else {
      due' := due + {a.id};
      ClockRuns(Next(s, a), rest, s');
      DueFirst(s, a.id);
      DrainedFirst(s, a.id, s', due);
    }
  }

  /** When the last query comes back empty, the rows queued are exactly those due at its reading. */
  lemma DrainExactly(s: State, acts: seq<Action>, s': State)
    requires Path(Enabled, Next, s, acts, s') && OnlyBy(acts, (a: Action) => a.ScheduleDue?)
    requires DueIds(s'.st.rows, s'.now) == {}
    ensures DrainedBy(s, s', DueIds(s.st.rows, s'.now))
  {
    var due := TimedDrain(s, acts, s');
    forall id | id in DueIds(s.st.rows, s'.now) ensures id in due { assert id !in DueIds(s'.st.rows, s'.now); }
    assert due == DueIds(s.st.rows, s'.now);
  }

  // ---- the promotions and the reclaims ----

  /** The members of ms have left z for the queues, all due by the end. */
  ghost predicate Left(z: ZSet, z': ZSet, ms: set<Message>, hi: Time) {
    ms <= DueIn(z, hi) && z' == z - ms
  }

  lemma LeftFirst(z: ZSet, m: Message, z': ZSet, ms: set<Message>, now: Time, hi: Time)
    requires Due(z, m, now) && now <= hi && Left(z - {m}, z', ms, hi)
    ensures Left(z, z', ms + {m}, hi)
  {
    Float64.Monotone(now, hi);
    assert z - {m} - ms == z - (ms + {m});
  }

  lemma LeftNothing(z: ZSet, hi: Time)
    ensures Left(z, z, {}, hi)
  {
    assert z - {} == z;
  }

  ghost predicate PromotedBy(s: State, s': State, ms: set<Message>) {
    && s'.st.rows == s.st.rows && s'.st.processing == s.st.processing && s'.st.dead == s.st.dead
    && Left(s.st.delayed, s'.st.delayed, ms, s'.now) && PutDuring(s.st.queue, s'.st.queue, ms, s.now, s'.now)
  }

  ghost predicate ReclaimedBy(s: State, s': State, ch: Channel, ms: set<Message>) {
    && s'.st.rows == s.st.rows && s'.st.delayed == s.st.delayed && s'.st.dead == s.st.dead
    && ChannelLeft(s.st.processing, s'.st.processing, ch, ms, s'.now)
    && PutDuring(s.st.queue, s'.st.queue, ms, s.now, s'.now)
  }

  ghost predicate ChannelLeft(p: ZSets, p': ZSets, ch: Channel, ms: set<Message>, hi: Time) {
    (forall c: Channel :: c != ch ==> p'[c] == p[c]) && Left(p[ch], p'[ch], ms, hi)
  }

  lemma ChannelFirst(p: ZSets, ch: Channel, m: Message, p': ZSets, ms: set<Message>, now: Time, hi: Time)
    requires Due(p[ch], m, now) && now <= hi && ChannelLeft(Ack(p, ch, [m]), p', ch, ms, hi)
    ensures ChannelLeft(p, p', ch, ms + {m}, hi)
  {
    assert Members([m]) == {m};
    LeftFirst(p[ch], m, p'[ch], ms, now, hi);
  }

  lemma PromotedFirst(s: State, m: Message, s': State, ms: set<Message>)
    requires Due(s.st.delayed, m, s.now) && s.now <= s'.now && PromotedBy(DoPromote(s, m), s', ms)
    ensures PromotedBy(s, s', ms + {m})
  {
    LeftFirst(s.st.delayed, m, s'.st.delayed, ms, s.now, s'.now);
    PutFirst(s.st.queue, s'.st.queue, m, ms, s.now, s'.now);
  }

  lemma ReclaimedFirst(s: State, ch: Channel, m: Message, s': State, ms: set<Message>)
    requires Due(s.st.processing[ch], m, s.now) && s.now <= s'.now && ReclaimedBy(DoReclaim(s, ch, m), s', ch, ms)
    ensures ReclaimedBy(s, s', ch, ms + {m})
  {
    ChannelFirst(s.st.processing, ch, m, s'.st.processing, ms, s.now, s'.now);
    PutFirst(s.st.queue, s'.st.queue, m, ms, s.now, s'.now);
  }

  lemma PromotedLater(s: State, elapsed: nat, s': State, ms: set<Message>)
    requires PromotedBy(Next(s, Tick(elapsed)), s', ms)
    ensures PromotedBy(s, s', ms)
  {
    TickLeaves(s, elapsed);
    PutLater(s.st.queue, s'.st.queue, ms, s.now, s.now + elapsed, s'.now);
  }

  lemma ReclaimedLater(s: State, ch: Channel, elapsed: nat, s': State, ms: set<Message>)
    requires ReclaimedBy(Next(s, Tick(elapsed)), s', ch, ms)
    ensures ReclaimedBy(s, s', ch, ms)
  {
    TickLeaves(s, elapsed);
    PutLater(s.st.queue, s'.st.queue, ms, s.now, s.now + elapsed, s'.now);
  }

  lemma PromotedStep(s: State, a: Action, rest: seq<Action>, s': State, ms: set<Message>) returns (ms': set<Message>)
    requires Enabled(s, a) && (a.Tick? || a.Promote?) && PromotedBy(Next(s, a), s', ms) && Path(Enabled, Next, Next(s, a), rest, s')
    ensures PromotedBy(s, s', ms') && ms' == if a.Tick? then ms else ms + {a.m}
  {
    if a.Tick? {
      ms' := ms;
      PromotedLater(s, a.elapsed, s', ms);
    } else {
      ms' := ms + {a.m};
      ClockRuns(Next(s, a), rest, s');
      PromotedFirst(s, a.m, s', ms);
    }
  }

  lemma ReclaimedStep(s: State, ch: Channel, a: Action, rest: seq<Action>, s': State, ms: set<Message>)
    returns (ms': set<Message>)
    requires Enabled(s, a) && (a.Tick? || (a.Reclaim? && a.channel == ch))
    requires ReclaimedBy(Next(s, a), s', ch, ms) && Path(Enabled, Next, Next(s, a), rest, s')
    ensures ReclaimedBy(s, s', ch, ms') && ms' == if a.Tick? then ms else ms + {a.m}
  {
    if a.Tick? {
      ms' := ms;
      ReclaimedLater(s, ch, a.elapsed, s', ms);
    } else {
      ms' := ms + {a.m};
      ClockRuns(Next(s, a), rest, s');
      ReclaimedFirst(s, ch, a.m, s', ms);
    }
  }

  /** Ticks and promotions in any order. */
  lemma {:induction false} TimedPromote(s: State, acts: seq<Action>, s': State) returns (ms: set<Message>)
    requires Path(Enabled, Next, s, acts, s') && OnlyBy(acts, (a: Action) => a.Promote?)
    ensures PromotedBy(s, s', ms) && forall m :: m in ms ==> Promote(m) in acts
    decreases |acts|
  {
    if acts == [] {
      ms := {};
      PutNothing(s.st.queue, s.now, s.now);
      LeftNothing(s.st.delayed, s.now);
    } else {
      OnlyRest(acts, (a: Action) => a.Promote?);
      ms := TimedPromote(Next(s, acts[0]), acts[1..], s');
      ms := PromotedStep(s, acts[0], acts[1..], s', ms);
    }
  }

  /** Ticks and reclaims of one channel in any order. */
  lemma {:induction false} TimedReclaim(s: State, ch: Channel, acts: seq<Action>, s': State) returns (ms: set<Message>)
    requires Path(Enabled, Next, s, acts, s') && OnlyBy(acts, (a: Action) => a.Reclaim? && a.channel == ch)
    ensures ReclaimedBy(s, s', ch, ms) && forall m :: m in ms ==> Reclaim(ch, m) in acts
    decreases |acts|
  {
    if acts == [] {
      ms := {};
      PutNothing(s.st.queue, s.now, s.now);
      LeftNothing(s.st.processing[ch], s.now);
    } else {
      OnlyRest(acts, (a: Action) => a.Reclaim? && a.channel == ch);
      ms := TimedReclaim(Next(s, acts[0]), ch, acts[1..], s');
      ms := ReclaimedStep(s, ch, acts[0], acts[1..], s', ms);
    }
  }

  /** When the members read at the start, and no others, are moved one by one, they are exactly those due then. */
  lemma PromoteExactly(s: State, acts: seq<Action>, s': State)
    requires Path(Enabled, Next, s, acts, s') && OnlyBy(acts, (a: Action) => a.Promote?)
    requires forall m :: Promote(m) in acts <==> m in DueIn(s.st.delayed, s.now)
    ensures PromotedBy(s, s', DueIn(s.st.delayed, s.now))
  {
    var ms := TimedPromote(s, acts, s');
    forall m | m in DueIn(s.st.delayed, s.now) ensures m in ms { PromotedGone(s, acts, s', m); }
    assert ms == DueIn(s.st.delayed, s.now);
  }

  /** What a path of promotions promotes is gone at its end. */
  lemma {:induction false} PromotedGone(s: State, acts: seq<Action>, s': State, m: Message)
    requires Path(Enabled, Next, s, acts, s') && OnlyBy(acts, (a: Action) => a.Promote?) && Promote(m) in acts
    ensures m !in s'.st.delayed
    decreases |acts|
  {
    OnlyRest(acts, (a: Action) => a.Promote?);
    if acts[0] == Promote(m) {
      var ms := TimedPromote(Next(s, acts[0]), acts[1..], s');
    } else {
      PromotedGone(Next(s, acts[0]), acts[1..], s', m);
    }
  }

  lemma ReclaimExactly(s: State, ch: Channel, acts: seq<Action>, s': State)
    requires Path(Enabled, Next, s, acts, s') && OnlyBy(acts, (a: Action) => a.Reclaim? && a.channel == ch)
    requires forall m :: Reclaim(ch, m) in acts <==> m in DueIn(s.st.processing[ch], s.now)
    ensures ReclaimedBy(s, s', ch, DueIn(s.st.processing[ch], s.now))
  {
    var ms := TimedReclaim(s, ch, acts, s');
    forall m | m in DueIn(s.st.processing[ch], s.now) ensures m in ms { ReclaimedGone(s, ch, acts, s', m); }
    assert ms == DueIn(s.st.processing[ch], s.now);
  }

  lemma {:induction false} ReclaimedGone(s: State, ch: Channel, acts: seq<Action>, s': State, m: Message)
    requires Path(Enabled, Next, s, acts, s') && OnlyBy(acts, (a: Action) => a.Reclaim? && a.channel == ch)
    requires Reclaim(ch, m) in acts
    ensures m !in s'.st.processing[ch]
    decreases |acts|
  {
    OnlyRest(acts, (a: Action) => a.Reclaim? && a.channel == ch);
    if acts[0] == Reclaim(ch, m) {
      assert Members([m]) == {m};
      var ms := TimedReclaim(Next(s, acts[0]), ch, acts[1..], s');
    } else {
      ReclaimedGone(Next(s, acts[0]), ch, acts[1..], s', m);
    }
  }
}
