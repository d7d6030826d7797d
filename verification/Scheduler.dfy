/** The scheduler: one poll drains the due rows, promotes the due retries and reclaims the expired messages. */
module Scheduler {
  import opened Domain
  import opened Databases
  import opened Postgres
  import opened RedisQueue
  import opened Arithmetic

  /** Rows fetched by one GetPendingScheduled. */
  const PAGE: nat := 500

  const CHANNELS: seq<Channel> := [SMS, Email, Push]
  const ALL: set<Channel> := {SMS, Email, Push}

  function MessagesOf(rows: Table, ids: set<Id>): set<Message> {
    set id | id in ids && id in rows :: MsgOf(rows, id)
  }

  function OnChannel(ms: set<Message>, ch: Channel): set<Message> {
    set m | m in ms && m.channel == ch
  }

  /** z with the messages of ms for ch, scored at `now`. */
  function WithOn(z: ZSet, ms: set<Message>, ch: Channel, now: Time): ZSet {
    z + map m | m in OnChannel(ms, ch) :: Score(m, now)
  }

  /** Every message of ms in the queue of its channel. */
  function WithMessages(queue: ZSets, ms: set<Message>, now: Time): ZSets {
    map ch: Channel | ch in queue :: WithOn(queue[ch], ms, ch, now)
  }

  function Without(z: ZSet, now: Time): ZSet {
    z - DueIn(z, now)
  }

  /** The expired messages of the processing sets of chs. */
  function ExpiredOn(processing: ZSets, chs: set<Channel>, now: Time): set<Message> {
    set ch, m | ch in chs && m in DueIn(processing[ch], now) :: m
  }

  function KeptChannel(processing: ZSets, ch: Channel, now: Time): ZSets {
    processing[ch := Without(processing[ch], now)]
  }

  function KeptOn(processing: ZSets, chs: set<Channel>, now: Time): ZSets {
    map ch: Channel | ch in processing :: if ch in chs then Without(processing[ch], now) else processing[ch]
  }

  /** What a poll enqueues. */
  function Moved(st: Store, now: Time): set<Message> {
    MessagesOf(st.rows, DueIds(st.rows, now)) + DueIn(st.delayed, now) + ExpiredOn(st.processing, ALL, now)
  }

  /** The databases after a poll that gets the lock. */
  function Polled(st: Store, now: Time): Store {
    Store(QueuedRows(st.rows, DueIds(st.rows, now)), st.dead, WithMessages(st.queue, Moved(st, now), now),
          KeptOn(st.processing, ALL, now), Without(st.delayed, now))
  }

  /** k rows in pages: the quotient rounded up. */
  function Pages(k: nat): nat {
    (k + PAGE - 1) / PAGE
  }

  class Scheduler {
    const repo: Repository
    const redis: Redis

    constructor (repo: Repository, redis: Redis)
      ensures this.repo == repo && this.redis == redis
    {
      this.repo, this.redis := repo, redis;
    }

    ghost function Stored(): Store
      reads repo, redis
    {
      Store(repo.rows, repo.dead, redis.queue, redis.processing, redis.delayed)
    }

    /** One tick: without the lock nothing happens. */
    method Poll(acquired: bool, now: Time)
      modifies repo`rows, redis`queue, redis`processing, redis`delayed
      ensures Stored() == if acquired then Polled(old(Stored()), now) else old(Stored())
    {
      if !acquired { return; }
      ghost var q, rows := redis.queue, repo.rows;
      ghost var due, delayed := MessagesOf(rows, DueIds(rows, now)), DueIn(redis.delayed, now);
      ghost var expired := ExpiredOn(redis.processing, ALL, now);
      var _ := Drain(now);
      PromoteDelayedRetries(now);
      WithMore(q, due, delayed, now);
      ReclaimExpiredProcessing(now);
      WithMore(q, due + delayed, expired, now);
    }

    /** Pages of due rows until one comes back empty. */
    method Drain(now: Time) returns (pages: nat)
      modifies repo`rows, redis`queue
      ensures repo.rows == QueuedRows(old(repo.rows), DueIds(old(repo.rows), now))
      ensures redis.queue == WithMessages(old(redis.queue), MessagesOf(old(repo.rows), DueIds(old(repo.rows), now)), now)
      ensures unchanged(redis`processing) && unchanged(redis`delayed) && unchanged(repo`dead)
      ensures pages == Pages(|DueIds(old(repo.rows), now)|)
    {
      pages := 0;
      ghost var rows, q, due, done := repo.rows, redis.queue, DueIds(repo.rows, now), {};
      NothingMoved(rows, q, now);
      while true
        invariant repo.rows == QueuedRows(rows, done)
        invariant redis.queue == WithMessages(q, MessagesOf(rows, done), now)
        invariant PagesDone(due, done, pages)
        invariant unchanged(redis`processing) && unchanged(redis`delayed) && unchanged(repo`dead)
        decreases due - done
      {
        var ids := repo.GetPendingScheduled(now, PAGE);
        PageOfDue(rows, done, now, ids);
        if |ids| == 0 {
          assert PagesDone(due, due, pages);
          break;
        }
        MorePages(due, done, IdSet(ids), pages);
        EnqueuePage(ids, now, rows, q, done);
        done := done + IdSet(ids);
        pages := pages + 1;
      }
    }

    /** The rows of one page. */
    method EnqueuePage(ids: seq<Id>, now: Time, ghost rows: Table, ghost q: ZSets, ghost done: set<Id>)
      requires repo.rows == QueuedRows(rows, done) && redis.queue == WithMessages(q, MessagesOf(rows, done), now)
      requires forall id :: id in ids ==> id in rows
      modifies repo`rows, redis`queue
      ensures repo.rows == QueuedRows(rows, done + IdSet(ids))
      ensures redis.queue == WithMessages(q, MessagesOf(rows, done + IdSet(ids)), now)
      ensures unchanged(redis`processing) && unchanged(redis`delayed) && unchanged(repo`dead)
    {
      PageStart(done, ids);
      for i := 0 to |ids|
        invariant repo.rows == QueuedRows(rows, done + IdSet(ids[..i]))
        invariant redis.queue == WithMessages(q, MessagesOf(rows, done + IdSet(ids[..i])), now)
      {
        assert ids[i] in ids;
        PageNext(q, rows, done, ids, i, now);
        EnqueueRow(ids[i], now);
      }
      PageStart(done, ids);
    }

    /** ZADD, then status queued. */
    method EnqueueRow(id: Id, now: Time)
      requires id in repo.rows
      modifies repo`rows, redis`queue
      ensures repo.rows == SetStatus(old(repo.rows), id, Queued)
      ensures redis.queue == Enqueue(old(redis.queue), MsgOf(old(repo.rows), id), now)
      ensures unchanged(redis`processing) && unchanged(redis`delayed) && unchanged(repo`dead)
    {
      redis.Enqueue(Message(id, repo.rows[id].channel, repo.rows[id].priority, None), now);
      repo.UpdateStatus(id, Queued);
    }

    method PromoteDelayedRetries(now: Time)
      modifies redis`queue, redis`delayed
      ensures redis.delayed == Without(old(redis.delayed), now)
      ensures redis.queue == WithMessages(old(redis.queue), DueIn(old(redis.delayed), now), now)
    {
      ghost var q, z := redis.queue, redis.delayed;
      var ms := redis.RangeDue(redis.delayed, now);
      MovesStart(q, z, ms, now);
      for i := 0 to |ms|
        invariant redis.delayed == z - Members(ms[..i])
        invariant redis.queue == WithMessages(q, Members(ms[..i]), now)
      {
        MovesNext(q, z, ms, i, now);
        redis.Enqueue(ms[i], now);
        redis.RemoveDelayed(ms[i]);
      }
      MovesEnd(ms, DueIn(z, now));
    }

    method ReclaimExpiredProcessing(now: Time)
      modifies redis`queue, redis`processing
      ensures redis.processing == KeptOn(old(redis.processing), ALL, now)
      ensures redis.queue == WithMessages(old(redis.queue), ExpiredOn(old(redis.processing), ALL, now), now)
    {
      ghost var q, p := redis.queue, redis.processing;
      NoneSeen(q, p, now);
      for i := 0 to |CHANNELS|
        invariant Reclaimed(q, p, redis.queue, redis.processing, i, now)
      {
        NextSeen(q, p, redis.queue, redis.processing, i, now);
        ReclaimChannel(CHANNELS[i], now);
      }
      AllSeen();
    }

    method ReclaimChannel(ch: Channel, now: Time)
      modifies redis`queue, redis`processing
      ensures redis.processing == KeptChannel(old(redis.processing), ch, now)
      ensures redis.queue == WithMessages(old(redis.queue), DueIn(old(redis.processing)[ch], now), now)
    {
      ghost var q, p := redis.queue, redis.processing;
      var ms := redis.RangeDue(redis.processing[ch], now);
      MovesStart(q, p[ch], ms, now);
      AcksStart(p, ch, ms);
      for i := 0 to |ms|
        invariant redis.processing == Ack(p, ch, ms[..i])
        invariant redis.queue == WithMessages(q, Members(ms[..i]), now)
      {
        MovesNext(q, p[ch], ms, i, now);
        AcksNext(p, ch, ms, i);
        ReclaimOne(ch, ms[i], now);
      }
      MovesEnd(ms, DueIn(p[ch], now));
      AcksEnd(p, ch, ms, now);
    }

    /** ZADD to the queue of the message, ZREM from the set it was found in. */
    method ReclaimOne(ch: Channel, m: Message, now: Time)
      modifies redis`queue, redis`processing
      ensures redis.queue == Enqueue(old(redis.queue), m, now) && redis.processing == Ack(old(redis.processing), ch, [m])
    {
      redis.Enqueue(m, now);
      redis.Ack(ch, [m]);
    }
  }

  /** No page too many, and none of more than 500 rows. */
  lemma PagesAre(k: nat)
    ensures k <= 500 * Pages(k) < k + 500
  {
  }

  // ---- the loops, turn by turn ----

  lemma MovesStart(q: ZSets, z: ZSet, ms: seq<Message>, now: Time)
    ensures WithMessages(q, Members(ms[..0]), now) == q && z - Members(ms[..0]) == z
  {
    assert Members(ms[..0]) == {};
    NoMessages(q, now);
  }

  lemma MovesNext(q: ZSets, z: ZSet, ms: seq<Message>, i: nat, now: Time)
    requires i < |ms|
    ensures WithMessages(q, Members(ms[..i + 1]), now) == Enqueue(WithMessages(q, Members(ms[..i]), now), ms[i], now)
    ensures z - Members(ms[..i + 1]) == z - Members(ms[..i]) - {ms[i]}
  {
    assert Members(ms[..i + 1]) == Members(ms[..i]) + {ms[i]};
    WithOne(q, Members(ms[..i]), ms[i], now);
  }

  lemma MovesEnd(ms: seq<Message>, due: set<Message>)
    requires Lists(ms, due)
    ensures Members(ms[..|ms|]) == due
  {
    assert ms[..|ms|] == ms;
  }

  lemma AcksStart(p: ZSets, ch: Channel, ms: seq<Message>)
    ensures Ack(p, ch, ms[..0]) == p
  {
    assert p[ch] - Members(ms[..0]) == p[ch];
  }

  lemma AcksEnd(p: ZSets, ch: Channel, ms: seq<Message>, now: Time)
    requires Lists(ms, DueIn(p[ch], now))
    ensures Ack(p, ch, ms[..|ms|]) == KeptChannel(p, ch, now)
  {
    MovesEnd(ms, DueIn(p[ch], now));
  }

  lemma AcksNext(p: ZSets, ch: Channel, ms: seq<Message>, i: nat)
    requires i < |ms|
    ensures Ack(p, ch, ms[..i + 1]) == Ack(Ack(p, ch, ms[..i]), ch, [ms[i]])
  {
    assert Members([ms[i]]) == {ms[i]} && Members(ms[..i + 1]) == Members(ms[..i]) + {ms[i]};
    assert p[ch] - Members(ms[..i + 1]) == p[ch] - Members(ms[..i]) - {ms[i]};
  }

  lemma PageStart(done: set<Id>, ids: seq<Id>)
    ensures done + IdSet(ids[..0]) == done && ids[..|ids|] == ids
  {
  }

  lemma PageNext(q: ZSets, rows: Table, done: set<Id>, ids: seq<Id>, i: nat, now: Time)
    requires i < |ids| && ids[i] in rows
    ensures var seen := done + IdSet(ids[..i]); var seen' := done + IdSet(ids[..i + 1]);
      && QueuedRows(rows, seen') == SetStatus(QueuedRows(rows, seen), ids[i], Queued)
      && WithMessages(q, MessagesOf(rows, seen'), now) ==
           Enqueue(WithMessages(q, MessagesOf(rows, seen), now), MsgOf(rows, ids[i]), now)
      && ids[i] in QueuedRows(rows, seen) && MsgOf(QueuedRows(rows, seen), ids[i]) == MsgOf(rows, ids[i])
  {
    var seen := done + IdSet(ids[..i]);
    assert done + IdSet(ids[..i + 1]) == seen + {ids[i]};
    DrainedOne(rows, seen, ids[i]);
    WithOne(q, MessagesOf(rows, seen), MsgOf(rows, ids[i]), now);
  }

  /** The first i channels done, starting from q and p. */
  ghost predicate Reclaimed(q: ZSets, p: ZSets, q': ZSets, p': ZSets, i: nat, now: Time) {
    && i <= |CHANNELS| && p' == KeptOn(p, Seen(i), now)
    && q' == WithMessages(q, ExpiredOn(p, Seen(i), now), now)
  }

  lemma NoneSeen(q: ZSets, p: ZSets, now: Time)
    ensures Reclaimed(q, p, q, p, 0, now)
  {
    assert ExpiredOn(p, Seen(0), now) == {};
    NoMessages(q, now);
  }

  lemma AllSeen()
    ensures |CHANNELS| == 3 && Seen(3) == ALL
  {
    forall ch: Channel ensures ch in Seen(3) {
      assert CHANNELS[..3] == CHANNELS;
      match ch
      case SMS => assert CHANNELS[0] == ch;
      case Email => assert CHANNELS[1] == ch;
      case Push => assert CHANNELS[2] == ch;
    }
  }

  lemma NextSeen(q: ZSets, p: ZSets, q': ZSets, p': ZSets, i: nat, now: Time)
    requires i < |CHANNELS| && Reclaimed(q, p, q', p', i, now)
    ensures var ch := CHANNELS[i];
      Reclaimed(q, p, WithMessages(q', DueIn(p'[ch], now), now), KeptChannel(p', ch, now), i + 1, now)
  {
    var ch := CHANNELS[i];
    SeenNext(i);
    KeptNext(p, Seen(i), ch, now);
    ExpiredNext(p, Seen(i), ch, now);
    WithMore(q, ExpiredOn(p, Seen(i), now), DueIn(p[ch], now), now);
  }

  lemma SeenNext(i: nat)
    requires i < |CHANNELS|
    ensures Seen(i + 1) == Seen(i) + {CHANNELS[i]} && CHANNELS[i] !in Seen(i)
  {
  }

  lemma KeptNext(p: ZSets, seen: set<Channel>, ch: Channel, now: Time)
    requires ch !in seen
    ensures KeptOn(p, seen, now)[ch] == p[ch]
    ensures KeptOn(p, seen + {ch}, now) == KeptChannel(KeptOn(p, seen, now), ch, now)
  {
  }

  lemma ExpiredNext(p: ZSets, seen: set<Channel>, ch: Channel, now: Time)
    ensures ExpiredOn(p, seen + {ch}, now) == ExpiredOn(p, seen, now) + DueIn(p[ch], now)
  {
  }

  function Seen(i: nat): set<Channel>
    requires i <= |CHANNELS|
  {
    set ch | ch in CHANNELS[..i]
  }

  lemma NoMessages(q: ZSets, now: Time)
    ensures WithMessages(q, {}, now) == q
  {
    forall ch: Channel ensures WithOn(q[ch], {}, ch, now) == q[ch] { assert OnChannel({}, ch) == {}; }
  }

  lemma NothingMoved(rows: Table, q: ZSets, now: Time)
    ensures QueuedRows(rows, {}) == rows && WithMessages(q, MessagesOf(rows, {}), now) == q
  {
    assert MessagesOf(rows, {}) == {};
    NoMessages(q, now);
  }

  lemma WithOneOn(z: ZSet, ms: set<Message>, m: Message, ch: Channel, now: Time)
    ensures WithOn(z, ms + {m}, ch, now) ==
      if m.channel == ch then WithOn(z, ms, ch, now)[m := Score(m, now)] else WithOn(z, ms, ch, now)
  {
    assert OnChannel(ms + {m}, ch) == if m.channel == ch then OnChannel(ms, ch) + {m} else OnChannel(ms, ch);
  }

  lemma WithOne(q: ZSets, ms: set<Message>, m: Message, now: Time)
    ensures WithMessages(q, ms + {m}, now) == Enqueue(WithMessages(q, ms, now), m, now)
  {
    forall ch: Channel ensures WithMessages(q, ms + {m}, now)[ch] == Enqueue(WithMessages(q, ms, now), m, now)[ch] {
      WithOneAt(q, ms, m, ch, now);
    }
  }

  lemma WithOneAt(q: ZSets, ms: set<Message>, m: Message, ch: Channel, now: Time)
    ensures WithMessages(q, ms + {m}, now)[ch] == Enqueue(WithMessages(q, ms, now), m, now)[ch]
  {
    WithOneOn(q[ch], ms, m, ch, now);
    assert WithMessages(q, ms, now)[ch] == WithOn(q[ch], ms, ch, now);
  }

  lemma WithMoreOn(z: ZSet, a: set<Message>, b: set<Message>, ch: Channel, now: Time)
    ensures WithOn(WithOn(z, a, ch, now), b, ch, now) == WithOn(z, a + b, ch, now)
  {
    assert OnChannel(a + b, ch) == OnChannel(a, ch) + OnChannel(b, ch);
  }

  lemma WithMore(q: ZSets, a: set<Message>, b: set<Message>, now: Time)
    ensures WithMessages(WithMessages(q, a, now), b, now) == WithMessages(q, a + b, now)
  {
    forall ch: Channel
      ensures WithMessages(WithMessages(q, a, now), b, now)[ch] == WithMessages(q, a + b, now)[ch]
    {
      WithMoreOn(q[ch], a, b, ch, now);
    }
  }

  lemma DrainedOne(rows: Table, ids: set<Id>, id: Id)
    requires id in rows
    ensures QueuedRows(rows, ids + {id}) == SetStatus(QueuedRows(rows, ids), id, Queued)
    ensures MessagesOf(rows, ids + {id}) == MessagesOf(rows, ids) + {MsgOf(rows, id)}
  {
  }

  lemma DueLeft(rows: Table, done: set<Id>, now: Time)
    ensures DueIds(QueuedRows(rows, done), now) == DueIds(rows, now) - done
  {
  }

  lemma {:induction false} SetSize(ids: seq<Id>)
    requires forall i, j :: 0 <= i < j < |ids| ==> ids[i] != ids[j]
    ensures |IdSet(ids)| == |ids|
  {
    if ids != [] {
      SetSize(ids[1..]);
      assert forall i :: 0 <= i < |ids[1..]| ==> ids[1..][i] == ids[i + 1];
      assert ids == [ids[0]] + ids[1..];
      assert IdSet(ids) == {ids[0]} + IdSet(ids[1..]);
    }
  }

  /** A page is full unless it is the last. */
  lemma PageSize(rows: Table, now: Time, limit: nat, ids: seq<Id>)
    requires IsPage(rows, now, limit, ids)
    ensures IdSet(ids) <= DueIds(rows, now) && |IdSet(ids)| == |ids| <= limit
    ensures |ids| < limit ==> IdSet(ids) == DueIds(rows, now)
  {
    SetSize(ids);
    SubsetRest(IdSet(ids), DueIds(rows, now));
  }

  /** Full pages so far, or the last one too. */
  predicate PagesDone(due: set<Id>, done: set<Id>, pages: nat) {
    done <= due && (|done| == PAGE * pages || (done == due && pages == Pages(|due|)))
  }

  lemma PageOfDue(rows: Table, done: set<Id>, now: Time, ids: seq<Id>)
    requires IsPage(QueuedRows(rows, done), now, PAGE, ids)
    ensures IdSet(ids) <= DueIds(rows, now) - done && |IdSet(ids)| == |ids| <= PAGE
    ensures |ids| < PAGE ==> IdSet(ids) == DueIds(rows, now) - done
    ensures |ids| == 0 && done <= DueIds(rows, now) ==> done == DueIds(rows, now)
    ensures forall id :: id in ids ==> id in rows
    ensures |ids| > 0 ==> DueIds(rows, now) - (done + IdSet(ids)) < DueIds(rows, now) - done
  {
    DueLeft(rows, done, now);
    PageSize(QueuedRows(rows, done), now, PAGE, ids);
    assert forall id :: id in ids ==> id in IdSet(ids);
    if |ids| > 0 { assert ids[0] in IdSet(ids); }
  }

  lemma MorePages(due: set<Id>, done: set<Id>, page: set<Id>, pages: nat)
    requires done <= due && page <= due - done && 0 < |page| <= PAGE && (|page| < PAGE ==> page == due - done)
    requires PagesDone(due, done, pages)
    ensures PagesDone(due, done + page, pages + 1)
  {
    SubsetRest(done, due);
    SubsetRest(page, due - done);
    assert |done + page| == |done| + |page|;
    if page == due - done { assert done + page == due; }
  }
}
