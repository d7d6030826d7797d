/** The dispatcher of one channel: a grant of the rate limiter, then a dequeue of that many messages, eagerly
    repeated while batches come back full. */
module Dispatcher {
  import opened Domain
  import opened Databases
  import opened RedisQueue
  import opened RateLimiter
  import opened DispatchRuns
  import Float64

  /** What one turn of the polling loop reads from outside: the clocks, the random members of the limiter's set,
      and whether the context is cancelled afterwards. */
  datatype Turn = Turn(clock: Time, server: Time, labels: seq<Label>, popped: Time, cancelled: bool)

  class Dispatcher {
    const limiter: RateLimiter
    const redis: Redis
    const batchSize: nat

    constructor (limiter: RateLimiter, redis: Redis, batchSize: int)
      ensures this.limiter == limiter && this.redis == redis
      ensures this.batchSize == (if batchSize <= 0 then 10 else batchSize) > 0
    {
      this.limiter, this.redis := limiter, redis;
      this.batchSize := if batchSize <= 0 then 10 else batchSize;
    }

    ghost function Limit(): Key
      reads limiter
    {
      Key(limiter.entries, limiter.expiresAt)
    }

    /** One batch: never more messages than the limiter grants at this reading. */
    method Dispatch(ch: Channel, t: Turn, visibility: nat) returns (msgs: seq<Message>)
      requires 0 < batchSize <= |t.labels|
      modifies limiter`entries, limiter`expiresAt, redis`queue, redis`processing
      ensures Limit() == After(old(Limit()), limiter.limit, Ask(t, batchSize))
      ensures |msgs| == Min(Granted(old(Limit()), limiter.limit, Ask(t, batchSize)), |old(redis.queue)[ch]|) <= batchSize
      ensures Pops(old(redis.queue)[ch], msgs) && redis.queue == Left(old(redis.queue), ch, msgs)
      ensures redis.processing == Marked(old(redis.processing), ch, msgs, t.popped + visibility)
    {
      var allowed := limiter.AllowN(t.clock, t.server, batchSize, t.labels);
      assert unchanged(redis`queue) && unchanged(redis`processing);
      msgs := Take(ch, allowed, t.popped, visibility);
    }

    /** Nothing granted, nothing dequeued. */
    method Take(ch: Channel, allowed: nat, popped: Time, visibility: nat) returns (msgs: seq<Message>)
      modifies redis`queue, redis`processing
      ensures |msgs| == Min(allowed, |old(redis.queue)[ch]|)
      ensures Took(old(redis.queue), old(redis.processing), redis.queue, redis.processing, ch, msgs, popped + visibility)
      ensures unchanged(limiter`entries) && unchanged(limiter`expiresAt)
    {
      if allowed == 0 {
        msgs := [];
        NoneTaken(redis.queue, redis.processing, ch, popped + visibility);
        return;
      }
      msgs := redis.DequeueBatch(ch, allowed, popped, visibility);
    }

    /** The inner loop of the dispatch loop, after the dispatches `past` of whoever shares the limiter. It hands out
        the head of the queue in order, makes at most |queue| / batchSize full turns, only a cancelled context stops
        it after a full one, its steps continue the run of dispatches, and at most limit / batchSize of its full turns
        share a window. */
    method EagerPoll(ch: Channel, turn: nat -> Turn, visibility: nat, ghost past: seq<Step>)
      returns (full: nat, taken: seq<Message>, ghost steps: seq<Step>)
      requires 0 < batchSize && forall i: nat :: batchSize <= |turn(i).labels|
      requires Dispatches(limiter.limit, past) && KeyIs(limiter.limit, past, Limit())
      modifies limiter`entries, limiter`expiresAt, redis`queue, redis`processing
      ensures full * batchSize <= |taken| < full * batchSize + batchSize && |taken| <= |old(redis.queue)[ch]|
      ensures Pops(old(redis.queue)[ch], taken) && redis.queue == old(redis.queue)[ch := old(redis.queue)[ch] - Members(taken)]
      ensures |steps| == full + 1 || (|steps| == full > 0 && turn(full - 1).cancelled)
      ensures Polls(limiter.limit, past, steps, full, batchSize, Limit()) && Follows(steps, turn, batchSize, taken)
      ensures BoundedByWindow(limiter.limit, past, steps, full, batchSize)
    {
      full, taken, steps := Turns(ch, turn, visibility, past);
      EagerBound(limiter.limit, past, steps, full, batchSize, Limit());
    }

    /** Dispatches until one comes back short. */
    method Turns(ch: Channel, turn: nat -> Turn, visibility: nat, ghost past: seq<Step>)
      returns (full: nat, taken: seq<Message>, ghost steps: seq<Step>)
      requires 0 < batchSize && forall i: nat :: batchSize <= |turn(i).labels|
      requires Dispatches(limiter.limit, past) && KeyIs(limiter.limit, past, Limit())
      modifies limiter`entries, limiter`expiresAt, redis`queue, redis`processing
      ensures full * batchSize <= |taken| < full * batchSize + batchSize && |taken| <= |old(redis.queue)[ch]|
      ensures HandedOut(old(redis.queue), redis.queue, ch, taken)
      ensures |steps| == full + 1 || (|steps| == full > 0 && turn(full - 1).cancelled)
      ensures Polls(limiter.limit, past, steps, full, batchSize, Limit()) && Follows(steps, turn, batchSize, taken)
    {
      full, taken, steps := 0, [], [];
      ghost var q := redis.queue;
      NothingYet(limiter.limit, past, turn, batchSize, Limit(), q, ch);
      while true
        invariant |taken| == full * batchSize && |steps| == full
        invariant HandedOut(q, redis.queue, ch, taken)
        invariant Polls(limiter.limit, past, steps, full, batchSize, Limit()) && Follows(steps, turn, batchSize, taken)
        decreases |redis.queue[ch]|
      {
        ghost var step;
        var msgs;
        msgs, step := TakeTurn(ch, turn, full, visibility, past, steps, q, taken);
        NextTurn(full, batchSize);
        taken, steps := taken + msgs, steps + [step];
        if |msgs| < batchSize { break; }
        full := full + 1;
        if turn(full - 1).cancelled { break; }
      }
    }

    /** Turn n of the loop: the n before it were full. */
    method TakeTurn(ch: Channel, turn: nat -> Turn, n: nat, visibility: nat, ghost past: seq<Step>, ghost steps: seq<Step>,
                    ghost q: ZSets, ghost taken: seq<Message>) returns (msgs: seq<Message>, ghost step: Step)
      requires 0 < batchSize <= |turn(n).labels| && HandedOut(q, redis.queue, ch, taken) && |steps| == n
      requires Polls(limiter.limit, past, steps, n, batchSize, Limit()) && Follows(steps, turn, batchSize, taken)
      modifies limiter`entries, limiter`expiresAt, redis`queue, redis`processing
      ensures |msgs| <= batchSize && HandedOut(q, redis.queue, ch, taken + msgs)
      ensures Polls(limiter.limit, past, steps + [step], if |msgs| < batchSize then n else n + 1, batchSize, Limit())
      ensures Follows(steps + [step], turn, batchSize, taken + msgs)
    {
      ghost var q1, k := redis.queue, Limit();
      msgs := Dispatch(ch, turn(n), visibility);
      step := Step(Ask(turn(n), batchSize), |q1[ch]|, msgs);
      PollsMore(limiter.limit, past, steps, batchSize, k, step);
      FollowsMore(steps, turn, batchSize, taken, step);
      HandMore(q, q1, ch, taken, msgs);
    }
  }

  /** The call a turn makes to the limiter: for a whole batch. */
  function Ask(t: Turn, batch: nat): Request {
    Request(Float64.F64(t.clock), t.server, batch, t.labels)
  }

  /** A limiter nobody has used grants a whole batch, or its limit if that is less, and notes it at the reading of the clock. */
  lemma IdleGrantsABatch(limit: nat, t: Turn, batch: nat)
    requires 0 < batch <= |t.labels| && limit > 0
    ensures var k := After(Key(map[], 0), limit, Ask(t, batch));
      && Granted(Key(map[], 0), limit, Ask(t, batch)) == (if batch < limit then batch else limit)
      && (forall l :: l in k.entries ==> k.entries[l] == Float64.F64(t.clock)) && k.expiresAt == t.server + 2_000_000_000
  {
    assert Live(map[], Float64.F64(t.clock)) == map[];
    forall l { AfterIs(Key(map[], 0), limit, Ask(t, batch), l); }
  }

  /** The i-th step is turn i's, and together they took these messages. */
  ghost predicate Follows(steps: seq<Step>, turn: nat -> Turn, batch: nat, taken: seq<Message>)
    decreases |steps|
  {
    if steps == [] then taken == []
    else
      var n := |steps| - 1;
      && steps[n].call == Ask(turn(n), batch) && |steps[n].msgs| <= |taken|
      && taken[|taken| - |steps[n].msgs|..] == steps[n].msgs
      && Follows(steps[..n], turn, batch, taken[..|taken| - |steps[n].msgs|])
  }

  lemma FollowsMore(steps: seq<Step>, turn: nat -> Turn, batch: nat, taken: seq<Message>, step: Step)
    requires Follows(steps, turn, batch, taken) && step.call == Ask(turn(|steps|), batch)
    ensures Follows(steps + [step], turn, batch, taken + step.msgs)
  {
  }

  lemma NextTurn(full: nat, batch: nat)
    ensures (full + 1) * batch == full * batch + batch
  {
  }

  /** taken is the head of q's queue of ch, in order, and q' is q without it. */
  ghost predicate HandedOut(q: ZSets, q': ZSets, ch: Channel, taken: seq<Message>) {
    Pops(q[ch], taken) && q' == Left(q, ch, taken) && |q'[ch]| + |taken| == |q[ch]|
  }

  lemma NothingYet(limit: int, past: seq<Step>, turn: nat -> Turn, batch: nat, k: Key, q: ZSets, ch: Channel)
    requires Dispatches(limit, past) && KeyIs(limit, past, k)
    ensures Polls(limit, past, [], 0, batch, k) && Follows([], turn, batch, []) && HandedOut(q, q, ch, [])
  {
    assert past + [] == past;
    assert q[ch] - Members([]) == q[ch];
  }

  lemma HandMore(q: ZSets, q1: ZSets, ch: Channel, taken: seq<Message>, msgs: seq<Message>)
    requires HandedOut(q, q1, ch, taken) && Pops(q1[ch], msgs)
    ensures HandedOut(q, Left(q1, ch, msgs), ch, taken + msgs) && |Left(q1, ch, msgs)[ch]| == |q1[ch]| - |msgs|
  {
    LeftMore(q, ch, taken, msgs);
  }

  /** ms is the head of the queue of ch, in order, and has moved to the processing set. */
  ghost predicate Took(q: ZSets, p: ZSets, q': ZSets, p': ZSets, ch: Channel, ms: seq<Message>, deadline: Time) {
    Pops(q[ch], ms) && q' == Left(q, ch, ms) && p' == Marked(p, ch, ms, deadline)
  }

  /** The queues once ms has been popped from that of ch. */
  function Left(q: ZSets, ch: Channel, ms: seq<Message>): ZSets {
    q[ch := q[ch] - Members(ms)]
  }

  lemma NoneTaken(q: ZSets, p: ZSets, ch: Channel, deadline: nat)
    ensures Left(q, ch, []) == q && Marked(p, ch, [], deadline) == p
  {
    assert q[ch] - Members([]) == q[ch];
    assert AddAll(p[ch], [], Float64.F64(deadline)) == p[ch];
  }

  lemma HeadGone(z: ZSet, b: seq<Message>)
    requires b != [] && b[0] in z
    ensures z - {b[0]} - Members(b[1..]) == z - Members(b)
    ensures |z - {b[0]}| == |z| - 1
  {
    assert b == [b[0]] + b[1..];
    assert Members(b) == {b[0]} + Members(b[1..]);
    assert (z - {b[0]}).Keys == z.Keys - {b[0]} && |(z - {b[0]}).Keys| == |z - {b[0]}| && |z.Keys| == |z|;
  }

  lemma {:induction false} PopsCount(z: ZSet, b: seq<Message>)
    requires Pops(z, b)
    ensures |z - Members(b)| == |z| - |b|
    decreases |b|
  {
    if b == [] {
      assert z - Members(b) == z;
    } else {
      HeadGone(z, b);
      PopsCount(z - {b[0]}, b[1..]);
    }
  }

  lemma {:induction false} PopsAfter(z: ZSet, a: seq<Message>, b: seq<Message>)
    requires Pops(z, a) && Pops(z - Members(a), b)
    ensures Pops(z, a + b)
    decreases |a|
  {
    if a == [] {
      assert a + b == b && z - Members(a) == z;
    } else {
      HeadGone(z, a);
      PopsAfter(z - {a[0]}, a[1..], b);
      assert (a + b)[1..] == a[1..] + b;
    }
  }

  lemma MinusBoth(z: ZSet, a: seq<Message>, b: seq<Message>)
    ensures z - Members(a + b) == z - Members(a) - Members(b)
  {
    assert Members(a + b) == Members(a) + Members(b);
    MinusSets(z, Members(a), Members(b));
  }

  lemma MinusSets(z: ZSet, a: set<Message>, b: set<Message>)
    ensures z - (a + b) == z - a - b
  {
  }

  lemma PopsConcat(z: ZSet, a: seq<Message>, b: seq<Message>)
    requires Pops(z, a) && Pops(z - Members(a), b)
    ensures Pops(z, a + b) && z - Members(a + b) == z - Members(a) - Members(b)
    ensures |z - Members(a + b)| == |z - Members(a)| - |b|
  {
    MinusBoth(z, a, b);
    PopsCount(z - Members(a), b);
    PopsAfter(z, a, b);
  }

  lemma LeftMore(q: ZSets, ch: Channel, a: seq<Message>, b: seq<Message>)
    requires Pops(q[ch], a) && Pops(Left(q, ch, a)[ch], b)
    ensures Pops(q[ch], a + b) && Left(Left(q, ch, a), ch, b) == Left(q, ch, a + b)
    ensures |Left(q, ch, a + b)[ch]| == |Left(q, ch, a)[ch]| - |b|
  {
    LeftTwice(q, ch, a, b);
    PopsConcat(q[ch], a, b);
  }

  lemma LeftTwice(q: ZSets, ch: Channel, a: seq<Message>, b: seq<Message>)
    ensures Left(Left(q, ch, a), ch, b) == Left(q, ch, a + b) && Left(q, ch, a)[ch] == q[ch] - Members(a)
  {
    MinusBoth(q[ch], a, b);
  }
}
