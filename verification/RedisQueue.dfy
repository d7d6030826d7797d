/** Producer and Consumer over the sorted sets queue:<ch>, processing:<ch> and retry:delayed. */
module RedisQueue {
  import opened Domain
  import opened Databases
  import Float64

  class Redis {
    var queue: ZSets
    var processing: ZSets
    var delayed: ZSet

    constructor ()
      ensures queue == EMPTY_SETS && processing == EMPTY_SETS && delayed == map[]
    {
      queue, processing, delayed := EMPTY_SETS, EMPTY_SETS, map[];
    }

    method Enqueue(m: Message, now: Time)
      modifies this`queue
      ensures queue == Databases.Enqueue(old(queue), m, now)
      ensures m in queue[m.channel]
      ensures queue[m.channel][m] ==
        Float64.F64((match m.priority case High => 0 case Normal => 1_000_000_000_000 case Low => 2_000_000_000_000)
                    + Float64.F64(if m.scheduledAt.Some? then m.scheduledAt.value else now))
      ensures forall ch: Channel, x :: ch != m.channel || x != m ==>
        (x in queue[ch] <==> x in old(queue)[ch]) && (x in queue[ch] ==> queue[ch][x] == old(queue)[ch][x])
    {
      var z: ZSet := queue[m.channel];
      queue := queue[m.channel := z[m := Score(m, now)]];
    }

    method EnqueueDelayed(m: Message, now: Time, delay: nat)
      modifies this`delayed
      ensures delayed == old(delayed)[m := Float64.F64(now + delay)]
    {
      delayed := delayed[m := Float64.F64(now + delay)];
    }

    /** The head of a sorted set in Redis order. */
    method MinOf(z: ZSet) returns (x: Message)
      requires z != map[]
      ensures IsMin(z, x)
    {
      x :| x in z;
      var left := z.Keys - {x};
      while left != {}
        invariant left <= z.Keys && x in z
        invariant forall o :: o in z && o !in left ==> !Before(z, o, x)
        decreases left
      {
        var y :| y in left;
        if Before(z, y, x) { x := y; }
        left := left - {y};
      }
    }

    /** ZPOPMIN with a count: the members popped, in order, and what is left. */
    method PopMins(z0: ZSet, count: nat) returns (ms: seq<Message>, z: ZSet)
      ensures Pops(z0, ms) && |ms| == (if count < |z0| then count else |z0|)
      ensures z == z0 - Members(ms)
    {
      ms, z := [], z0;
      while z != map[] && |ms| < count
        invariant z == z0 - Members(ms) && |ms| <= count && |z| + |ms| == |z0|
        invariant Pops(z0, ms)
        decreases count - |ms|
      {
        var x := MinOf(z);
        PopsAppend(z0, ms, x);
        Removed(z0, ms, x);
        ms, z := ms + [x], z - {x};
      }
    }

    /** DequeueBatch: the count first members, moved to processing under one deadline. */
    method DequeueBatch(ch: Channel, count: nat, now: Time, visibility: nat) returns (ms: seq<Message>)
      modifies this`queue, this`processing
      ensures Pops(old(queue[ch]), ms) && |ms| == (if count < |old(queue[ch])| then count else |old(queue[ch])|)
      ensures queue == old(queue)[ch := old(queue[ch]) - Members(ms)]
      ensures processing == old(processing)[ch := AddAll(old(processing[ch]), ms, Float64.F64(now + visibility))]
    {
      var z;
      ms, z := PopMins(queue[ch], count);
      queue := queue[ch := z];
      processing := processing[ch := AddAll(processing[ch], ms, Float64.F64(now + visibility))];
    }

    /** ZRANGE -inf now BYSCORE: the members due, in some order. */
    method RangeDue(z: ZSet, now: Time) returns (ms: seq<Message>)
      ensures Lists(ms, DueIn(z, now))
    {
      var left := DueIn(z, now);
      ms := [];
      while left != {}
        invariant left <= DueIn(z, now) && Lists(ms, DueIn(z, now) - left)
        decreases left
      {
        var m :| m in left;
        ms, left := ms + [m], left - {m};
      }
    }

    /** ZREM retry:delayed. */
    method RemoveDelayed(m: Message)
      modifies this`delayed
      ensures delayed == old(delayed) - {m}
    {
      delayed := delayed - {m};
    }

    method Ack(ch: Channel, ms: seq<Message>)
      modifies this`processing
      ensures processing == Databases.Ack(old(processing), ch, ms)
    {
      processing := processing[ch := processing[ch] - Members(ms)];
    }
  }

  function DueIn(z: ZSet, now: Time): set<Message> {
    set m | m in z && Due(z, m, now)
  }

  /** ms lists the members of s, each once. */
  ghost predicate Lists<T(!new)>(ms: seq<T>, s: set<T>) {
    && (forall m :: m in ms <==> m in s)
    && (forall i, j :: 0 <= i < j < |ms| ==> ms[i] != ms[j])
  }

  lemma {:induction false} PopsAppend(z: ZSet, ms: seq<Message>, x: Message)
    requires Pops(z, ms) && IsMin(z - Members(ms), x)
    ensures Pops(z, ms + [x])
    decreases |ms|
  {
    if ms == [] {
      assert z - Members(ms) == z;
      assert [x][1..] == [];
    } else {
      assert ms == [ms[0]] + ms[1..];
      assert z - {ms[0]} - Members(ms[1..]) == z - Members(ms);
      PopsAppend(z - {ms[0]}, ms[1..], x);
      assert (ms + [x])[1..] == ms[1..] + [x];
    }
  }

  lemma Removed(z0: ZSet, ms: seq<Message>, x: Message)
    requires x in z0 - Members(ms)
    ensures z0 - Members(ms) - {x} == z0 - Members(ms + [x])
    ensures |z0 - Members(ms) - {x}| == |z0 - Members(ms)| - 1
  {
    var z := z0 - Members(ms);
    assert Members(ms + [x]) == Members(ms) + {x};
    assert (z - {x}).Keys == z.Keys - {x} && |z.Keys - {x}| == |z.Keys| - 1;
    assert |z - {x}| == |(z - {x}).Keys| && |z| == |z.Keys|;
  }
}
