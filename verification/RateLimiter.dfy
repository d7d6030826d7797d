/** The sliding-window rate limiter: the two Lua scripts over one sorted set. */
module RateLimiter {
  import opened Domain
  import Float64

  /** A member of the set: the text built from the time, the index and a random number. */
  type Label = nat

  type Entries = map<Label, Time>

  /** One second, in nanoseconds: a multiple of 512, so now - WINDOW is exact in binary64 wherever clock readings
      are spaced 512 ns or less. */
  const WINDOW: nat := 1_000_000_000

  /** EXPIRE window / 1e9 + 1, in nanoseconds. */
  const TTL: nat := 2_000_000_000

  /** The sorted set and the moment, on the server's clock, at which the whole key expires. */
  datatype Key = Key(entries: Entries, expiresAt: Time)

  /** What the server still has. */
  function Current(k: Key, server: Time): Entries {
    if server < k.expiresAt then k.entries else map[]
  }

  /** ZREMRANGEBYSCORE key 0 now - window. */
  function Live(z: Entries, now: Time): Entries {
    map l | l in z && z[l] + WINDOW > now :: z[l]
  }

  /** The ZADDs, in order. */
  function Admit(z: Entries, now: Time, labels: seq<Label>): Entries
    decreases |labels|
  {
    if labels == [] then z else Admit(z[labels[0] := now], now, labels[1..])
  }

  function Room(z: Entries, limit: int): nat {
    if |z| < limit then limit - |z| else 0
  }

  function Min(a: nat, b: nat): nat {
    if a < b then a else b
  }

  /** `now` is the reading as the script sees it, in binary64; `server` is the server's own clock. */
  datatype Request = Request(now: Time, server: Time, count: nat, labels: seq<Label>)

  function Granted(k: Key, limit: int, r: Request): nat {
    Min(r.count, Room(Live(Current(k, r.server), r.now), limit))
  }

  function After(k: Key, limit: int, r: Request): Key
    requires r.count <= |r.labels|
  {
    var n := Granted(k, limit, r);
    Key(Admit(Live(Current(k, r.server), r.now), r.now, r.labels[..n]), if n > 0 then r.server + TTL else k.expiresAt)
  }

  /** The entry still counts: the server has the key, and the score is less than a second old. */
  predicate StillCounts(z: Entries, expiresAt: Time, now: Time, server: Time, l: Label) {
    l in z && server < expiresAt && z[l] + 1_000_000_000 > now
  }

  lemma LiveAre(k: Key, now: Time, server: Time)
    ensures var live := Live(Current(k, server), now);
      && (forall l :: l in live <==> StillCounts(k.entries, k.expiresAt, now, server, l))
      && (forall l :: l in live ==> live[l] == k.entries[l])
      && |live| == |set l | l in k.entries && StillCounts(k.entries, k.expiresAt, now, server, l)|
  {
    var live := Live(Current(k, server), now);
    assert live.Keys == set l | l in k.entries && StillCounts(k.entries, k.expiresAt, now, server, l);
    assert |live| == |live.Keys|;
  }

  class RateLimiter {
    const limit: int
    var entries: Entries
    var expiresAt: Time

    constructor (limit: int)
      ensures this.limit == limit && entries == map[] && expiresAt == 0
    {
      this.limit, entries, expiresAt := limit, map[], 0;
    }

    method Allow(clock: Time, server: Time, member: Label) returns (ok: bool)
      modifies this`entries, this`expiresAt
      ensures var k := Key(old(entries), old(expiresAt)); var r := Request(Float64.F64(clock), server, 1, [member]);
        ok == (Granted(k, limit, r) == 1) && Key(entries, expiresAt) == After(k, limit, r)
      ensures forall l :: l in entries <==> (ok && l == member) || StillCounts(old(entries), old(expiresAt), Float64.F64(clock), server, l)
      ensures forall l :: l in entries && !(ok && l == member) ==> l in old(entries) && entries[l] == old(entries)[l]
      ensures ok ==> entries[member] == Float64.F64(clock)
      ensures ok <==> |set l | l in old(entries) && StillCounts(old(entries), old(expiresAt), Float64.F64(clock), server, l)| < limit
      ensures expiresAt == if ok then server + 2_000_000_000 else old(expiresAt)
    {
      var now := Float64.F64(clock);
      LiveAre(Key(entries, expiresAt), now, server);
      Trim(now, server);
      ok := |entries| < limit;
      assert [member][..0] == [] && [member][..1] == [member];
      if ok {
        assert Admit(entries, now, [member]) == Admit(entries[member := now], now, [member][1..]);
        entries := entries[member := now];
        expiresAt := server + TTL;
      }
    }

    method AllowN(clock: Time, server: Time, count: int, labels: seq<Label>) returns (n: nat)
      requires count <= |labels|
      modifies this`entries, this`expiresAt
      ensures count <= 0 ==> n == 0 && unchanged(this`entries) && unchanged(this`expiresAt)
      ensures count > 0 ==>
        var k := Key(old(entries), old(expiresAt)); var r := Request(Float64.F64(clock), server, count, labels);
        n == Granted(k, limit, r) && Key(entries, expiresAt) == After(k, limit, r)
      ensures count > 0 ==>
        var live := |set l | l in old(entries) && StillCounts(old(entries), old(expiresAt), Float64.F64(clock), server, l)|;
        n == if live >= limit then 0 else if count < limit - live then count else limit - live
      ensures count > 0 ==> expiresAt == if n > 0 then server + 2_000_000_000 else old(expiresAt)
    {
      if count <= 0 { return 0; }
      var now := Float64.F64(clock);
      LiveAre(Key(entries, expiresAt), now, server);
      Trim(now, server);
      if limit - |entries| <= 0 { return 0; }
      n := Min(count, limit - |entries|);
      ghost var live := entries;
      for i := 0 to n
        invariant Admit(entries, now, labels[..n][i..]) == Admit(live, now, labels[..n])
      {
        assert labels[..n][i..][1..] == labels[..n][i + 1..];
        entries := entries[labels[i] := now];
      }
      expiresAt := server + TTL;
    }

    /** Expiry of the key, then removal of the entries that left the window. */
    method Trim(now: Time, server: Time)
      modifies this`entries
      ensures entries == Live(Current(Key(old(entries), expiresAt), server), now)
    {
      if server >= expiresAt { entries := map[]; }
      entries := map l | l in entries && entries[l] + WINDOW > now :: entries[l];
    }
  }

  // ---- one call ----

  /** The members are new to the set and to each other. */
  ghost predicate Fresh(z: Entries, labels: seq<Label>) {
    && (forall i :: 0 <= i < |labels| ==> labels[i] !in z)
    && (forall i, j :: 0 <= i < j < |labels| ==> labels[i] != labels[j])
  }

  /** Entries with a score in (lo, hi]. */
  function Within(z: Entries, lo: int, hi: int): set<Label> {
    set l | l in z && lo < z[l] <= hi
  }

  lemma {:induction false} AdmitIs(z: Entries, now: Time, labels: seq<Label>, l: Label)
    ensures l in Admit(z, now, labels) <==> l in z || l in labels
    ensures l in labels ==> Admit(z, now, labels)[l] == now
    ensures l in z && l !in labels ==> Admit(z, now, labels)[l] == z[l]
    decreases |labels|
  {
    if labels != [] {
      assert labels == [labels[0]] + labels[1..];
      AdmitIs(z[labels[0] := now], now, labels[1..], l);
    }
  }

  lemma {:induction false} AdmitWithin(z: Entries, now: Time, labels: seq<Label>, lo: int, hi: int)
    requires Fresh(z, labels)
    ensures |Within(Admit(z, now, labels), lo, hi)| == |Within(z, lo, hi)| + if lo < now <= hi then |labels| else 0
    decreases |labels|
  {
    if labels != [] {
      var z1 := z[labels[0] := now];
      forall i | 0 <= i < |labels[1..]| ensures labels[1..][i] !in z1 { assert labels[1..][i] == labels[i + 1]; }
      AdmitWithin(z1, now, labels[1..], lo, hi);
      WithinOne(z, now, labels[0], lo, hi);
    }
  }

  lemma WithinOne(z: Entries, now: Time, l: Label, lo: int, hi: int)
    requires l !in z
    ensures |Within(z[l := now], lo, hi)| == |Within(z, lo, hi)| + if lo < now <= hi then 1 else 0
  {
    assert Within(z[l := now], lo, hi) == if lo < now <= hi then Within(z, lo, hi) + {l} else Within(z, lo, hi);
  }

  /** The set grows by one entry a ZADD exactly when the members are fresh. */
  lemma {:induction false} AdmitSize(z: Entries, now: Time, labels: seq<Label>)
    ensures |Admit(z, now, labels)| <= |z| + |labels|
    ensures |Admit(z, now, labels)| == |z| + |labels| <==> Fresh(z, labels)
    decreases |labels|
  {
    if labels != [] {
      var l := labels[0];
      var z1 := z[l := now];
      assert z1.Keys == z.Keys + {l} && |z1| == |z1.Keys| && |z| == |z.Keys|;
      AdmitSize(z1, now, labels[1..]);
      assert labels == [l] + labels[1..];
      assert Fresh(z, labels) <==> l !in z && Fresh(z1, labels[1..]) by {
        if l !in z && Fresh(z1, labels[1..]) {
          forall i, j | 0 <= i < j < |labels| ensures labels[i] != labels[j] && labels[j] !in z {
            assert labels[j] == labels[1..][j - 1] && labels[j] !in z1;
            if i > 0 { assert labels[i] == labels[1..][i - 1]; }
          }
        }
        if Fresh(z, labels) {
          forall i | 0 <= i < |labels[1..]| ensures labels[1..][i] !in z1 { assert labels[1..][i] == labels[i + 1]; }
        }
      }
    }
  }

  /** The key after a call: the entries that still count, and one for each member granted, at the reading. */
  lemma AfterIs(k: Key, limit: int, r: Request, l: Label)
    requires r.count <= |r.labels|
    ensures var n := Granted(k, limit, r); var z := After(k, limit, r).entries;
      && n <= r.count
      && (l in z <==> l in r.labels[..n] || StillCounts(k.entries, k.expiresAt, r.now, r.server, l))
      && (l in r.labels[..n] ==> z[l] == r.now)
      && (l in z && l !in r.labels[..n] ==> z[l] == k.entries[l])
  {
    LiveAre(k, r.now, r.server);
    AdmitIs(Live(Current(k, r.server), r.now), r.now, r.labels[..Granted(k, limit, r)], l);
  }

  // ---- AllowN against Allow ----

  /** n calls of Allow at one reading, each with its own member: how many pass, and the key afterwards. */
  function Iterated(k: Key, limit: int, now: Time, server: Time, labels: seq<Label>): (nat, Key)
    decreases |labels|
  {
    if labels == [] then (0, k)
    else
      var r := Request(now, server, 1, [labels[0]]);
      var rest := Iterated(After(k, limit, r), limit, now, server, labels[1..]);
      (Granted(k, limit, r) + rest.0, rest.1)
  }

  /** The call for the rest, after the first member's own call. */
  lemma FirstThenRest(k: Key, limit: int, r: Request)
    requires r.count == |r.labels| > 0 && Fresh(Live(Current(k, r.server), r.now), r.labels)
    ensures var one := Request(r.now, r.server, 1, [r.labels[0]]); var k1 := After(k, limit, one);
      var rest := Request(r.now, r.server, r.count - 1, r.labels[1..]);
      && Granted(k, limit, one) + Granted(k1, limit, rest) == Granted(k, limit, r)
      && After(k1, limit, rest) == After(k, limit, r)
      && Fresh(Live(Current(k1, r.server), r.now), rest.labels)
  {
    var l := r.labels[0];
    var one := Request(r.now, r.server, 1, [l]);
    var k1 := After(k, limit, one);
    var live := Live(Current(k, r.server), r.now);
    var n := Granted(k, limit, r);
    assert [l][..0] == [] && [l][..1] == [l] && [l][1..] == [];
    if n == 0 {
      assert Live(Current(k1, r.server), r.now) == live;
    } else {
      assert k1.entries == live[l := r.now] by { assert Admit(live, r.now, [l]) == Admit(live[l := r.now], r.now, [l][1..]); }
      assert Live(k1.entries, r.now) == k1.entries;
      assert r.labels[..n][0] == l && r.labels[..n][1..] == r.labels[1..][..n - 1];
    }
    forall i | 0 <= i < |r.labels[1..]| ensures r.labels[1..][i] !in Live(Current(k1, r.server), r.now) {
      assert r.labels[1..][i] == r.labels[i + 1];
    }
  }

  /** One call for n grants what n calls with the same members grant, and leaves the same key. */
  lemma {:induction false} BatchIsIterated(k: Key, limit: int, r: Request)
    requires r.count == |r.labels| > 0 && Fresh(Live(Current(k, r.server), r.now), r.labels)
    ensures Iterated(k, limit, r.now, r.server, r.labels) == (Granted(k, limit, r), After(k, limit, r))
    decreases |r.labels|
  {
    FirstThenRest(k, limit, r);
    var k1 := After(k, limit, Request(r.now, r.server, 1, [r.labels[0]]));
    var rest := Request(r.now, r.server, r.count - 1, r.labels[1..]);
    if rest.labels == [] {
      assert Iterated(k1, limit, r.now, r.server, []) == (0, k1);
      NothingAsked(k, limit, r);
    } else {
      BatchIsIterated(k1, limit, rest);
    }
  }

  lemma NothingAsked(k: Key, limit: int, r: Request)
    requires r.count == |r.labels| == 1
    ensures var k1 := After(k, limit, Request(r.now, r.server, 1, [r.labels[0]]));
      Granted(k, limit, r) == Granted(k, limit, Request(r.now, r.server, 1, [r.labels[0]])) && After(k, limit, r) == k1
  {
    assert r.labels == [r.labels[0]];
  }

  /** Whatever fresh members the two ways pick, they grant the same number, and leave as many entries at every
      score and the same expiry. */
  lemma BatchEqualsIterated(k: Key, limit: int, now: Time, server: Time, a: seq<Label>, b: seq<Label>, lo: int, hi: int)
    requires |a| == |b| > 0
    requires Fresh(Live(Current(k, server), now), a) && Fresh(Live(Current(k, server), now), b)
    ensures var r := Request(now, server, |a|, a); var many := Iterated(k, limit, now, server, b);
      && many.0 == Granted(k, limit, r)
      && |Within(many.1.entries, lo, hi)| == |Within(After(k, limit, r).entries, lo, hi)|
      && many.1.expiresAt == After(k, limit, r).expiresAt
  {
    BatchIsIterated(k, limit, Request(now, server, |b|, b));
    var live := Live(Current(k, server), now);
    var n := Granted(k, limit, Request(now, server, |a|, a));
    AdmitWithin(live, now, a[..n], lo, hi);
    AdmitWithin(live, now, b[..n], lo, hi);
  }
}
