/** The rate limiter over every sequence of calls by any number of callers with their own clocks: how many admissions
    a window can see, exactly, and when the expiry of the key is harmless. */
module LimiterRuns {
  import opened Domain
  import opened RateLimiter
  import opened Arithmetic

  /** Every call asks for something and brings a member for each entry it asks for. */
  predicate Asked(rs: seq<Request>) {
    forall i :: 0 <= i < |rs| ==> 0 < rs[i].count <= |rs[i].labels|
  }

  function KeyAfter(limit: int, rs: seq<Request>): Key
    requires Asked(rs)
  {
    if rs == [] then Key(map[], 0) else After(KeyAfter(limit, rs[..|rs| - 1]), limit, rs[|rs| - 1])
  }

  /** What the last call of rs granted. */
  function LastGrant(limit: int, rs: seq<Request>): nat
    requires rs != [] && Asked(rs)
  {
    Granted(KeyAfter(limit, rs[..|rs| - 1]), limit, rs[|rs| - 1])
  }

  /** Admissions of all calls whose reading lies in (lo, lo + n]. */
  function Admissions(limit: int, rs: seq<Request>, lo: int, n: nat): nat
    requires Asked(rs)
  {
    if rs == [] then 0
    else Admissions(limit, rs[..|rs| - 1], lo, n) + if lo < rs[|rs| - 1].now <= lo + n then LastGrant(limit, rs) else 0
  }

  /** Callers' clocks: a reading lags the largest one before it by at most d, and between two calls the server's clock,
      which never runs backwards, gains at most e on the callers'. Constant offsets do not matter. */
  ghost predicate Clocks(rs: seq<Request>, d: nat, e: nat) {
    forall i, j :: 0 <= i <= j < |rs| ==> Apart(rs[i], rs[j], d, e)
  }

  predicate Apart(a: Request, b: Request, d: nat, e: nat) {
    a.now <= b.now + d && a.server <= b.server && b.server - a.server <= b.now - a.now + e
  }

  /** The lag that such clocks can really have. */
  function Lag(d: nat, e: nat): nat {
    Min(d, e)
  }

  /** Every member added is new to the set it is added to. */
  ghost predicate AllFresh(limit: int, rs: seq<Request>)
    requires Asked(rs)
  {
    rs == [] ||
      (AllFresh(limit, rs[..|rs| - 1]) &&
       var k := KeyAfter(limit, rs[..|rs| - 1]); var r := rs[|rs| - 1];
       Fresh(Live(Current(k, r.server), r.now), r.labels[..LastGrant(limit, rs)]))
  }

  ghost predicate Calls(limit: int, rs: seq<Request>, d: nat, e: nat) {
    Asked(rs) && Clocks(rs, d, e) && AllFresh(limit, rs)
  }

  lemma CallsFront(limit: int, rs: seq<Request>, d: nat, e: nat)
    requires Calls(limit, rs, d, e) && rs != []
    ensures Calls(limit, rs[..|rs| - 1], d, e)
  {
  }

  // ---- the expiry of the key ----

  /** The entry was added by a call after which the key lives on for its two seconds. */
  ghost predicate Renewed(rs: seq<Request>, x: Time, expiresAt: Time) {
    exists i :: 0 <= i < |rs| && rs[i].now == x && rs[i].server + TTL <= expiresAt
  }

  ghost predicate AllRenewed(rs: seq<Request>, k: Key) {
    forall l :: l in k.entries ==> Renewed(rs, k.entries[l], k.expiresAt)
  }

  lemma RenewedStays(rs: seq<Request>, r: Request, x: Time, a: Time, b: Time)
    requires Renewed(rs, x, a) && a <= b
    ensures Renewed(rs + [r], x, b)
  {
    var i :| 0 <= i < |rs| && rs[i].now == x && rs[i].server + TTL <= a;
    assert (rs + [r])[i] == rs[i];
  }

  lemma {:induction false} KeyRenewed(limit: int, rs: seq<Request>, d: nat, e: nat)
    requires Calls(limit, rs, d, e)
    ensures AllRenewed(rs, KeyAfter(limit, rs))
    ensures KeyAfter(limit, rs).expiresAt <= if rs == [] then 0 else rs[|rs| - 1].server + TTL
  {
    if rs != [] {
      var front, r := rs[..|rs| - 1], rs[|rs| - 1];
      CallsFront(limit, rs, d, e);
      KeyRenewed(limit, front, d, e);
      if front != [] { assert Apart(rs[|rs| - 2], r, d, e); }
      RenewedStep(limit, front, r);
      assert front + [r] == rs;
    }
  }

  lemma RenewedStep(limit: int, rs: seq<Request>, r: Request)
    requires Asked(rs) && r.count <= |r.labels| && AllRenewed(rs, KeyAfter(limit, rs)) && KeyAfter(limit, rs).expiresAt <= r.server + TTL
    ensures AllRenewed(rs + [r], After(KeyAfter(limit, rs), limit, r))
    ensures After(KeyAfter(limit, rs), limit, r).expiresAt <= r.server + TTL
  {
    var k := KeyAfter(limit, rs);
    var k' := After(k, limit, r);
    var live, labels := Live(Current(k, r.server), r.now), r.labels[..Granted(k, limit, r)];
    forall l | l in k'.entries ensures Renewed(rs + [r], k'.entries[l], k'.expiresAt) {
      AdmitIs(live, r.now, labels, l);
      if l in labels {
        assert (rs + [r])[|rs|] == r;
      } else {
        RenewedStays(rs, r, k.entries[l], k.expiresAt, k'.expiresAt);
      }
    }
  }

  /** A call r after rs finds everything that still counts. */
  ghost predicate Harmless(limit: int, rs: seq<Request>, r: Request)
    requires Asked(rs)
  {
    Live(Current(KeyAfter(limit, rs), r.server), r.now) == Live(KeyAfter(limit, rs).entries, r.now)
  }

  ghost predicate CallAfter(limit: int, rs: seq<Request>, r: Request, d: nat, e: nat) {
    Calls(limit, rs, d, e) && Clocks(rs + [r], d, e)
  }

  /** The two-second expiry of the key removes no entry that still counts in the one-second window. */
  lemma ExpiryRemovesNothing(limit: int, rs: seq<Request>, d: nat, e: nat, r: Request)
    requires CallAfter(limit, rs, r, d, e) && e <= WINDOW
    ensures Harmless(limit, rs, r)
  {
    KeyRenewed(limit, rs, d, e);
    var k := KeyAfter(limit, rs);
    if r.server >= k.expiresAt {
      forall l | l in k.entries ensures k.entries[l] + WINDOW <= r.now {
        var i :| 0 <= i < |rs| && rs[i].now == k.entries[l] && rs[i].server + TTL <= k.expiresAt;
        assert (rs + [r])[i] == rs[i] && (rs + [r])[|rs|] == r;
        assert Apart((rs + [r])[i], (rs + [r])[|rs|], d, e);
      }
    }
  }

  /** It is harmless for exactly the drifts of at most a window. */
  lemma ExpiryHarmlessExactly(d: nat, e: nat)
    ensures (forall limit: int, rs: seq<Request>, r: Request {:trigger CallAfter(limit, rs, r, d, e)} ::
               CallAfter(limit, rs, r, d, e) ==> Harmless(limit, rs, r))
            <==> e <= 1_000_000_000
  {
    if e <= WINDOW {
      forall limit: int, rs: seq<Request>, r: Request | CallAfter(limit, rs, r, d, e) ensures Harmless(limit, rs, r) {
        ExpiryRemovesNothing(limit, rs, d, e, r);
      }
    } else {
      var a, r := Request(1, 1, 1, [0]), Request(WINDOW, 1 + TTL, 1, [1]);
      FirstCall(1, a);
      assert Calls(1, [a], d, e);
      assert 0 in Live(KeyAfter(1, [a]).entries, r.now) && Current(KeyAfter(1, [a]), r.server) == map[];
      assert CallAfter(1, [a], r, d, e) && !Harmless(1, [a], r);
    }
  }

  /** The first call ever. */
  lemma FirstCall(limit: int, a: Request)
    requires 0 < a.count <= |a.labels| && Fresh(map[], a.labels[..Min(a.count, Room(map[], limit))])
    ensures Asked([a]) && AllFresh(limit, [a])
    ensures LastGrant(limit, [a]) == Min(a.count, Room(map[], limit))
    ensures KeyAfter(limit, [a]) == After(Key(map[], 0), limit, a)
    ensures KeyAfter(limit, [a]).entries == Admit(map[], a.now, a.labels[..LastGrant(limit, [a])])
    ensures LastGrant(limit, [a]) > 0 ==> KeyAfter(limit, [a]).expiresAt == a.server + TTL
  {
    assert [a][..0] == [] && AllFresh(limit, []);
    assert Live(map[], a.now) == map[];
  }

  // ---- how many admissions a window can see ----

  /** The key still had its two seconds from every call in the window when any later call came. */
  ghost predicate Young(rs: seq<Request>, lo: int, n: nat) {
    forall i, j :: 0 <= i <= j < |rs| && lo < rs[i].now <= lo + n ==> rs[j].server < rs[i].server + TTL
  }

  /** While no reading is more than a window above lo and the key does not expire, the set holds every admission of
      the window. */
  lemma {:induction false} SetHoldsWindow(limit: int, rs: seq<Request>, d: nat, e: nat, lo: int, n: nat)
    requires Calls(limit, rs, d, e) && Young(rs, lo, n) && forall i :: 0 <= i < |rs| ==> rs[i].now <= lo + WINDOW
    ensures |Within(KeyAfter(limit, rs).entries, lo, lo + n)| == Admissions(limit, rs, lo, n)
  {
    if rs == [] {
      assert Within(map[], lo, lo + n) == {};
    } else {
      var front, r := rs[..|rs| - 1], rs[|rs| - 1];
      CallsFront(limit, rs, d, e);
      SetHoldsWindow(limit, front, d, e, lo, n);
      var k := KeyAfter(limit, front);
      var live := Live(Current(k, r.server), r.now);
      NothingExpires(limit, rs, d, e, lo, n);
      AdmitWithin(live, r.now, r.labels[..LastGrant(limit, rs)], lo, lo + n);
      assert Within(live, lo, lo + n) == Within(k.entries, lo, lo + n);
    }
  }

  lemma NothingExpires(limit: int, rs: seq<Request>, d: nat, e: nat, lo: int, n: nat)
    requires Calls(limit, rs, d, e) && Young(rs, lo, n) && rs != []
    ensures Within(Current(KeyAfter(limit, rs[..|rs| - 1]), rs[|rs| - 1].server), lo, lo + n)
      == Within(KeyAfter(limit, rs[..|rs| - 1]).entries, lo, lo + n)
  {
    var front, r := rs[..|rs| - 1], rs[|rs| - 1];
    CallsFront(limit, rs, d, e);
    KeyRenewed(limit, front, d, e);
    var k := KeyAfter(limit, front);
    forall l | l in k.entries && lo < k.entries[l] <= lo + n ensures r.server < k.expiresAt {
      var i :| 0 <= i < |front| && front[i].now == k.entries[l] && front[i].server + TTL <= k.expiresAt;
      assert rs[i] == front[i];
    }
  }

  /** The set never holds more than limit entries. */
  lemma {:induction false} SetBounded(limit: int, rs: seq<Request>)
    requires Asked(rs)
    ensures |KeyAfter(limit, rs).entries| <= if limit < 0 then 0 else limit
  {
    if rs != [] {
      var front, r := rs[..|rs| - 1], rs[|rs| - 1];
      SetBounded(limit, front);
      var k := KeyAfter(limit, front);
      var live := Live(Current(k, r.server), r.now);
      assert live.Keys <= k.entries.Keys;
      SubsetSize(live.Keys, k.entries.Keys);
      assert |live| == |live.Keys| && |k.entries| == |k.entries.Keys|;
      AdmitSize(live, r.now, r.labels[..LastGrant(limit, rs)]);
    }
  }

  /** Over a whole run, a window of n nanoseconds that leaves room for the lag in a second, and for the drift in two,
      sees at most limit admissions. */
  lemma {:induction false} SlidingWindow(limit: int, rs: seq<Request>, d: nat, e: nat, lo: int, n: nat)
    requires Calls(limit, rs, d, e) && n + Lag(d, e) <= 1_000_000_000 && n + e <= 2_000_000_000
    ensures Admissions(limit, rs, lo, n) <= if limit < 0 then 0 else limit
  {
    if rs != [] {
      CallsFront(limit, rs, d, e);
      var last := rs[|rs| - 1];
      if lo < last.now <= lo + n {
        forall i | 0 <= i < |rs| ensures rs[i].now <= lo + WINDOW && (lo < rs[i].now ==> last.server < rs[i].server + TTL) {
          assert Apart(rs[i], last, d, e);
        }
        forall i, j | 0 <= i <= j < |rs| && lo < rs[i].now <= lo + n ensures rs[j].server < rs[i].server + TTL {
          assert Apart(rs[j], last, d, e);
        }
        SetHoldsWindow(limit, rs, d, e, lo, n);
        SetBounded(limit, rs);
        var z := KeyAfter(limit, rs).entries;
        SubsetSize(Within(z, lo, lo + n), z.Keys);
        assert |z| == |z.Keys|;
      } else {
        SlidingWindow(limit, rs[..|rs| - 1], d, e, lo, n);
      }
    }
  }

  // ---- a limit of one ----

  /** With a limit of one and x the last admission: none is later, and none is closer than n to another. */
  ghost predicate Spaced(rs: seq<Request>, x: Time, n: nat)
    requires Asked(rs)
  {
    forall lo: int :: Admissions(1, rs, lo, n) <= if x <= lo then 0 else 1
  }

  /** The lag costs nothing: an entry goes only when a later one can come n after it. */
  lemma {:induction false} OneAtATime(rs: seq<Request>, d: nat, e: nat, n: nat) returns (l: Label, x: Time)
    requires Calls(1, rs, d, e) && rs != [] && n <= WINDOW && n + e <= TTL
    ensures KeyAfter(1, rs).entries == map[l := x] && Spaced(rs, x, n)
  {
    var front, r := rs[..|rs| - 1], rs[|rs| - 1];
    var k := KeyAfter(1, front);
    CallsFront(1, rs, d, e);
    SetBounded(1, front);
    OneGrant(k, r);
    var live := Live(Current(k, r.server), r.now);
    if front == [] {
      assert Live(map[], r.now) == map[];
      l, x := r.labels[0], r.now;
    } else {
      l, x := OneAtATime(front, d, e, n);
      if live == map[] {
        FarApart(rs, d, e, n, l, x);
        l, x := r.labels[0], r.now;
      } else {
        assert live == map[l := x];
      }
    }
  }

  /** The call either finds an entry and gets nothing, or puts its own. */
  lemma OneGrant(k: Key, r: Request)
    requires 0 < r.count <= |r.labels| && |k.entries| <= 1
    ensures var live := Live(Current(k, r.server), r.now);
      if live == map[] then Granted(k, 1, r) == 1 && After(k, 1, r).entries == map[r.labels[0] := r.now]
      else Granted(k, 1, r) == 0 && After(k, 1, r).entries == live
  {
    var live := Live(Current(k, r.server), r.now);
    if live == map[] {
      assert r.labels[..1] == [r.labels[0]];
      assert Admit(live[r.labels[0] := r.now], r.now, [r.labels[0]][1..]) == live[r.labels[0] := r.now];
    } else {
      assert |live| > 0;
      assert r.labels[..0] == [];
    }
  }

  /** Whether the window passed it or the key expired, the entry that is gone lies n back. */
  lemma FarApart(rs: seq<Request>, d: nat, e: nat, n: nat, l: Label, x: Time)
    requires Calls(1, rs, d, e) && |rs| > 1 && n <= WINDOW && n + e <= TTL
    requires KeyAfter(1, rs[..|rs| - 1]).entries == map[l := x]
    requires Live(Current(KeyAfter(1, rs[..|rs| - 1]), rs[|rs| - 1].server), rs[|rs| - 1].now) == map[]
    ensures rs[|rs| - 1].now >= x + n
  {
    var front, r := rs[..|rs| - 1], rs[|rs| - 1];
    var k := KeyAfter(1, front);
    CallsFront(1, rs, d, e);
    if r.server >= k.expiresAt {
      KeyRenewed(1, front, d, e);
      assert Renewed(front, k.entries[l], k.expiresAt);
      var i :| 0 <= i < |front| && front[i].now == x && front[i].server + TTL <= k.expiresAt;
      assert rs[i] == front[i] && Apart(rs[i], r, d, e);
    } else {
      assert l !in Live(k.entries, r.now);
    }
  }

  // ---- exactly ----

  /** A window of n never sees more than limit admissions, whatever the calls. */
  ghost predicate Keeps(limit: int, d: nat, e: nat, n: nat) {
    forall rs: seq<Request>, lo: int {:trigger Calls(limit, rs, d, e), Admissions(limit, rs, lo, n)} ::
      Calls(limit, rs, d, e) ==> Admissions(limit, rs, lo, n) <= limit
  }

  /** k members nobody has used. */
  function NewMembers(from: nat, k: nat): (ls: seq<Label>)
    ensures |ls| == k && forall i :: 0 <= i < k ==> ls[i] == from + i
  {
    seq(k, i => from + i)
  }

  lemma AllMembers(z: Entries, now: Time, k: nat)
    requires z == map[]
    ensures |Admit(z, now, NewMembers(0, k))| == k
    ensures forall l: Label :: l in Admit(z, now, NewMembers(0, k)) <==> l < k
    ensures forall l: Label :: l in Admit(z, now, NewMembers(0, k)) ==> Admit(z, now, NewMembers(0, k))[l] == now
  {
    AdmitSize(z, now, NewMembers(0, k));
    forall l: Label ensures l in NewMembers(0, k) <==> l < k {
      if l < k { assert NewMembers(0, k)[l] == l; }
    }
    forall l: Label { AdmitIs(z, now, NewMembers(0, k), l); }
  }

  /** The first call takes the whole limit. */
  function Full(limit: nat): Request {
    Request(1, 1, limit, NewMembers(0, limit))
  }

  lemma FullCall(limit: nat)
    requires limit > 0
    ensures Asked([Full(limit)]) && AllFresh(limit, [Full(limit)]) && LastGrant(limit, [Full(limit)]) == limit
    ensures KeyAfter(limit, [Full(limit)]) == Key(Admit(map[], 1, NewMembers(0, limit)), 1 + TTL)
    ensures forall n: nat :: n >= 1 ==> Admissions(limit, [Full(limit)], 0, n) == limit
  {
    var a := Full(limit);
    assert NewMembers(0, limit)[..limit] == NewMembers(0, limit);
    FirstCall(limit, a);
    assert [a][..0] == [];
    forall n: nat | n >= 1 ensures Admissions(limit, [a], 0, n) == limit {
      assert Admissions(limit, [], 0, n) == 0;
    }
  }

  /** One more call for one entry, after rs, that finds z. */
  lemma TakesOne(limit: int, rs: seq<Request>, r: Request, z: Entries)
    requires Asked(rs) && AllFresh(limit, rs) && r.count == |r.labels| == 1 && r.labels[0] !in z && |z| < limit
    requires z == Live(Current(KeyAfter(limit, rs), r.server), r.now)
    ensures Asked(rs + [r]) && AllFresh(limit, rs + [r]) && LastGrant(limit, rs + [r]) == 1
    ensures KeyAfter(limit, rs + [r]) == Key(z[r.labels[0] := r.now], r.server + TTL)
    ensures forall n: nat :: Admissions(limit, rs + [r], 0, n) == Admissions(limit, rs, 0, n) + if 0 < r.now <= n then 1 else 0
  {
    var all := rs + [r];
    assert all[..|all| - 1] == rs && all[|all| - 1] == r;
    assert r.labels[..1] == r.labels == [r.labels[0]];
    assert Admit(z[r.labels[0] := r.now], r.now, r.labels[1..]) == z[r.labels[0] := r.now];
  }

  /** The members of the first call are gone: the window has passed them, or the key has expired. */
  lemma SecondCall(limit: nat, b: Request)
    requires limit > 0 && b.count == |b.labels| == 1 && (b.now > WINDOW || b.server >= 1 + TTL)
    ensures var rs := [Full(limit)] + [b];
      && Asked(rs) && AllFresh(limit, rs) && KeyAfter(limit, rs) == Key(map[b.labels[0] := b.now], b.server + TTL)
      && forall n: nat :: n >= 1 ==> Admissions(limit, rs, 0, n) == limit + if 0 < b.now <= n then 1 else 0
  {
    FullCall(limit);
    AllMembers(map[], 1, limit);
    assert Live(Current(KeyAfter(limit, [Full(limit)]), b.server), b.now) == map[];
    TakesOne(limit, [Full(limit)], b, map[]);
  }

  /** The lag is paid in full: a reading that evicts the whole limit, then one that lags it. */
  lemma LagBreaks(limit: nat, d: nat, e: nat, n: nat)
    requires limit >= 2 && n >= 1 && n + Lag(d, e) > WINDOW
    ensures !Keeps(limit, d, e, n)
  {
    var lag := Min(Lag(d, e), WINDOW);
    var a, b := Full(limit), Request(WINDOW + 1, WINDOW + 1, 1, [limit]);
    var c := Request(WINDOW + 1 - lag, WINDOW + 1, 1, [limit + 1]);
    SecondCall(limit, b);
    var rs := [a] + [b];
    var z := map[limit := WINDOW + 1];
    assert Live(Current(KeyAfter(limit, rs), c.server), c.now) == z;
    TakesOne(limit, rs, c, z);
    assert Calls(limit, rs + [c], d, e) && Admissions(limit, rs + [c], 0, n) > limit;
  }

  /** With a limit of one a window may still not be longer than the limiter's own. */
  lemma LengthBreaks(limit: nat, d: nat, e: nat, n: nat)
    requires limit >= 1 && n > WINDOW
    ensures !Keeps(limit, d, e, n)
  {
    var b := Request(WINDOW + 1, WINDOW + 1, 1, [limit]);
    SecondCall(limit, b);
    assert Calls(limit, [Full(limit)] + [b], d, e) && Admissions(limit, [Full(limit)] + [b], 0, n) > limit;
  }

  /** A server whose clock gains too much drops a key that still counts. */
  lemma DriftBreaks(limit: nat, d: nat, e: nat, n: nat)
    requires limit >= 1 && n >= 1 && n + e > TTL
    ensures !Keeps(limit, d, e, n)
  {
    var b := Request(n, 1 + TTL, 1, [limit]);
    SecondCall(limit, b);
    assert Calls(limit, [Full(limit)] + [b], d, e) && Admissions(limit, [Full(limit)] + [b], 0, n) > limit;
  }

  /** Which windows keep the limit over every run, exactly: those that leave room for the drift in the key's two
      seconds and, unless the limit is one, for the lag in the window's one. */
  lemma WindowExactly(limit: nat, d: nat, e: nat, n: nat)
    requires limit >= 1 && n >= 1
    ensures Keeps(limit, d, e, n) <==>
      n + e <= 2_000_000_000 && n + (if limit == 1 then 0 else if d < e then d else e) <= 1_000_000_000
  {
    if n + e > TTL {
      DriftBreaks(limit, d, e, n);
    } else if limit == 1 && n > WINDOW {
      LengthBreaks(limit, d, e, n);
    } else if limit >= 2 && n + Lag(d, e) > WINDOW {
      LagBreaks(limit, d, e, n);
    } else {
      forall rs: seq<Request>, lo: int | Calls(limit, rs, d, e) ensures Admissions(limit, rs, lo, n) <= limit {
        if limit >= 2 || rs == [] {
          if limit >= 2 { SlidingWindow(limit, rs, d, e, lo, n); }
        } else {
          var l, x := OneAtATime(rs, d, e, n);
        }
      }
    }
  }
}
