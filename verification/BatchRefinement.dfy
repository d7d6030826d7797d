/** ProcessBatch against Process: the batched claim, the batched sent-write and the extra ack make no difference,
    whatever order the claim returns rows in, as long as something in the batch is claimable. */
module BatchRefinement {
  import opened Domain
  import opened Databases
  import opened Pipeline
  import opened Ownership
  import opened Processing
  import Float64

  // ---- what is counted ----

  datatype Event = SentOn(ch: Channel) | FailedOn(ch: Channel) | Died(d: DeadLetter)

  function Events(n: Claim, env: Env): multiset<Event> {
    match env.send(n.id)
    case Delivered(_) => multiset{SentOn(n.channel)}
    case Errored(err) =>
      multiset{FailedOn(n.channel)} +
      if Last(n) then multiset{Died(DeadLetter(n.id, err, n.attempts + 1))} else multiset{}
  }

  function Log(todo: seq<Claim>, env: Env): multiset<Event> {
    if todo == [] then multiset{} else Events(todo[0], env) + Log(todo[1..], env)
  }

  lemma {:induction false} LogAt(todo: seq<Claim>, i: nat, env: Env)
    requires i < |todo|
    ensures Log(todo, env) == Events(todo[i], env) + Log(todo[..i] + todo[i + 1..], env)
  {
    var rest := todo[..i] + todo[i + 1..];
    if i == 0 {
      assert rest == todo[1..];
    } else {
      LogAt(todo[1..], i - 1, env);
      assert rest[0] == todo[0];
      assert rest[1..] == todo[1..][..i - 1] + todo[1..][i..];
    }
  }

  /** The log does not depend on the order of the claims. */
  lemma {:induction false} LogOfOrder(a: seq<Claim>, b: seq<Claim>, env: Env)
    requires multiset(a) == multiset(b)
    ensures Log(a, env) == Log(b, env)
  {
    if a == [] {
      assert |b| == |multiset(b)| == 0;
    } else {
      assert a[0] in multiset(b);
      var i :| 0 <= i < |b| && b[i] == a[0];
      var rest := b[..i] + b[i + 1..];
      RemoveAt(b, i);
      RemoveAt(a, 0);
      assert a[..0] + a[0 + 1..] == a[1..];
      LogOfOrder(a[1..], rest, env);
      LogAt(b, i, env);
    }
  }

  lemma RemoveAt(b: seq<Claim>, i: nat)
    requires i < |b|
    ensures multiset(b[..i] + b[i + 1..]) == multiset(b) - multiset{b[i]}
  {
    assert b == b[..i] + [b[i]] + b[i + 1..];
  }

  lemma {:induction false} CountOnce(s: seq<Claim>, x: Claim)
    requires forall i, j :: 0 <= i < j < |s| ==> s[i] != s[j]
    ensures multiset(s)[x] == if x in s then 1 else 0
  {
    if s != [] {
      assert s == [s[0]] + s[1..];
      CountOnce(s[1..], x);
    }
  }

  // ---- what becomes of a row ----

  function RowAfter(r: Row, id: Id, env: Env): Row {
    match env.send(id)
    case Delivered(x) => r.(status := Sent, providerMsgId := Some(x))
    case Errored(err) =>
      r.(status := if r.attempts + 1 >= r.maxAttempts then Failed else Queued, lastError := Some(err), attempts := r.attempts + 1)
  }

  /** The rows of ids are as sent or failed, all others untouched. */
  ghost predicate RowsDid(rows: Table, rows': Table, ids: set<Id>, env: Env) {
    && rows'.Keys == rows.Keys
    && forall id :: id in rows ==> rows'[id] == if id in ids then RowAfter(rows[id], id, env) else rows[id]
  }

  predicate Retried(rows: Table, id: Id, env: Env) {
    id in rows && env.send(id).Errored? && !Last(ClaimOf(rows, id))
  }

  function RetryAt(rows: Table, id: Id, env: Env): nat
    requires id in rows
  {
    Float64.F64(env.now + env.delay(id, rows[id].attempts + 1))
  }

  /** The retried messages of ids have been delayed, all others are as before. */
  ghost predicate DelayedDid(rows: Table, z: ZSet, z': ZSet, ms: seq<Message>, ids: set<Id>, env: Env) {
    forall x :: if x in ms && x.id in ids && Retried(rows, x.id, env) then x in z' && z'[x] == RetryAt(rows, x.id, env)
                else (x in z' <==> x in z) && (x in z ==> z'[x] == z[x])
  }

  ghost predicate DistinctIds(ms: seq<Message>) {
    forall i, j :: 0 <= i < j < |ms| ==> ms[i].id != ms[j].id
  }

  predicate OnChannel(ms: seq<Message>, ch: Channel) {
    forall m :: m in ms ==> m.channel == ch
  }

  /** The claims taken one by one, in message order. */
  function Taken(rows: Table, ms: seq<Message>): seq<Claim> {
    if ms == [] then []
    else if CanTake(rows, ms[0].id) then [ClaimOf(rows, ms[0].id)] + Taken(rows, ms[1..])
    else Taken(rows, ms[1..])
  }

  // ---- one message after the other ----

  lemma StepRowsDid(rows: Table, id: Id, env: Env)
    requires CanTake(rows, id)
    ensures RowsDid(rows, StepRows(SetStatus(rows, id, Processing), ClaimOf(rows, id), env), {id}, env)
  {
  }

  /** Rows the step did not touch are taken later as they would have been at first. */
  lemma {:induction false} TakenLater(rows: Table, rows': Table, ids: set<Id>, ms: seq<Message>, env: Env)
    requires RowsDid(rows, rows', ids, env) && forall m :: m in ms ==> m.id !in ids
    ensures Taken(rows', ms) == Taken(rows, ms) && Claimed(rows', Ids(ms)) == Claimed(rows, Ids(ms))
  {
    if ms != [] {
      assert ms[0] in ms;
      TakenLater(rows, rows', ids, ms[1..], env);
      assert Ids(ms) == {ms[0].id} + Ids(ms[1..]) by { assert ms == [ms[0]] + ms[1..]; }
    }
  }

  lemma RowsTrans(rows: Table, rows1: Table, rows2: Table, a: set<Id>, b: set<Id>, env: Env)
    requires RowsDid(rows, rows1, a, env) && RowsDid(rows1, rows2, b, env) && a !! b
    ensures RowsDid(rows, rows2, a + b, env)
  {
  }

  lemma IdsCons(ms: seq<Message>)
    requires ms != []
    ensures Ids(ms) == {ms[0].id} + Ids(ms[1..])
    ensures DistinctIds(ms) ==> DistinctIds(ms[1..]) && ms[0].id !in Ids(ms[1..])
  {
    assert ms == [ms[0]] + ms[1..];
    forall i | 0 <= i < |ms[1..]| && DistinctIds(ms) ensures ms[1..][i].id != ms[0].id {
      assert ms[1..][i] == ms[i + 1];
    }
  }

  /** The rows after Process on each message in turn. */
  function EachRows(rows: Table, ms: seq<Message>, env: Env): Table
    decreases |ms|
  {
    if ms == [] then rows else EachRows(OneRows(rows, ms[0].id, env), ms[1..], env)
  }

  function OneRows(rows: Table, id: Id, env: Env): Table {
    if CanTake(rows, id) then StepRows(SetStatus(rows, id, Processing), ClaimOf(rows, id), env) else rows
  }

  lemma {:induction false} EachRowsDid(rows: Table, ms: seq<Message>, env: Env)
    requires DistinctIds(ms)
    ensures RowsDid(rows, EachRows(rows, ms, env), Claimed(rows, Ids(ms)), env)
    decreases |ms|
  {
    if ms != [] {
      IdsCons(ms);
      var rows1 := OneRows(rows, ms[0].id, env);
      EachRowsDid(rows1, ms[1..], env);
      var took := Took(rows, ms[0].id, env);
      TakenLater(rows, rows1, took, ms[1..], env);
      RowsTrans(rows, rows1, EachRows(rows, ms, env), took, Claimed(rows, Ids(ms[1..])), env);
      assert Claimed(rows, Ids(ms)) == took + Claimed(rows, Ids(ms[1..]));
    }
  }

  lemma Took(rows: Table, id: Id, env: Env) returns (took: set<Id>)
    ensures took == if CanTake(rows, id) then {id} else {}
    ensures RowsDid(rows, OneRows(rows, id, env), took, env)
  {
    took := if CanTake(rows, id) then {id} else {};
    if CanTake(rows, id) { StepRowsDid(rows, id, env); }
  }

  lemma {:induction false} EachTaken(rows: Table, ms: seq<Message>)
    requires DistinctIds(ms)
    ensures forall i :: 0 <= i < |Taken(rows, ms)| ==>
      var c := Taken(rows, ms)[i]; c.id in Claimed(rows, Ids(ms)) && c == ClaimOf(rows, c.id)
    ensures forall id :: id in Claimed(rows, Ids(ms)) ==> ClaimOf(rows, id) in Taken(rows, ms)
    ensures forall i, j :: 0 <= i < j < |Taken(rows, ms)| ==> Taken(rows, ms)[i].id != Taken(rows, ms)[j].id
  {
    if ms != [] {
      IdsCons(ms);
      EachTaken(rows, ms[1..]);
    }
  }

  // ---- the delayed set ----

  ghost predicate ClaimsOf(rows: Table, todo: seq<Claim>) {
    && (forall i :: 0 <= i < |todo| ==> todo[i].id in rows && todo[i] == ClaimOf(rows, todo[i].id))
    && (forall i, j :: 0 <= i < j < |todo| ==> todo[i].id != todo[j].id)
  }

  function TodoIds(todo: seq<Claim>): set<Id> {
    set c | c in todo :: c.id
  }

  lemma {:induction false} MsgForIs(ms: seq<Message>, m: Message)
    requires DistinctIds(ms) && m in ms
    ensures MsgFor(ms, m.id) == Some(m)
  {
    var i :| 0 <= i < |ms| && ms[i] == m;
    if i < |ms| - 1 {
      assert ms[|ms| - 1].id != m.id;
      assert ms[..|ms| - 1][i] == m;
      MsgForIs(ms[..|ms| - 1], m);
    }
  }

  lemma {:induction false} MsgForNone(ms: seq<Message>, id: Id)
    requires MsgFor(ms, id).Some?
    ensures MsgFor(ms, id).value in ms && MsgFor(ms, id).value.id == id
  {
    if ms[|ms| - 1].id != id { MsgForNone(ms[..|ms| - 1], id); }
  }

  lemma {:induction false} LoopDelayedDid(rows: Table, z: ZSet, todo: seq<Claim>, ms: seq<Message>, env: Env)
    requires DistinctIds(ms) && ClaimsOf(rows, todo)
    ensures DelayedDid(rows, z, LoopDelayed(z, todo, ms, env), ms, TodoIds(todo), env)
    decreases |todo|
  {
    if todo != [] {
      var n := todo[0];
      var z1 := DelayedIn(z, n, ms, env);
      LoopDelayedDid(rows, z1, todo[1..], ms, env);
      assert todo == [n] + todo[1..];
      assert TodoIds(todo) == {n.id} + TodoIds(todo[1..]);
      StepDelayedDid(rows, z, n, ms, env);
      forall i | 0 <= i < |todo[1..]| ensures todo[1..][i].id != n.id { assert todo[1..][i] == todo[i + 1]; }
    }
  }

  lemma StepDelayedDid(rows: Table, z: ZSet, n: Claim, ms: seq<Message>, env: Env)
    requires DistinctIds(ms) && n.id in rows && n == ClaimOf(rows, n.id)
    ensures DelayedDid(rows, z, DelayedIn(z, n, ms, env), ms, {n.id}, env)
  {
    if exists m :: m in ms && m.id == n.id {
      var m :| m in ms && m.id == n.id;
      MsgForIs(ms, m);
      forall x | x in ms && x.id == n.id ensures x == m { MsgForIs(ms, x); }
    } else if MsgFor(ms, n.id).Some? {
      MsgForNone(ms, n.id);
    }
  }

  lemma DelayedFunctional(rows: Table, z: ZSet, a: ZSet, b: ZSet, ms: seq<Message>, ids: set<Id>, env: Env)
    requires DelayedDid(rows, z, a, ms, ids, env) && DelayedDid(rows, z, b, ms, ids, env)
    ensures a == b
  {
  }

  // ---- counters and dead letters ----

  lemma {:induction false} LoopSentLog(c: Counter, todo: seq<Claim>, env: Env, ch: Channel)
    ensures LoopSent(c, todo, env)[ch] == c[ch] + Log(todo, env)[SentOn(ch)]
    decreases |todo|
  {
    if todo != [] { LoopSentLog(StepSent(c, todo[0], env), todo[1..], env, ch); }
  }

  lemma {:induction false} LoopFailedLog(c: Counter, todo: seq<Claim>, env: Env, ch: Channel)
    ensures LoopFailed(c, todo, env)[ch] == c[ch] + Log(todo, env)[FailedOn(ch)]
    decreases |todo|
  {
    if todo != [] { LoopFailedLog(StepFailed(c, todo[0], env), todo[1..], env, ch); }
  }

  lemma {:induction false} LoopDeadLog(dead: seq<DeadLetter>, todo: seq<Claim>, env: Env, d: DeadLetter)
    ensures multiset(LoopDead(dead, todo, env))[d] == multiset(dead)[d] + Log(todo, env)[Died(d)]
    decreases |todo|
  {
    if todo != [] { LoopDeadLog(StepDead(dead, todo[0], env), todo[1..], env, d); }
  }

  // ---- the rows of the batch ----

  /** Only the failures among ids have been written. */
  ghost predicate FailuresDid(rows: Table, rows': Table, ids: set<Id>, env: Env) {
    && rows'.Keys == rows.Keys
    && forall id :: id in rows ==>
         rows'[id] == if id in ids && env.send(id).Errored? then RowAfter(rows[id], id, env) else rows[id]
  }

  lemma TodoCons(rows: Table, todo: seq<Claim>)
    requires ClaimsOf(rows, todo) && todo != []
    ensures ClaimsOf(rows, todo[1..]) && TodoIds(todo) == {todo[0].id} + TodoIds(todo[1..])
    ensures todo[0].id in rows && todo[0].id !in TodoIds(todo[1..])
  {
    assert todo == [todo[0]] + todo[1..];
    forall i | 0 <= i < |todo[1..]| ensures todo[1..][i].id != todo[0].id { assert todo[1..][i] == todo[i + 1]; }
  }

  lemma {:induction false} LoopRowsDid(rows: Table, todo: seq<Claim>, env: Env)
    requires ClaimsOf(rows, todo)
    ensures FailuresDid(rows, LoopRows(rows, todo, env), TodoIds(todo), env)
    decreases |todo|
  {
    if todo != [] {
      var n := todo[0];
      TodoCons(rows, todo);
      match env.send(n.id)
      case Errored(err) =>
        var rows1 := FailRows(rows, n, err);
        forall i | 0 <= i < |todo[1..]| ensures todo[1..][i].id in rows1 && todo[1..][i] == ClaimOf(rows1, todo[1..][i].id) {
          assert todo[1..][i] in todo[1..];
        }
        LoopRowsDid(rows1, todo[1..], env);
      case Delivered(_) => LoopRowsDid(rows, todo[1..], env);
    }
  }

  lemma {:induction false} ReceiptsAre(rows: Table, todo: seq<Claim>, env: Env)
    requires ClaimsOf(rows, todo)
    ensures forall id :: InSent(Receipts(todo, env), id) <==> id in TodoIds(todo) && env.send(id).Delivered?
    ensures forall i :: 0 <= i < |Receipts(todo, env)| ==> env.send(Receipts(todo, env)[i].id) == Delivered(Receipts(todo, env)[i].msgId)
    decreases |todo|
  {
    if todo != [] {
      TodoCons(rows, todo);
      ReceiptsAre(rows, todo[1..], env);
      var rs, rest := Receipts(todo, env), Receipts(todo[1..], env);
      if env.send(todo[0].id).Delivered? {
        assert rs[1..] == rest;
        forall id ensures InSent(rs, id) <==> id == todo[0].id || InSent(rest, id) {
          if InSent(rest, id) {
            var i :| 0 <= i < |rest| && rest[i].id == id;
            assert rs[i + 1].id == id;
          }
          if InSent(rs, id) && id != todo[0].id {
            var i :| 0 <= i < |rs| && rs[i].id == id;
            assert rest[i - 1].id == id;
          }
          assert rs[0].id == todo[0].id;
        }
      }
    }
  }

  lemma {:induction false} MarkSentBy(rows: Table, rs: seq<Receipt>, env: Env, id: Id)
    requires forall i :: 0 <= i < |rs| ==> env.send(rs[i].id) == Delivered(rs[i].msgId)
    ensures MarkSent(rows, rs).Keys == rows.Keys
    ensures id in rows ==> MarkSent(rows, rs)[id] == if InSent(rs, id) then RowAfter(rows[id], id, env) else rows[id]
  {
    if rs != [] {
      var rest := rs[1..];
      MarkSentBy(SetSent(rows, rs[0].id, rs[0].msgId), rest, env, id);
      assert forall i :: 0 <= i < |rest| ==> rest[i] == rs[i + 1];
      if InSent(rs, id) {
        var i :| 0 <= i < |rs| && rs[i].id == id;
        if i > 0 { assert rest[i - 1].id == id; }
      }
    }
  }

  lemma ClaimsTodo(rows: Table, ms: seq<Message>, order: seq<Id>)
    requires IsClaimOrder(rows, Ids(ms), order) && forall id :: id in order ==> id in rows
    ensures ClaimsOf(rows, Claims(rows, order)) && ClaimsOf(ClaimRows(rows, Ids(ms)), Claims(rows, order))
    ensures TodoIds(Claims(rows, order)) == Claimed(rows, Ids(ms))
    ensures forall i :: 0 <= i < |order| ==> Claims(rows, order)[i] == ClaimOf(rows, order[i])
  {
    var todo := Claims(rows, order);
    forall i | 0 <= i < |todo| ensures todo[i] == ClaimOf(rows, order[i]) && order[i] in rows { assert order[i] in order; }
    forall id ensures id in TodoIds(todo) <==> id in order {
      if id in order {
        var i :| 0 <= i < |order| && order[i] == id;
        assert todo[i] in todo && todo[i].id == id;
      }
    }
  }

  /** The rows after ProcessBatch. */
  lemma BatchRowsDid(rows: Table, ms: seq<Message>, order: seq<Id>, env: Env)
    requires IsClaimOrder(rows, Ids(ms), order) && forall id :: id in order ==> id in rows
    ensures var todo := Claims(rows, order);
      RowsDid(rows, MarkSent(LoopRows(ClaimRows(rows, Ids(ms)), todo, env), Receipts(todo, env)), Claimed(rows, Ids(ms)), env)
  {
    ClaimsTodo(rows, ms, order);
    TodoRowsDid(rows, Ids(ms), Claims(rows, order), env);
  }

  lemma TodoRowsDid(rows: Table, ids: set<Id>, todo: seq<Claim>, env: Env)
    requires ClaimsOf(rows, todo) && ClaimsOf(ClaimRows(rows, ids), todo) && TodoIds(todo) == Claimed(rows, ids)
    ensures RowsDid(rows, MarkSent(LoopRows(ClaimRows(rows, ids), todo, env), Receipts(todo, env)), Claimed(rows, ids), env)
  {
    var rows1 := LoopRows(ClaimRows(rows, ids), todo, env);
    LoopRowsDid(ClaimRows(rows, ids), todo, env);
    ReceiptsAre(rows, todo, env);
    MarkSentBy(rows1, Receipts(todo, env), env, 0);
    forall id | id in rows
      ensures MarkSent(rows1, Receipts(todo, env))[id] ==
        if id in Claimed(rows, ids) then RowAfter(rows[id], id, env) else rows[id]
    {
      MarkSentBy(rows1, Receipts(todo, env), env, id);
    }
  }

  lemma RowsFunctional(rows: Table, a: Table, b: Table, ids: set<Id>, env: Env)
    requires RowsDid(rows, a, ids, env) && RowsDid(rows, b, ids, env)
    ensures a == b
  {
    assert a.Keys == b.Keys;
  }

  // ---- acks ----

  lemma AckAgain(p: ZSets, ch: Channel, m: Message, ms: seq<Message>)
    requires m in ms
    ensures Ack(Ack(p, ch, [m]), ch, ms) == Ack(p, ch, ms)
  {
    assert p[ch] - Members([m]) - Members(ms) == p[ch] - Members(ms);
  }

  lemma {:induction false} LoopAckCovered(p: ZSets, todo: seq<Claim>, ms: seq<Message>, ch: Channel, env: Env)
    requires OnChannel(ms, ch)
    ensures Ack(LoopAck(p, todo, ms, env), ch, ms) == Ack(p, ch, ms)
    decreases |todo|
  {
    if todo != [] {
      LoopAckCovered(StepAck(p, todo[0], ms, env), todo[1..], ms, ch, env);
      var m := MsgFor(ms, todo[0].id);
      if m.Some? {
        MsgForNone(ms, todo[0].id);
        AckAgain(p, ch, m.value, ms);
      }
    }
  }

  function EachAck(p: ZSets, ms: seq<Message>): ZSets
    decreases |ms|
  {
    if ms == [] then p else EachAck(Ack(p, ms[0].channel, [ms[0]]), ms[1..])
  }

  lemma {:induction false} EachAckAll(p: ZSets, ms: seq<Message>, ch: Channel)
    requires OnChannel(ms, ch)
    ensures EachAck(p, ms) == Ack(p, ch, ms)
    decreases |ms|
  {
    if ms == [] {
      assert p[ch] - Members(ms) == p[ch];
    } else {
      EachAckAll(Ack(p, ch, [ms[0]]), ms[1..], ch);
      AckCons(p, ms, ch);
    }
  }

  lemma AckCons(p: ZSets, ms: seq<Message>, ch: Channel)
    requires ms != []
    ensures Ack(Ack(p, ch, [ms[0]]), ch, ms[1..]) == Ack(p, ch, ms)
  {
    assert ms == [ms[0]] + ms[1..];
    assert Members(ms) == {ms[0]} + Members(ms[1..]);
    assert p[ch] - Members([ms[0]]) - Members(ms[1..]) == p[ch] - Members(ms);
  }

  // ---- Process on each message in turn, component by component ----

  lemma MsgForTail(ms: seq<Message>, id: Id)
    requires ms != [] && ms[0].id != id
    ensures MsgFor(ms, id) == MsgFor(ms[1..], id)
  {
    if |ms| > 1 && ms[|ms| - 1].id != id {
      MsgForTail(ms[..|ms| - 1], id);
      assert ms[..|ms| - 1][1..] == ms[1..][..|ms[1..]| - 1];
    }
  }

  lemma {:induction false} LoopDelayedTail(z: ZSet, todo: seq<Claim>, ms: seq<Message>, env: Env)
    requires ms != [] && forall i :: 0 <= i < |todo| ==> todo[i].id != ms[0].id
    ensures LoopDelayed(z, todo, ms, env) == LoopDelayed(z, todo, ms[1..], env)
    decreases |todo|
  {
    if todo != [] {
      MsgForTail(ms, todo[0].id);
      var z1 := DelayedIn(z, todo[0], ms, env);
      LoopDelayedTail(z1, todo[1..], ms, env);
    }
  }

  function Each(sys: Sys, ms: seq<Message>, env: Env): Sys {
    var taken := Taken(sys.st.rows, ms);
    Sys(Store(EachRows(sys.st.rows, ms, env), LoopDead(sys.st.dead, taken, env), sys.st.queue,
              EachAck(sys.st.processing, ms), LoopDelayed(sys.st.delayed, taken, ms, env)),
        LoopSent(sys.sent, taken, env), LoopFailed(sys.failed, taken, env))
  }

  lemma {:induction false} SinglyIsEach(sys: Sys, ms: seq<Message>, env: Env)
    requires DistinctIds(ms)
    ensures Singly(sys, ms, env) == Each(sys, ms, env)
    decreases |ms|
  {
    if ms != [] {
      IdsCons(ms);
      SinglyIsEach(Single(sys, ms[0], env), ms[1..], env);
      EachCons(sys, ms, env);
    }
  }

  lemma EachConsDelayed(rows: Table, z: ZSet, ms: seq<Message>, env: Env)
    requires ms != [] && DistinctIds(ms)
    ensures LoopDelayed(z, Taken(rows, ms), ms, env) ==
      LoopDelayed(if CanTake(rows, ms[0].id) then StepDelayed(z, ClaimOf(rows, ms[0].id), ms[0], env) else z,
                  Taken(rows, ms[1..]), ms[1..], env)
  {
    IdsCons(ms);
    EachTaken(rows, ms[1..]);
    MsgForIs(ms, ms[0]);
    var rest := Taken(rows, ms[1..]);
    if CanTake(rows, ms[0].id) {
      var n := ClaimOf(rows, ms[0].id);
      assert Taken(rows, ms) == [n] + rest && Taken(rows, ms)[1..] == rest;
      LoopDelayedTail(StepDelayed(z, n, ms[0], env), rest, ms, env);
    } else {
      LoopDelayedTail(z, rest, ms, env);
    }
  }

  lemma EachCons(sys: Sys, ms: seq<Message>, env: Env)
    requires ms != [] && DistinctIds(ms)
    ensures Each(sys, ms, env) == Each(Single(sys, ms[0], env), ms[1..], env)
  {
    var rows := sys.st.rows;
    IdsCons(ms);
    var took := Took(rows, ms[0].id, env);
    TakenLater(rows, OneRows(rows, ms[0].id, env), took, ms[1..], env);
    EachConsDelayed(rows, sys.st.delayed, ms, env);
    var rest := Taken(rows, ms[1..]);
    if CanTake(rows, ms[0].id) {
      var n := ClaimOf(rows, ms[0].id);
      assert Taken(rows, ms) == [n] + rest && Taken(rows, ms)[1..] == rest;
    }
  }

  // ---- the theorem ----

  /** Equal but for the order of the dead letters. */
  ghost predicate Same(a: Sys, b: Sys) {
    && a.st.rows == b.st.rows && a.st.queue == b.st.queue && a.st.processing == b.st.processing
    && a.st.delayed == b.st.delayed && multiset(a.st.dead) == multiset(b.st.dead)
    && a.sent == b.sent && a.failed == b.failed
  }

  lemma SameRows(rows: Table, ms: seq<Message>, order: seq<Id>, env: Env)
    requires DistinctIds(ms) && IsClaimOrder(rows, Ids(ms), order) && forall id :: id in order ==> id in rows
    ensures var todo := Claims(rows, order);
      MarkSent(LoopRows(ClaimRows(rows, Ids(ms)), todo, env), Receipts(todo, env)) == EachRows(rows, ms, env)
  {
    BatchRowsDid(rows, ms, order, env);
    EachRowsDid(rows, ms, env);
    var todo := Claims(rows, order);
    RowsFunctional(rows, MarkSent(LoopRows(ClaimRows(rows, Ids(ms)), todo, env), Receipts(todo, env)),
                   EachRows(rows, ms, env), Claimed(rows, Ids(ms)), env);
  }

  /** The claims in claim order and in message order are the same claims. */
  lemma SameClaims(rows: Table, ms: seq<Message>, order: seq<Id>)
    requires DistinctIds(ms) && IsClaimOrder(rows, Ids(ms), order) && forall id :: id in order ==> id in rows
    ensures multiset(Claims(rows, order)) == multiset(Taken(rows, ms))
    ensures TodoIds(Taken(rows, ms)) == Claimed(rows, Ids(ms)) && ClaimsOf(rows, Taken(rows, ms))
  {
    var todo, taken := Claims(rows, order), Taken(rows, ms);
    ClaimsTodo(rows, ms, order);
    TakenTodo(rows, ms);
    SameIdsSameClaims(rows, todo, taken);
  }

  lemma TakenTodo(rows: Table, ms: seq<Message>)
    requires DistinctIds(ms)
    ensures TodoIds(Taken(rows, ms)) == Claimed(rows, Ids(ms)) && ClaimsOf(rows, Taken(rows, ms))
  {
    EachTaken(rows, ms);
    var taken := Taken(rows, ms);
    forall id ensures id in TodoIds(taken) <==> id in Claimed(rows, Ids(ms)) {
      if id in Claimed(rows, Ids(ms)) { assert ClaimOf(rows, id).id == id; }
      if id in TodoIds(taken) {
        var c :| c in taken && c.id == id;
        var i :| 0 <= i < |taken| && taken[i] == c;
      }
    }
  }

  lemma SameIdsSameClaims(rows: Table, a: seq<Claim>, b: seq<Claim>)
    requires ClaimsOf(rows, a) && ClaimsOf(rows, b) && TodoIds(a) == TodoIds(b)
    ensures multiset(a) == multiset(b)
  {
    forall c ensures multiset(a)[c] == multiset(b)[c] {
      SameIdsSubset(rows, a, b, c);
      SameIdsSubset(rows, b, a, c);
      CountOnce(a, c);
      CountOnce(b, c);
    }
  }

  lemma SameIdsSubset(rows: Table, a: seq<Claim>, b: seq<Claim>, c: Claim)
    requires ClaimsOf(rows, a) && ClaimsOf(rows, b) && TodoIds(a) == TodoIds(b)
    ensures c in a ==> c in b
  {
    if c in a {
      var i :| 0 <= i < |a| && a[i] == c;
      assert c.id in TodoIds(b);
      var d :| d in b && d.id == c.id;
      var j :| 0 <= j < |b| && b[j] == d;
    }
  }

  lemma SameDelayed(rows: Table, z: ZSet, ms: seq<Message>, order: seq<Id>, env: Env)
    requires DistinctIds(ms) && IsClaimOrder(rows, Ids(ms), order) && forall id :: id in order ==> id in rows
    ensures LoopDelayed(z, Claims(rows, order), ms, env) == LoopDelayed(z, Taken(rows, ms), ms, env)
  {
    ClaimsTodo(rows, ms, order);
    SameClaims(rows, ms, order);
    LoopDelayedDid(rows, z, Claims(rows, order), ms, env);
    LoopDelayedDid(rows, z, Taken(rows, ms), ms, env);
    DelayedFunctional(rows, z, LoopDelayed(z, Claims(rows, order), ms, env), LoopDelayed(z, Taken(rows, ms), ms, env),
                      ms, Claimed(rows, Ids(ms)), env);
  }

  lemma SameSent(c: Counter, a: seq<Claim>, b: seq<Claim>, env: Env)
    requires multiset(a) == multiset(b)
    ensures LoopSent(c, a, env) == LoopSent(c, b, env)
  {
    LogOfOrder(a, b, env);
    forall ch: Channel ensures LoopSent(c, a, env)[ch] == LoopSent(c, b, env)[ch] {
      LoopSentLog(c, a, env, ch);
      LoopSentLog(c, b, env, ch);
    }
  }

  lemma SameFailed(c: Counter, a: seq<Claim>, b: seq<Claim>, env: Env)
    requires multiset(a) == multiset(b)
    ensures LoopFailed(c, a, env) == LoopFailed(c, b, env)
  {
    LogOfOrder(a, b, env);
    forall ch: Channel ensures LoopFailed(c, a, env)[ch] == LoopFailed(c, b, env)[ch] {
      LoopFailedLog(c, a, env, ch);
      LoopFailedLog(c, b, env, ch);
    }
  }

  lemma SameDead(dead: seq<DeadLetter>, a: seq<Claim>, b: seq<Claim>, env: Env)
    requires multiset(a) == multiset(b)
    ensures multiset(LoopDead(dead, a, env)) == multiset(LoopDead(dead, b, env))
  {
    LogOfOrder(a, b, env);
    forall d ensures multiset(LoopDead(dead, a, env))[d] == multiset(LoopDead(dead, b, env))[d] {
      LoopDeadLog(dead, a, env, d);
      LoopDeadLog(dead, b, env, d);
    }
  }

  lemma BatchNonempty(sys: Sys, ms: seq<Message>, order: seq<Id>, ch: Channel, env: Env)
    requires DistinctIds(ms) && OnChannel(ms, ch) && IsClaimOrder(sys.st.rows, Ids(ms), order) && order != []
    ensures Same(Batch(sys, ms, order, env), Each(sys, ms, env))
  {
    OrderInRows(sys.st.rows, ms, order);
    var todo := Claims(sys.st.rows, order);
    LoopIs(sys.(st := sys.st.(rows := ClaimRows(sys.st.rows, Ids(ms)))), todo, ms, env);
    SameRows(sys.st.rows, ms, order, env);
    SameClaims(sys.st.rows, ms, order);
    SameDelayed(sys.st.rows, sys.st.delayed, ms, order, env);
    SameSent(sys.sent, todo, Taken(sys.st.rows, ms), env);
    SameFailed(sys.failed, todo, Taken(sys.st.rows, ms), env);
    SameDead(sys.st.dead, todo, Taken(sys.st.rows, ms), env);
    assert ms[0] in ms;
    LoopAckCovered(sys.st.processing, todo, ms, ch, env);
    EachAckAll(sys.st.processing, ms, ch);
  }

  lemma {:induction false} TakenNone(rows: Table, ms: seq<Message>)
    requires DistinctIds(ms) && Claimed(rows, Ids(ms)) == {}
    ensures Taken(rows, ms) == []
  {
    if ms != [] {
      IdsCons(ms);
      assert forall id :: id in Claimed(rows, Ids(ms[1..])) ==> id in Claimed(rows, Ids(ms));
      assert ms[0].id !in Claimed(rows, Ids(ms));
      TakenNone(rows, ms[1..]);
    }
  }

  lemma NothingTaken(rows: Table, ms: seq<Message>, env: Env)
    requires DistinctIds(ms) && Claimed(rows, Ids(ms)) == {}
    ensures Taken(rows, ms) == [] && EachRows(rows, ms, env) == rows
  {
    TakenNone(rows, ms);
    EachRowsDid(rows, ms, env);
    assert EachRows(rows, ms, env).Keys == rows.Keys;
  }

  lemma AckKeeps(p: ZSets, ch: Channel, ms: seq<Message>)
    ensures Ack(p, ch, ms) == p <==> forall m :: m in ms ==> m !in p[ch]
  {
    if forall m :: m in ms ==> m !in p[ch] {
      assert p[ch] - Members(ms) == p[ch];
    } else {
      var m :| m in ms && m in p[ch];
      assert m !in Ack(p, ch, ms)[ch];
    }
  }

  /** ProcessBatch leaves the rows, dead letters, sets and counters as Process on each message in turn does, for
      every order the claim may return its rows in. The exact exception: nothing in the batch is claimable and
      some message of it is in processing:<ch>, which Process acks and ProcessBatch does not. */
  lemma BatchRefinesSingle(sys: Sys, ms: seq<Message>, order: seq<Id>, ch: Channel, env: Env)
    requires DistinctIds(ms) && OnChannel(ms, ch) && IsClaimOrder(sys.st.rows, Ids(ms), order)
    ensures Same(Batch(sys, ms, order, env), Singly(sys, ms, env)) <==>
      Claimed(sys.st.rows, Ids(ms)) != {} || forall m :: m in ms ==> m !in sys.st.processing[ch]
  {
    SinglyIsEach(sys, ms, env);
    if order != [] {
      BatchNonempty(sys, ms, order, ch, env);
      assert order[0] in order;
    } else {
      forall id ensures id !in Claimed(sys.st.rows, Ids(ms)) { assert id !in order; }
      NothingTaken(sys.st.rows, ms, env);
      EachAckAll(sys.st.processing, ms, ch);
      AckKeeps(sys.st.processing, ch, ms);
    }
  }
}
