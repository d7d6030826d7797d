/** What ProcessBatch and Process do, row by row, message by message and counter by counter. */
module BatchEffects {
  import opened Domain
  import opened Databases
  import opened Pipeline
  import opened Processing
  import opened BatchRefinement
  import Float64

  lemma ClaimedIs(rows: Table, ms: seq<Message>, id: Id)
    ensures id in Claimed(rows, Ids(ms)) <==>
      id in rows && rows[id].status in {Pending, Queued} && exists m :: m in ms && m.id == id
  {
  }

  // ---- rows ----

  /** A row of the batch that is pending or queued ends sent with the provider's id, or queued or, at its last attempt,
      failed, with the error and one attempt more; all other rows keep every column. */
  lemma RowsAre(rows: Table, ms: seq<Message>, order: seq<Id>, env: Env, rows': Table, id: Id)
    requires IsClaimOrder(rows, Ids(ms), order) && forall x :: x in order ==> x in rows
    requires rows' == MarkSent(LoopRows(ClaimRows(rows, Ids(ms)), Claims(rows, order), env), Receipts(Claims(rows, order), env))
    ensures rows'.Keys == rows.Keys
    ensures id in rows ==>
      rows'[id] ==
        var r := rows[id];
        if r.status in {Pending, Queued} && exists m :: m in ms && m.id == id then
          match env.send(id)
          case Delivered(x) => r.(status := Sent, providerMsgId := Some(x))
          case Errored(err) =>
            r.(status := if r.attempts + 1 >= r.maxAttempts then Failed else Queued, lastError := Some(err), attempts := r.attempts + 1)
        else r
  {
    BatchRowsDid(rows, ms, order, env);
    ClaimedIs(rows, ms, id);
  }

  // ---- counters ----

  /** The rows on ch among ids that the provider delivers, or that it refuses. */
  function Answered(rows: Table, ids: set<Id>, env: Env, ch: Channel, delivered: bool): set<Id> {
    set id | id in ids && id in rows && rows[id].channel == ch && env.send(id).Delivered? == delivered
  }

  lemma AnsweredOne(rows: Table, ids: set<Id>, id: Id, env: Env, ch: Channel, delivered: bool)
    requires id !in ids && id in rows
    ensures |Answered(rows, {id} + ids, env, ch, delivered)| == |Answered(rows, ids, env, ch, delivered)| +
      if rows[id].channel == ch && env.send(id).Delivered? == delivered then 1 else 0
  {
    var rest := Answered(rows, ids, env, ch, delivered);
    if rows[id].channel == ch && env.send(id).Delivered? == delivered {
      assert Answered(rows, {id} + ids, env, ch, delivered) == rest + {id};
    } else {
      assert Answered(rows, {id} + ids, env, ch, delivered) == rest;
    }
  }

  lemma AnsweredAre(rows: Table, ids: set<Id>, env: Env, ch: Channel)
    requires ids <= rows.Keys
    ensures Answered(rows, ids, env, ch, true) == set id | id in ids && rows[id].channel == ch && env.send(id).Delivered?
    ensures Answered(rows, ids, env, ch, false) == set id | id in ids && rows[id].channel == ch && env.send(id).Errored?
  {
  }

  lemma ClaimedInRows(rows: Table, ids: set<Id>)
    ensures Claimed(rows, ids) <= rows.Keys
  {
  }

  lemma {:induction false} LoopCounts(rows: Table, sent: Counter, failed: Counter, todo: seq<Claim>, env: Env, ch: Channel)
    requires ClaimsOf(rows, todo)
    ensures LoopSent(sent, todo, env)[ch] == sent[ch] + |Answered(rows, TodoIds(todo), env, ch, true)|
    ensures LoopFailed(failed, todo, env)[ch] == failed[ch] + |Answered(rows, TodoIds(todo), env, ch, false)|
    decreases |todo|
  {
    if todo != [] {
      TodoCons(rows, todo);
      AnsweredOne(rows, TodoIds(todo[1..]), todo[0].id, env, ch, true);
      AnsweredOne(rows, TodoIds(todo[1..]), todo[0].id, env, ch, false);
      LoopCounts(rows, StepSent(sent, todo[0], env), StepFailed(failed, todo[0], env), todo[1..], env, ch);
    } else {
      assert Answered(rows, {}, env, ch, true) == {} && Answered(rows, {}, env, ch, false) == {};
    }
  }

  /** The sent counter of a channel grows by the claimed rows of that channel that were delivered, the failed counter by
      those that were not. */
  lemma CountersAre(rows: Table, ms: seq<Message>, order: seq<Id>, env: Env, sent: Counter, failed: Counter, ch: Channel)
    requires IsClaimOrder(rows, Ids(ms), order) && forall x :: x in order ==> x in rows
    ensures var ids := Claimed(rows, Ids(ms));
      && LoopSent(sent, Claims(rows, order), env)[ch] ==
           sent[ch] + |set id | id in ids && rows[id].channel == ch && env.send(id).Delivered?|
      && LoopFailed(failed, Claims(rows, order), env)[ch] ==
           failed[ch] + |set id | id in ids && rows[id].channel == ch && env.send(id).Errored?|
  {
    ClaimsTodo(rows, ms, order);
    LoopCounts(rows, sent, failed, Claims(rows, order), env, ch);
    ClaimedInRows(rows, Ids(ms));
    AnsweredAre(rows, Claimed(rows, Ids(ms)), env, ch);
  }

  // ---- dead letters ----

  /** A claim at its last attempt that the provider refuses writes this letter. */
  predicate Dies(rows: Table, id: Id, env: Env, d: DeadLetter) {
    && id in rows && env.send(id).Errored? && rows[id].attempts + 1 >= rows[id].maxAttempts
    && d == DeadLetter(id, env.send(id).err, rows[id].attempts + 1)
  }

  lemma StepLetters(rows: Table, dead: seq<DeadLetter>, n: Claim, env: Env, d: DeadLetter)
    requires n.id in rows && n == ClaimOf(rows, n.id)
    ensures dead <= StepDead(dead, n, env)
    ensures multiset(StepDead(dead, n, env))[d] == multiset(dead)[d] + if Dies(rows, n.id, env, d) then 1 else 0
  {
  }

  lemma {:induction false} LoopLetters(rows: Table, dead: seq<DeadLetter>, todo: seq<Claim>, env: Env, d: DeadLetter)
    requires ClaimsOf(rows, todo)
    ensures dead <= LoopDead(dead, todo, env)
    ensures multiset(LoopDead(dead, todo, env))[d] ==
      multiset(dead)[d] + if d.id in TodoIds(todo) && Dies(rows, d.id, env, d) then 1 else 0
    decreases |todo|
  {
    if todo != [] {
      TodoCons(rows, todo);
      StepLetters(rows, dead, todo[0], env, d);
      LoopLetters(rows, StepDead(dead, todo[0], env), todo[1..], env, d);
    }
  }

  /** Letters are appended: one for each claimed row refused at its last attempt, and no other. */
  lemma LettersAre(rows: Table, ms: seq<Message>, order: seq<Id>, env: Env, dead: seq<DeadLetter>, d: DeadLetter)
    requires IsClaimOrder(rows, Ids(ms), order) && forall x :: x in order ==> x in rows
    ensures var dead' := LoopDead(dead, Claims(rows, order), env);
      && dead <= dead'
      && multiset(dead')[d] == multiset(dead)[d] +
           if d.id in Claimed(rows, Ids(ms)) && env.send(d.id).Errored? && rows[d.id].attempts + 1 >= rows[d.id].maxAttempts
              && d == DeadLetter(d.id, env.send(d.id).err, rows[d.id].attempts + 1) then 1 else 0
  {
    ClaimsTodo(rows, ms, order);
    LoopLetters(rows, dead, Claims(rows, order), env, d);
  }

  // ---- the sets ----

  lemma DelayedAt(rows: Table, z: ZSet, z': ZSet, ms: seq<Message>, ids: set<Id>, env: Env, m: Message)
    requires DelayedDid(rows, z, z', ms, ids, env) && ids <= rows.Keys
    ensures if m in ms && m.id in ids && env.send(m.id).Errored? && rows[m.id].attempts + 1 < rows[m.id].maxAttempts
            then m in z' && z'[m] == Float64.F64(env.now + env.delay(m.id, rows[m.id].attempts + 1))
            else (m in z' <==> m in z) && (m in z ==> z'[m] == z[m])
  {
    if m in ms && m.id in ids && Retried(rows, m.id, env) { assert z'[m] == RetryAt(rows, m.id, env); }
  }

  /** With distinct ids, the message of a claimed row refused before its last attempt is delayed by the delay of its next
      one, and no other entry changes. */
  lemma DelayedAre(rows: Table, ms: seq<Message>, order: seq<Id>, env: Env, z: ZSet, m: Message)
    requires IsClaimOrder(rows, Ids(ms), order) && DistinctIds(ms) && forall x :: x in order ==> x in rows
    ensures var z' := LoopDelayed(z, Claims(rows, order), ms, env);
      if m in ms && m.id in Claimed(rows, Ids(ms)) && env.send(m.id).Errored? && rows[m.id].attempts + 1 < rows[m.id].maxAttempts
      then m in z' && z'[m] == Float64.F64(env.now + env.delay(m.id, rows[m.id].attempts + 1))
      else (m in z' <==> m in z) && (m in z ==> z'[m] == z[m])
  {
    ClaimsTodo(rows, ms, order);
    LoopDelayedDid(rows, z, Claims(rows, order), ms, env);
    ClaimedInRows(rows, Ids(ms));
    DelayedAt(rows, z, LoopDelayed(z, Claims(rows, order), ms, env), ms, Claimed(rows, Ids(ms)), env, m);
  }

  /** A batch of one channel leaves that channel's processing set, and no other message does. */
  lemma AcksAre(ms: seq<Message>, todo: seq<Claim>, ch: Channel, env: Env, p: ZSets, c: Channel, m: Message)
    requires ms != [] && OnChannel(ms, ch)
    ensures var p' := Ack(LoopAck(p, todo, ms, env), ms[0].channel, ms);
      && (m in p'[c] <==> m in p[c] && !(c == ch && m in ms))
      && (m in p'[c] ==> p'[c][m] == p[c][m])
  {
    assert ms[0] in ms;
    LoopAckCovered(p, todo, ms, ch, env);
  }

  // ---- one message ----

  lemma OneRow(rows: Table, id: Id, env: Env, sent: Counter, failed: Counter)
    requires CanTake(rows, id)
    ensures StepRows(SetStatus(rows, id, Processing), ClaimOf(rows, id), env) ==
      rows[id := match env.send(id)
        case Delivered(x) => rows[id].(status := Sent, providerMsgId := Some(x))
        case Errored(err) => rows[id].(status := if rows[id].attempts + 1 >= rows[id].maxAttempts then Failed else Queued,
                                       lastError := Some(err), attempts := rows[id].attempts + 1)]
    ensures StepSent(sent, ClaimOf(rows, id), env) ==
      if env.send(id).Errored? then sent else sent[rows[id].channel := sent[rows[id].channel] + 1]
    ensures StepFailed(failed, ClaimOf(rows, id), env) ==
      if env.send(id).Delivered? then failed else failed[rows[id].channel := failed[rows[id].channel] + 1]
  {
  }

  /** Only a refusal leaves a letter or an entry of the delayed set: a letter at the last attempt, an entry before it. */
  lemma OneRefusal(rows: Table, m: Message, env: Env, dead: seq<DeadLetter>, z: ZSet)
    requires m.id in rows
    ensures StepDead(dead, ClaimOf(rows, m.id), env) == dead + (
      if env.send(m.id).Errored? && rows[m.id].attempts + 1 >= rows[m.id].maxAttempts
      then [DeadLetter(m.id, env.send(m.id).err, rows[m.id].attempts + 1)] else [])
    ensures StepDelayed(z, ClaimOf(rows, m.id), m, env) ==
      if env.send(m.id).Errored? && rows[m.id].attempts + 1 < rows[m.id].maxAttempts
      then z[m := Float64.F64(env.now + env.delay(m.id, rows[m.id].attempts + 1))] else z
  {
  }

  lemma OneAck(p: ZSets, ch: Channel, m: Message)
    ensures Ack(p, ch, [m]) == p[ch := p[ch] - {m}]
  {
    assert Members([m]) == {m};
  }
}
