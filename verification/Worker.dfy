/** The worker's Processor: Process, ProcessBatch and handleFailure over the two databases. */
module Worker {
  import opened Domain
  import opened Databases
  import opened Pipeline
  import opened WellFormed
  import opened Processing
  import opened Postgres
  import opened RedisQueue
  import opened BatchEffects
  import Float64

  class Processor {
    const repo: Repository
    const redis: Redis
    var sent: Counter
    var failed: Counter

    constructor (repo: Repository, redis: Redis)
      ensures this.repo == repo && this.redis == redis
      ensures forall ch: Channel :: sent[ch] == 0 && failed[ch] == 0
    {
      this.repo, this.redis := repo, redis;
      sent, failed := NO_COUNTS, NO_COUNTS;
    }

    ghost function View(): Sys
      reads this, repo, redis
    {
      Sys(Store(repo.rows, repo.dead, redis.queue, redis.processing, redis.delayed), sent, failed)
    }

    /** Acks under the channel of the first message. */
    method AckAll(ms: seq<Message>)
      requires ms != []
      modifies redis`processing
      ensures redis.processing == Ack(old(redis.processing), ms[0].channel, ms)
    {
      redis.Ack(ms[0].channel, ms);
    }

    method HandleFailure(n: Claim, m: Message, err: string, env: Env)
      modifies this`failed, repo`rows, repo`dead, redis`processing, redis`delayed
      ensures repo.rows == FailRows(old(repo.rows), n, err) && repo.dead == FailDead(old(repo.dead), n, err)
      ensures redis.delayed == FailDelayed(old(redis.delayed), n, m, env)
      ensures redis.processing == Ack(old(redis.processing), m.channel, [m])
      ensures failed == Bump(old(failed), n.channel)
      ensures n.id in old(repo.rows) ==> repo.rows == old(repo.rows)[n.id := old(repo.rows)[n.id].(
        status := if n.attempts + 1 >= n.maxAttempts then Failed else Queued, lastError := Some(err), attempts := n.attempts + 1)]
      ensures repo.dead == old(repo.dead) + if n.attempts + 1 >= n.maxAttempts then [DeadLetter(n.id, err, n.attempts + 1)] else []
      ensures redis.delayed ==
        if n.attempts + 1 >= n.maxAttempts then old(redis.delayed)
        else old(redis.delayed)[m := Float64.F64(env.now + env.delay(n.id, n.attempts + 1))]
      ensures failed == old(failed)[n.channel := old(failed)[n.channel] + 1]
    {
      var attempts := n.attempts + 1;
      failed := failed[n.channel := failed[n.channel] + 1];
      if attempts >= n.maxAttempts {
        repo.UpdateStatusWithError(n.id, Failed, err, attempts);
        repo.InsertDeadLetter(n.id, err, attempts);
        AckAll([m]);
      } else {
        repo.UpdateStatusWithError(n.id, Queued, err, attempts);
        redis.EnqueueDelayed(m, env.now, env.delay(n.id, attempts));
        AckAll([m]);
      }
    }

    /** A pending or queued row is sent once and written; the channel's counter grows by one; a refusal leaves a
        letter at the last attempt and delays the message before it; the message is acked in any case. */
    method Process(m: Message, env: Env)
      modifies this`sent, this`failed, repo`rows, repo`dead, redis`processing, redis`delayed
      ensures View() == Single(old(View()), m, env)
      ensures !(m.id in old(repo.rows) && old(repo.rows)[m.id].status in {Pending, Queued}) ==>
        && repo.rows == old(repo.rows) && repo.dead == old(repo.dead) && redis.delayed == old(redis.delayed)
        && sent == old(sent) && failed == old(failed)
      ensures m.id in old(repo.rows) && old(repo.rows)[m.id].status in {Pending, Queued} ==>
        && repo.rows == old(repo.rows)[m.id := match env.send(m.id)
             case Delivered(x) => old(repo.rows)[m.id].(status := Sent, providerMsgId := Some(x))
             case Errored(err) => old(repo.rows)[m.id].(
               status := if old(repo.rows)[m.id].attempts + 1 >= old(repo.rows)[m.id].maxAttempts then Failed else Queued,
               lastError := Some(err), attempts := old(repo.rows)[m.id].attempts + 1)]
        && sent == (if env.send(m.id).Errored? then old(sent)
                    else old(sent)[old(repo.rows)[m.id].channel := old(sent)[old(repo.rows)[m.id].channel] + 1])
        && failed == (if env.send(m.id).Delivered? then old(failed)
                      else old(failed)[old(repo.rows)[m.id].channel := old(failed)[old(repo.rows)[m.id].channel] + 1])
        && repo.dead == old(repo.dead) + (
             if env.send(m.id).Errored? && old(repo.rows)[m.id].attempts + 1 >= old(repo.rows)[m.id].maxAttempts
             then [DeadLetter(m.id, env.send(m.id).err, old(repo.rows)[m.id].attempts + 1)] else [])
        && redis.delayed == (
             if env.send(m.id).Errored? && old(repo.rows)[m.id].attempts + 1 < old(repo.rows)[m.id].maxAttempts
             then old(redis.delayed)[m := Float64.F64(env.now + env.delay(m.id, old(repo.rows)[m.id].attempts + 1))] else old(redis.delayed))
      ensures redis.processing == old(redis.processing)[m.channel := old(redis.processing)[m.channel] - {m}]
    {
      HandleOne(m, env);
    }

    method HandleOne(m: Message, env: Env)
      modifies this`sent, this`failed, repo`rows, repo`dead, redis`processing, redis`delayed
      ensures redis.processing == Databases.Ack(old(redis.processing), m.channel, [m])
      ensures CanTake(old(repo.rows), m.id) ==>
        && repo.rows == StepRows(SetStatus(old(repo.rows), m.id, Processing), ClaimOf(old(repo.rows), m.id), env)
        && repo.dead == StepDead(old(repo.dead), ClaimOf(old(repo.rows), m.id), env)
        && redis.delayed == StepDelayed(old(redis.delayed), ClaimOf(old(repo.rows), m.id), m, env)
        && sent == StepSent(old(sent), ClaimOf(old(repo.rows), m.id), env)
        && failed == StepFailed(old(failed), ClaimOf(old(repo.rows), m.id), env)
      ensures !CanTake(old(repo.rows), m.id) ==>
        && repo.rows == old(repo.rows) && repo.dead == old(repo.dead) && redis.delayed == old(redis.delayed)
        && sent == old(sent) && failed == old(failed)
      ensures !(m.id in old(repo.rows) && old(repo.rows)[m.id].status in {Pending, Queued}) ==>
        && repo.rows == old(repo.rows) && repo.dead == old(repo.dead) && redis.delayed == old(redis.delayed)
        && sent == old(sent) && failed == old(failed)
      ensures m.id in old(repo.rows) && old(repo.rows)[m.id].status in {Pending, Queued} ==>
        && repo.rows == old(repo.rows)[m.id := match env.send(m.id)
             case Delivered(x) => old(repo.rows)[m.id].(status := Sent, providerMsgId := Some(x))
             case Errored(err) => old(repo.rows)[m.id].(
               status := if old(repo.rows)[m.id].attempts + 1 >= old(repo.rows)[m.id].maxAttempts then Failed else Queued,
               lastError := Some(err), attempts := old(repo.rows)[m.id].attempts + 1)]
        && sent == (if env.send(m.id).Errored? then old(sent)
                    else old(sent)[old(repo.rows)[m.id].channel := old(sent)[old(repo.rows)[m.id].channel] + 1])
        && failed == (if env.send(m.id).Delivered? then old(failed)
                      else old(failed)[old(repo.rows)[m.id].channel := old(failed)[old(repo.rows)[m.id].channel] + 1])
        && repo.dead == old(repo.dead) + (
             if env.send(m.id).Errored? && old(repo.rows)[m.id].attempts + 1 >= old(repo.rows)[m.id].maxAttempts
             then [DeadLetter(m.id, env.send(m.id).err, old(repo.rows)[m.id].attempts + 1)] else [])
        && redis.delayed == (
             if env.send(m.id).Errored? && old(repo.rows)[m.id].attempts + 1 < old(repo.rows)[m.id].maxAttempts
             then old(redis.delayed)[m := Float64.F64(env.now + env.delay(m.id, old(repo.rows)[m.id].attempts + 1))] else old(redis.delayed))
      ensures redis.processing == old(redis.processing)[m.channel := old(redis.processing)[m.channel] - {m}]
    {
      OneAck(redis.processing, m.channel, m);
      var claimed := repo.GetAndMarkProcessing(m.id);
      if claimed.None? {
        AckAll([m]);
        return;
      }
      SendClaimed(claimed.value, m, env);
      OneRow(old(repo.rows), m.id, env, old(sent), old(failed));
      OneRefusal(old(repo.rows), m, env, old(repo.dead), old(redis.delayed));
    }

    /** Process once the row is claimed. */
    method SendClaimed(n: Claim, m: Message, env: Env)
      modifies this`sent, this`failed, repo`rows, repo`dead, redis`processing, redis`delayed
      ensures repo.rows == StepRows(old(repo.rows), n, env) && repo.dead == StepDead(old(repo.dead), n, env)
      ensures redis.delayed == StepDelayed(old(redis.delayed), n, m, env)
      ensures redis.processing == Ack(old(redis.processing), m.channel, [m])
      ensures sent == StepSent(old(sent), n, env) && failed == StepFailed(old(failed), n, env)
    {
      var out := env.send(n.id);
      match out {
        case Errored(err) =>
          HandleFailure(n, m, err, env);
        case Delivered(msgId) =>
          repo.UpdateSent(n.id, msgId);
          AckAll([m]);
          sent := sent[n.channel := sent[n.channel] + 1];
      }
    }

    /** order is the order in which the claim returned its rows. Every pending or queued row of the batch is sent once:
        it ends sent, or queued with one attempt more, or at its last attempt failed; the counters count by the channels of
        the rows. LettersAre, DelayedAre and AcksAre say as much of the dead letters and the sets. */
    method ProcessBatch(ms: seq<Message>, env: Env) returns (ghost order: seq<Id>)
      modifies this`sent, this`failed, repo`rows, repo`dead, redis`processing, redis`delayed
      ensures IsClaimOrder(old(repo.rows), Ids(ms), order)
      ensures View() == Batch(old(View()), ms, order, env)
      ensures repo.rows.Keys == old(repo.rows).Keys
      ensures forall id :: id in repo.rows && !(old(repo.rows)[id].status in {Pending, Queued} && exists m :: m in ms && m.id == id) ==>
        repo.rows[id] == old(repo.rows)[id]
      ensures forall m, id :: m in ms && m.id == id && id in repo.rows && old(repo.rows)[id].status in {Pending, Queued} ==>
        repo.rows[id] == match env.send(id)
          case Delivered(x) => old(repo.rows)[id].(status := Sent, providerMsgId := Some(x))
          case Errored(err) => old(repo.rows)[id].(
            status := if old(repo.rows)[id].attempts + 1 >= old(repo.rows)[id].maxAttempts then Failed else Queued,
            lastError := Some(err), attempts := old(repo.rows)[id].attempts + 1)
      ensures forall ch: Channel ::
        && sent[ch] == old(sent)[ch] +
             |set id | id in Claimed(old(repo.rows), Ids(ms)) && old(repo.rows)[id].channel == ch && env.send(id).Delivered?|
        && failed[ch] == old(failed)[ch] +
             |set id | id in Claimed(old(repo.rows), Ids(ms)) && old(repo.rows)[id].channel == ch && env.send(id).Errored?|
    {
      order := ClaimAndSend(ms, env);
      forall ch: Channel { CountersAre(old(repo.rows), ms, order, env, old(sent), old(failed), ch); }
      forall id { RowsAre(old(repo.rows), ms, order, env, repo.rows, id); }
    }

    /** The same, table by table and set by set. */
    method ClaimAndSend(ms: seq<Message>, env: Env) returns (ghost order: seq<Id>)
      modifies this`sent, this`failed, repo`rows, repo`dead, redis`processing, redis`delayed
      ensures IsClaimOrder(old(repo.rows), Ids(ms), order)
      ensures View() == Batch(old(View()), ms, order, env)
      ensures (forall id :: id in order ==> id in old(repo.rows)) && (ms == [] ==> order == [])
      ensures repo.dead == LoopDead(old(repo.dead), Claims(old(repo.rows), order), env)
      ensures redis.delayed == LoopDelayed(old(redis.delayed), Claims(old(repo.rows), order), ms, env)
      ensures redis.processing ==
        if order == [] then old(redis.processing)
        else Databases.Ack(LoopAck(old(redis.processing), Claims(old(repo.rows), order), ms, env), ms[0].channel, ms)
      ensures repo.rows == MarkSent(LoopRows(ClaimRows(old(repo.rows), Ids(ms)), Claims(old(repo.rows), order), env),
                                    Receipts(Claims(old(repo.rows), order), env))
      ensures sent == LoopSent(old(sent), Claims(old(repo.rows), order), env)
      ensures failed == LoopFailed(old(failed), Claims(old(repo.rows), order), env)
    {
      if |ms| == 0 {
        order := [];
        return;
      }
      ghost var sys := View();
      var claimed;
      claimed, order := ClaimBatch(ms);
      if |claimed| == 0 {
        NoClaims(sys.st.rows, ms);
        assert repo.rows == sys.st.rows;
      } else {
        SendClaims(claimed, ms, env);
        BatchParts(sys, ms, order, env);
      }
    }

    /** The sends, the write of the delivered ones and the final ack. */
    method SendClaims(claimed: seq<Claim>, ms: seq<Message>, env: Env)
      requires ms != [] && FromBatch(ms, claimed)
      modifies this`sent, this`failed, repo`rows, repo`dead, redis`processing, redis`delayed
      ensures repo.rows == MarkSent(LoopRows(old(repo.rows), claimed, env), Receipts(claimed, env))
      ensures repo.dead == LoopDead(old(repo.dead), claimed, env)
      ensures unchanged(redis`queue)
      ensures redis.processing == Databases.Ack(LoopAck(old(redis.processing), claimed, ms, env), ms[0].channel, ms)
      ensures redis.delayed == LoopDelayed(old(redis.delayed), claimed, ms, env)
      ensures sent == LoopSent(old(sent), claimed, env) && failed == LoopFailed(old(failed), claimed, env)
    {
      var msgMap := MessageMap(ms);
      forall i | 0 <= i < |claimed| ensures claimed[i].id in msgMap { MsgForFinds(ms, claimed[i].id); }
      var sentIds, sentMsgIds := SendAll(claimed, ms, msgMap, env);
      repo.UpdateBatchSent(sentIds, sentMsgIds);
      AckAll(ms);
    }

    /** Collects the ids and claims them in one statement. */
    method ClaimBatch(ms: seq<Message>) returns (claimed: seq<Claim>, ghost order: seq<Id>)
      modifies repo`rows
      ensures repo.rows == ClaimRows(old(repo.rows), Ids(ms)) && IsClaimOrder(old(repo.rows), Ids(ms), order)
      ensures (forall id :: id in order ==> id in old(repo.rows)) && claimed == Claims(old(repo.rows), order)
      ensures FromBatch(ms, claimed)
    {
      var ids := [];
      for i := 0 to |ms|
        invariant |ids| == i && forall j :: 0 <= j < i ==> ids[j] == ms[j].id
      {
        ids := ids + [ms[i].id];
      }
      IdsOf(ms, ids);
      claimed, order := repo.GetAndMarkProcessingBatch(ids);
      OrderInRows(old(repo.rows), ms, order);
      forall i | 0 <= i < |claimed| ensures HasId(ms, claimed[i].id) {
        assert order[i] in Claimed(old(repo.rows), Ids(ms)) by { assert order[i] in order; }
        var m :| m in ms && m.id == order[i];
      }
    }

    method MessageMap(ms: seq<Message>) returns (msgMap: map<Id, Message>)
      ensures forall id :: if id in msgMap then MsgFor(ms, id) == Some(msgMap[id]) else MsgFor(ms, id) == None
    {
      msgMap := map[];
      for i := 0 to |ms|
        invariant forall id :: if id in msgMap then MsgFor(ms[..i], id) == Some(msgMap[id]) else MsgFor(ms[..i], id) == None
      {
        msgMap := msgMap[ms[i].id := ms[i]];
        assert ms[..i + 1][..i] == ms[..i];
      }
      assert ms[..|ms|] == ms;
    }

    /** The send loop: failures are handled at once, deliveries gathered for one write. */
    method SendAll(claimed: seq<Claim>, ghost ms: seq<Message>, msgMap: map<Id, Message>, env: Env)
      returns (sentIds: seq<Id>, sentMsgIds: seq<string>)
      requires forall i :: 0 <= i < |claimed| ==> claimed[i].id in msgMap && MsgFor(ms, claimed[i].id) == Some(msgMap[claimed[i].id])
      modifies this`sent, this`failed, repo`rows, repo`dead, redis`processing, redis`delayed
      ensures |sentIds| == |sentMsgIds| && Zip(sentIds, sentMsgIds) == Receipts(claimed, env)
      ensures repo.rows == LoopRows(old(repo.rows), claimed, env) && repo.dead == LoopDead(old(repo.dead), claimed, env)
      ensures redis.processing == LoopAck(old(redis.processing), claimed, ms, env)
      ensures redis.delayed == LoopDelayed(old(redis.delayed), claimed, ms, env)
      ensures sent == LoopSent(old(sent), claimed, env) && failed == LoopFailed(old(failed), claimed, env)
    {
      sentIds, sentMsgIds := [], [];
      for i := 0 to |claimed|
        invariant Gathered(sentIds, sentMsgIds, claimed, i, env)
        invariant LoopRows(repo.rows, claimed[i..], env) == LoopRows(old(repo.rows), claimed, env)
        invariant LoopDead(repo.dead, claimed[i..], env) == LoopDead(old(repo.dead), claimed, env)
        invariant LoopAck(redis.processing, claimed[i..], ms, env) == LoopAck(old(redis.processing), claimed, ms, env)
        invariant LoopDelayed(redis.delayed, claimed[i..], ms, env) == LoopDelayed(old(redis.delayed), claimed, ms, env)
        invariant LoopSent(sent, claimed[i..], env) == LoopSent(old(sent), claimed, env)
        invariant LoopFailed(failed, claimed[i..], env) == LoopFailed(old(failed), claimed, env)
      {
        var n := claimed[i];
        assert claimed[i..][0] == n && claimed[i..][1..] == claimed[i + 1..];
        Gather(sentIds, sentMsgIds, claimed, i, env);
        sentIds, sentMsgIds := SendNext(n, sentIds, sentMsgIds, ms, msgMap[n.id], env);
      }
    }

    /** One turn of the loop. */
    method SendNext(n: Claim, ids: seq<Id>, msgIds: seq<string>, ghost ms: seq<Message>, m: Message, env: Env)
      returns (ids': seq<Id>, msgIds': seq<string>)
      requires MsgFor(ms, n.id) == Some(m)
      modifies this`sent, this`failed, repo`rows, repo`dead, redis`processing, redis`delayed
      ensures ids' == SentIds(ids, n, env) && msgIds' == SentMsgIds(msgIds, n, env)
      ensures repo.rows == FailedRows(old(repo.rows), n, env) && repo.dead == StepDead(old(repo.dead), n, env)
      ensures redis.processing == StepAck(old(redis.processing), n, ms, env)
      ensures redis.delayed == DelayedIn(old(redis.delayed), n, ms, env)
      ensures sent == StepSent(old(sent), n, env) && failed == StepFailed(old(failed), n, env)
    {
      ids', msgIds' := ids, msgIds;
      var out := env.send(n.id);
      match out {
        case Errored(err) =>
          HandleFailure(n, m, err, env);
        case Delivered(msgId) =>
          ids', msgIds' := ids + [n.id], msgIds + [msgId];
          sent := sent[n.channel := sent[n.channel] + 1];
      }
    }
  }

  /** ProcessBatch, component by component. */
  lemma BatchParts(sys: Sys, ms: seq<Message>, order: seq<Id>, env: Env)
    requires IsClaimOrder(sys.st.rows, Ids(ms), order) && order != []
    requires ms != [] && forall id :: id in order ==> id in sys.st.rows
    ensures var todo := Claims(sys.st.rows, order);
      Batch(sys, ms, order, env) ==
        Sys(Store(MarkSent(LoopRows(ClaimRows(sys.st.rows, Ids(ms)), todo, env), Receipts(todo, env)),
                  LoopDead(sys.st.dead, todo, env), sys.st.queue,
                  Ack(LoopAck(sys.st.processing, todo, ms, env), ms[0].channel, ms),
                  LoopDelayed(sys.st.delayed, todo, ms, env)),
            LoopSent(sys.sent, todo, env), LoopFailed(sys.failed, todo, env))
  {
    LoopIs(sys.(st := sys.st.(rows := ClaimRows(sys.st.rows, Ids(ms)))), Claims(sys.st.rows, order), ms, env);
  }

  ghost predicate FromBatch(ms: seq<Message>, claimed: seq<Claim>) {
    forall i :: 0 <= i < |claimed| ==> HasId(ms, claimed[i].id)
  }

  lemma IdsOf(ms: seq<Message>, ids: seq<Id>)
    requires |ids| == |ms| && forall j :: 0 <= j < |ms| ==> ids[j] == ms[j].id
    ensures IdSet(ids) == Ids(ms)
  {
  }

  lemma NoClaims(rows: Table, ms: seq<Message>)
    requires Claimed(rows, Ids(ms)) == {}
    ensures ClaimRows(rows, Ids(ms)) == rows
  {
    forall id | id in rows && id in Ids(ms) ensures !Claimable(rows[id].status) {
      assert id !in Claimed(rows, Ids(ms));
    }
  }

  function SentIds(ids: seq<Id>, n: Claim, env: Env): seq<Id> {
    if env.send(n.id).Delivered? then ids + [n.id] else ids
  }

  function SentMsgIds(msgIds: seq<string>, n: Claim, env: Env): seq<string> {
    match env.send(n.id)
    case Delivered(msgId) => msgIds + [msgId]
    case Errored(_) => msgIds
  }

  /** The receipts gathered from the first i claims, with those still to come, are all of them. */
  ghost predicate Gathered(ids: seq<Id>, msgIds: seq<string>, claimed: seq<Claim>, i: nat, env: Env) {
    |ids| == |msgIds| && i <= |claimed| && Zip(ids, msgIds) + Receipts(claimed[i..], env) == Receipts(claimed, env)
  }

  lemma Gather(ids: seq<Id>, msgIds: seq<string>, claimed: seq<Claim>, i: nat, env: Env)
    requires i < |claimed| && Gathered(ids, msgIds, claimed, i, env)
    ensures Gathered(SentIds(ids, claimed[i], env), SentMsgIds(msgIds, claimed[i], env), claimed, i + 1, env)
  {
    var out := env.send(claimed[i].id);
    assert claimed[i..][0] == claimed[i] && claimed[i..][1..] == claimed[i + 1..];
    if out.Delivered? { ZipAppend(ids, msgIds, claimed[i].id, out.msgId); }
  }

  lemma {:induction false} ZipAppend(ids: seq<Id>, msgIds: seq<string>, id: Id, msgId: string)
    requires |ids| == |msgIds|
    ensures Zip(ids + [id], msgIds + [msgId]) == Zip(ids, msgIds) + [Receipt(id, msgId)]
  {
    if ids != [] {
      ZipAppend(ids[1..], msgIds[1..], id, msgId);
      assert (ids + [id])[1..] == ids[1..] + [id] && (msgIds + [msgId])[1..] == msgIds[1..] + [msgId];
    }
  }
}
