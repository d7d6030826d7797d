/** The notification repository and the dead-letter handler over their two tables. */
module Postgres {
  import opened Domain
  import opened Databases
  import opened Processing

  function IdSet(ids: seq<Id>): set<Id> {
    set id | id in ids
  }

  function Zip(ids: seq<Id>, msgIds: seq<string>): seq<Receipt>
    requires |ids| == |msgIds|
  {
    if ids == [] then [] else [Receipt(ids[0], msgIds[0])] + Zip(ids[1..], msgIds[1..])
  }

  /** The row of the claim, as it was returned. */
  ghost predicate ClaimsAre(rows: Table, order: seq<Id>, ns: seq<Claim>) {
    |ns| == |order| && forall i :: 0 <= i < |order| ==> order[i] in rows && ns[i] == ClaimOf(rows, order[i])
  }

  class Repository {
    var rows: Table
    var dead: seq<DeadLetter>
    var keys: set<string>    // the UNIQUE index on idempotency_key; NULLs are not in it

    constructor ()
      ensures rows == map[] && dead == [] && keys == {}
    {
      rows, dead, keys := map[], [], {};
    }

    method UpdateStatus(id: Id, st: Status)
      modifies this`rows
      ensures rows == SetStatus(old(rows), id, st)
    {
      if id in rows { rows := rows[id := rows[id].(status := st)]; }
    }

    method UpdateStatusWithError(id: Id, st: Status, err: string, attempts: nat)
      modifies this`rows
      ensures rows == SetFailure(old(rows), id, st, err, attempts)
    {
      if id in rows { rows := rows[id := rows[id].(status := st, lastError := Some(err), attempts := attempts)]; }
    }

    method UpdateSent(id: Id, msgId: string)
      modifies this`rows
      ensures rows == SetSent(old(rows), id, msgId)
    {
      if id in rows { rows := rows[id := rows[id].(status := Sent, providerMsgId := Some(msgId))]; }
    }

    /** Later writes win; rows without a write stay as they are. */
    method UpdateBatchSent(ids: seq<Id>, msgIds: seq<string>)
      requires |ids| == |msgIds|
      modifies this`rows
      ensures rows == MarkSent(old(rows), Zip(ids, msgIds))
      ensures rows.Keys == old(rows).Keys && forall id :: id in rows && id !in ids ==> rows[id] == old(rows)[id]
      ensures forall i :: 0 <= i < |ids| && ids[i] in rows && ids[i] !in ids[i + 1..] ==>
        rows[ids[i]] == old(rows)[ids[i]].(status := Sent, providerMsgId := Some(msgIds[i]))
    {
      for i := 0 to |ids|
        invariant MarkSent(rows, Zip(ids[i..], msgIds[i..])) == MarkSent(old(rows), Zip(ids, msgIds))
      {
        assert Zip(ids[i..], msgIds[i..])[1..] == Zip(ids[i + 1..], msgIds[i + 1..]);
        UpdateSent(ids[i], msgIds[i]);
      }
      SentAre(old(rows), ids, msgIds);
    }

    method GetAndMarkProcessing(id: Id) returns (n: Option<Claim>)
      modifies this`rows
      ensures n == if CanTake(old(rows), id) then Some(ClaimOf(old(rows), id)) else None
      ensures rows == if CanTake(old(rows), id) then SetStatus(old(rows), id, Processing) else old(rows)
      ensures n.Some? <==> id in old(rows) && old(rows)[id].status in {Pending, Queued}
      ensures n.Some? ==>
        && n.value.id == id && n.value.channel == old(rows)[id].channel
        && n.value.attempts == old(rows)[id].attempts && n.value.maxAttempts == old(rows)[id].maxAttempts
      ensures rows == if n.Some? then old(rows)[id := old(rows)[id].(status := Processing)] else old(rows)
    {
      if id in rows && Claimable(rows[id].status) {
        n := Some(ClaimOf(rows, id));
        UpdateStatus(id, Processing);
      } else {
        n := None;
      }
    }

    method GetAndMarkProcessingBatch(ids: seq<Id>) returns (ns: seq<Claim>, ghost order: seq<Id>)
      modifies this`rows
      ensures IsClaimOrder(old(rows), IdSet(ids), order) && ClaimsAre(old(rows), order, ns)
      ensures rows == ClaimRows(old(rows), IdSet(ids))
      ensures |ns| == |order|
      ensures forall i :: 0 <= i < |ns| ==>
        && order[i] in old(rows) && ns[i].id == order[i]
        && ns[i].channel == old(rows)[order[i]].channel
        && ns[i].attempts == old(rows)[order[i]].attempts && ns[i].maxAttempts == old(rows)[order[i]].maxAttempts
      ensures forall i, j :: 0 <= i < j < |order| ==> order[i] != order[j]
      ensures forall id :: id in order <==> id in ids && id in old(rows) && old(rows)[id].status in {Pending, Queued}
      ensures rows.Keys == old(rows).Keys && forall id :: id in rows ==>
        rows[id] == if id in order then old(rows)[id].(status := Processing) else old(rows)[id]
    {
      var left := set id | id in ids && id in rows && Claimable(rows[id].status);
      ghost var all := left;
      ns, order := [], [];
      while left != {}
        invariant left <= all == Claimed(old(rows), IdSet(ids))
        invariant forall id :: id in order <==> id in all - left
        invariant forall i, j :: 0 <= i < j < |order| ==> order[i] != order[j]
        invariant ClaimsAre(old(rows), order, ns)
        invariant rows == ClaimRows(old(rows), all - left)
        decreases left
      {
        var id :| id in left;
        ns, order := ns + [ClaimOf(rows, id)], order + [id];
        rows := rows[id := rows[id].(status := Processing)];
        left := left - {id};
      }
      assert all - left == all;
      assert forall id :: id in old(rows) ==> (id in all <==> id in IdSet(ids) && Claimable(old(rows)[id].status));
    }

    /** DeadLetterHandler.Handle. */
    method InsertDeadLetter(id: Id, err: string, attempts: nat)
      modifies this`dead
      ensures dead == old(dead) + [DeadLetter(id, err, attempts)]
    {
      dead := dead + [DeadLetter(id, err, attempts)];
    }

    /** GetPendingScheduled: due scheduled rows, earliest first, at most limit of them. */
    method GetPendingScheduled(now: Time, limit: nat) returns (ids: seq<Id>)
      ensures IsPage(rows, now, limit, ids)
      ensures |ids| <= limit && forall i, j :: 0 <= i < j < |ids| ==> ids[i] != ids[j]
      ensures forall id :: id in ids ==>
        id in rows && rows[id].status == Scheduled && rows[id].scheduledAt.Some? && rows[id].scheduledAt.value <= now
      ensures forall i, j :: 0 <= i < j < |ids| ==> rows[ids[i]].scheduledAt.value <= rows[ids[j]].scheduledAt.value
      ensures forall id ::
        id in rows && rows[id].status == Scheduled && rows[id].scheduledAt.Some? && rows[id].scheduledAt.value <= now && id !in ids
        ==> |ids| == limit && forall i :: 0 <= i < |ids| ==> rows[ids[i]].scheduledAt.value <= rows[id].scheduledAt.value
    {
      ids := [];
      var left := set id | id in rows && IsDue(rows[id], now);
      while left != {} && |ids| < limit
        invariant |ids| <= limit
        invariant forall id :: id in left <==> id in DueIds(rows, now) && id !in ids
        invariant forall id :: id in ids ==> id in DueIds(rows, now)
        invariant forall i, j :: 0 <= i < j < |ids| ==> ids[i] != ids[j]
        invariant forall i, id :: 0 <= i < |ids| && id in left ==> DueAt(rows, ids[i]) <= DueAt(rows, id)
        invariant forall i, j :: 0 <= i < j < |ids| ==> DueAt(rows, ids[i]) <= DueAt(rows, ids[j])
        decreases left
      {
        var id := Earliest(left, now);
        ids := ids + [id];
        left := left - {id};
      }
    }

    method Earliest(ids: set<Id>, ghost now: Time) returns (id: Id)
      requires ids != {} && ids <= DueIds(rows, now)
      ensures id in ids && forall x :: x in ids ==> DueAt(rows, id) <= DueAt(rows, x)
    {
      id :| id in ids;
      var left := ids - {id};
      while left != {}
        invariant left <= ids && id in ids
        invariant forall x :: x in ids - left ==> DueAt(rows, id) <= DueAt(rows, x)
        decreases left
      {
        var x :| x in left;
        if rows[x].scheduledAt.value < rows[id].scheduledAt.value { id := x; }
        left := left - {x};
      }
    }
  }

  lemma {:induction false} ZipAt(ids: seq<Id>, msgIds: seq<string>, i: nat)
    requires |ids| == |msgIds| && i < |ids|
    ensures |Zip(ids, msgIds)| == |ids| && Zip(ids, msgIds)[i] == Receipt(ids[i], msgIds[i])
  {
    if i > 0 { ZipAt(ids[1..], msgIds[1..], i - 1); } else if |ids| > 1 { ZipAt(ids[1..], msgIds[1..], 0); }
  }

  lemma SentAre(rows: Table, ids: seq<Id>, msgIds: seq<string>)
    requires |ids| == |msgIds|
    ensures var rows' := MarkSent(rows, Zip(ids, msgIds));
      && rows'.Keys == rows.Keys && (forall id :: id in rows && id !in ids ==> rows'[id] == rows[id])
      && forall i :: 0 <= i < |ids| && ids[i] in rows && ids[i] !in ids[i + 1..] ==>
           rows'[ids[i]] == rows[ids[i]].(status := Sent, providerMsgId := Some(msgIds[i]))
  {
    var rs := Zip(ids, msgIds);
    MarkSentAt(rows, rs, 0);
    if ids != [] { ZipAt(ids, msgIds, 0); }
    forall i | 0 <= i < |ids| ensures rs[i] == Receipt(ids[i], msgIds[i]) { ZipAt(ids, msgIds, i); }
    forall id | id in rows && id !in ids ensures MarkSent(rows, rs)[id] == rows[id] { MarkSentAt(rows, rs, id); }
    forall i | 0 <= i < |ids| && ids[i] in rows && ids[i] !in ids[i + 1..]
      ensures MarkSent(rows, rs)[ids[i]] == rows[ids[i]].(status := Sent, providerMsgId := Some(msgIds[i]))
    {
      forall j | i < j < |rs| ensures rs[j].id != rs[i].id { assert ids[j] == ids[i + 1..][j - i - 1]; }
      LastReceiptIs(rs, i);
      MarkSentAt(rows, rs, ids[i]);
    }
  }

  predicate IsDue(r: Row, now: Time) {
    r.status == Scheduled && r.scheduledAt.Some? && r.scheduledAt.value <= now
  }

  function DueIds(rows: Table, now: Time): set<Id> {
    set id | id in rows && IsDue(rows[id], now)
  }

  function DueAt(rows: Table, id: Id): Time {
    if id in rows && rows[id].scheduledAt.Some? then rows[id].scheduledAt.value else 0
  }

  /** ORDER BY scheduled_at ASC LIMIT limit over the due rows. */
  ghost predicate IsPage(rows: Table, now: Time, limit: nat, ids: seq<Id>) {
    && (forall id :: id in ids ==> id in DueIds(rows, now))
    && (forall i, j :: 0 <= i < j < |ids| ==> ids[i] != ids[j] && DueAt(rows, ids[i]) <= DueAt(rows, ids[j]))
    && |ids| <= limit
    && (forall id :: id in DueIds(rows, now) && id !in ids ==>
          |ids| == limit && forall i :: 0 <= i < |ids| ==> DueAt(rows, ids[i]) <= DueAt(rows, id))
  }
}
