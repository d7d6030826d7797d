/** The two databases the pipeline writes, and the effect of each SQL statement and Redis command on them.
    A table is a map by primary key; a sorted set is a map from member to score. */
module Databases {
  import opened Domain
  import Float64

  type Table = map<Id, Row>
  type ZSet = map<Message, nat>

  /** One sorted set per channel: `queue:<ch>` or `processing:<ch>`. */
  type ZSets = z: map<Channel, ZSet> | forall ch: Channel :: ch in z
    witness map ch: Channel | true :: map[]

  const EMPTY_SETS: ZSets := map ch: Channel | true :: map[]

  /** The message of a row. */
  function MsgOf(rows: Table, id: Id): Message
    requires id in rows
  {
    Message(id, rows[id].channel, rows[id].priority, None)
  }

  datatype Store = Store(rows: Table, dead: seq<DeadLetter>, queue: ZSets, processing: ZSets, delayed: ZSet)

  // ---- notifications and dead_letters ----

  /** UPDATE ... SET status WHERE id: no guard on the old status. */
  function SetStatus(rows: Table, id: Id, st: Status): Table {
    if id in rows then rows[id := rows[id].(status := st)] else rows
  }

  /** UPDATE ... SET status, last_error, attempts WHERE id. */
  function SetFailure(rows: Table, id: Id, st: Status, err: string, attempts: nat): Table {
    if id in rows then rows[id := rows[id].(status := st, lastError := Some(err), attempts := attempts)] else rows
  }

  /** UPDATE ... SET status = 'sent', provider_msg_id WHERE id. */
  function SetSent(rows: Table, id: Id, msgId: string): Table {
    if id in rows then rows[id := rows[id].(status := Sent, providerMsgId := Some(msgId))] else rows
  }

  datatype Receipt = Receipt(id: Id, msgId: string)

  /** The batch of SetSent statements, in order. */
  function MarkSent(rows: Table, receipts: seq<Receipt>): Table {
    if receipts == [] then rows
    else MarkSent(SetSent(rows, receipts[0].id, receipts[0].msgId), receipts[1..])
  }

  /** The provider's id in the last receipt for id. */
  function LastReceipt(receipts: seq<Receipt>, id: Id): Option<string> {
    if receipts == [] then None
    else if receipts[|receipts| - 1].id == id then Some(receipts[|receipts| - 1].msgId)
    else LastReceipt(receipts[..|receipts| - 1], id)
  }

  /** UPDATE ... SET status = 'processing' WHERE id = ANY(ids) AND status IN ('pending', 'queued'). */
  function ClaimRows(rows: Table, ids: set<Id>): Table {
    map id | id in rows :: if id in ids && Claimable(rows[id].status) then rows[id].(status := Processing) else rows[id]
  }

  /** The ids that statement returns. */
  function Claimed(rows: Table, ids: set<Id>): set<Id> {
    set id | id in ids && id in rows && Claimable(rows[id].status)
  }

  /** It returns each of them once, in any order. */
  ghost predicate IsClaimOrder(rows: Table, ids: set<Id>, order: seq<Id>) {
    && (forall i, j :: 0 <= i < j < |order| ==> order[i] != order[j])
    && (forall id :: id in order <==> id in Claimed(rows, ids))
  }

  /** What the worker keeps of a returned row. */
  datatype Claim = Claim(id: Id, channel: Channel, attempts: nat, maxAttempts: nat)

  function ClaimOf(rows: Table, id: Id): Claim
    requires id in rows
  {
    Claim(id, rows[id].channel, rows[id].attempts, rows[id].maxAttempts)
  }

  /** UPDATE ... SET status = 'queued' WHERE id = ANY(ids). */
  function QueuedRows(rows: Table, ids: set<Id>): Table {
    map id | id in rows :: if id in ids then rows[id].(status := Queued) else rows[id]
  }

  // ---- sorted sets ----

  /** calculateScore; levelTimes1e12 is exact in binary64, the two conversions and the sum round. */
  const LEVEL_STEP: nat := 1_000_000_000_000

  function Score(m: Message, now: Time): nat {
    var ts := if m.scheduledAt.Some? then m.scheduledAt.value else now;
    Float64.F64(Level(m.priority) * LEVEL_STEP + Float64.F64(ts))
  }

  function Ids(ms: seq<Message>): set<Id> {
    set m | m in ms :: m.id
  }

  function Members(ms: seq<Message>): set<Message> {
    set m | m in ms
  }

  /** Producer.Enqueue: ZADD queue:<msg.Channel>. */
  function Enqueue(queue: ZSets, m: Message, now: Time): ZSets {
    var z: ZSet := queue[m.channel];
    queue[m.channel := z[m := Score(m, now)]]
  }

  /** Producer.EnqueueDelayed: ZADD retry:delayed. */
  function EnqueueDelayed(delayed: ZSet, m: Message, now: Time, delay: nat): ZSet {
    delayed[m := Float64.F64(now + delay)]
  }

  /** The pipeline of ZADDs to processing:<ch>, all with one deadline. */
  function AddAll(z: ZSet, ms: seq<Message>, score: nat): ZSet {
    z + map m | m in ms :: score
  }

  /** The processing sets once ms is marked under a deadline. */
  function Marked(processing: ZSets, ch: Channel, ms: seq<Message>, deadline: Time): ZSets {
    processing[ch := AddAll(processing[ch], ms, Float64.F64(deadline))]
  }

  /** Consumer.Ack: ZREM processing:<ch>. */
  function Ack(processing: ZSets, ch: Channel, ms: seq<Message>): ZSets {
    processing[ch := processing[ch] - Members(ms)]
  }

  /** Redis order: by score, then by member text, which starts with the id. */
  predicate Before(z: ZSet, a: Message, b: Message)
    requires a in z && b in z
  {
    z[a] < z[b] || (z[a] == z[b] && a.id < b.id)
  }

  ghost predicate IsMin(z: ZSet, m: Message) {
    m in z && forall o :: o in z ==> !Before(z, o, m)
  }

  /** ZPOPMIN may return `out`, in this order. */
  ghost predicate Pops(z: ZSet, out: seq<Message>) {
    out == [] || (IsMin(z, out[0]) && Pops(z - {out[0]}, out[1..]))
  }

  /** A member whose score has been reached by the clock reading `now` (ZRANGEBYSCORE -inf now). */
  predicate Due(z: ZSet, m: Message, now: Time) {
    m in z && z[m] <= Float64.F64(now)
  }

  // ---- how the statements touch rows ----

  /** Seen from the front: the first receipt counts only where no later one is for id. */
  lemma {:induction false} LastReceiptCons(rs: seq<Receipt>, id: Id)
    requires rs != []
    ensures LastReceipt(rs, id) ==
      if LastReceipt(rs[1..], id).Some? then LastReceipt(rs[1..], id)
      else if rs[0].id == id then Some(rs[0].msgId) else None
  {
    if |rs| > 1 && rs[|rs| - 1].id != id {
      assert rs[1..][..|rs| - 2] == rs[..|rs| - 1][1..];
      LastReceiptCons(rs[..|rs| - 1], id);
    }
  }

  /** The last one wins. */
  lemma {:induction false} LastReceiptIs(rs: seq<Receipt>, i: nat)
    requires i < |rs| && forall j :: i < j < |rs| ==> rs[j].id != rs[i].id
    ensures LastReceipt(rs, rs[i].id) == Some(rs[i].msgId)
  {
    if i < |rs| - 1 { LastReceiptIs(rs[..|rs| - 1], i); }
  }

  /** There is one exactly when some receipt is for id. */
  lemma {:induction false} LastReceiptExists(rs: seq<Receipt>, id: Id)
    ensures LastReceipt(rs, id).Some? <==> exists i :: 0 <= i < |rs| && rs[i].id == id
  {
    if rs != [] && rs[|rs| - 1].id != id {
      LastReceiptExists(rs[..|rs| - 1], id);
      if exists i :: 0 <= i < |rs| && rs[i].id == id {
        var i :| 0 <= i < |rs| && rs[i].id == id;
        assert rs[..|rs| - 1][i].id == id;
      }
    }
  }

  /** MarkSent marks exactly the rows that have a receipt, each with the provider's id of its last one. */
  lemma {:induction false} MarkSentAt(rows: Table, rs: seq<Receipt>, id: Id)
    ensures MarkSent(rows, rs).Keys == rows.Keys
    ensures id in rows ==>
      MarkSent(rows, rs)[id] ==
        if exists i :: 0 <= i < |rs| && rs[i].id == id
        then rows[id].(status := Sent, providerMsgId := LastReceipt(rs, id))
        else rows[id]
  {
    if rs != [] {
      MarkSentAt(SetSent(rows, rs[0].id, rs[0].msgId), rs[1..], id);
      LastReceiptCons(rs, id);
      LastReceiptExists(rs, id);
      LastReceiptExists(rs[1..], id);
    }
  }

  /** A message is popped before another, popped later or left, only if its score is lower, or equal and its id no
      higher. */
  lemma {:induction false} PopsInOrder(z: ZSet, out: seq<Message>, i: nat, o: Message)
    requires Pops(z, out) && i < |out| && o in z && o !in out[..i]
    ensures out[i] in z && (z[out[i]] < z[o] || (z[out[i]] == z[o] && out[i].id <= o.id))
    decreases |out|
  {
    if i > 0 {
      assert out[..i][0] == out[0];
      assert out[1..][..i - 1] == out[..i][1..];
      PopsInOrder(z - {out[0]}, out[1..], i - 1, o);
    }
  }

  /** Messages move to the processing set of their channel under the deadline; all others stay as they are. */
  lemma MarkedAt(p: ZSets, ch: Channel, ms: seq<Message>, deadline: Time, c: Channel, m: Message)
    ensures m in Marked(p, ch, ms, deadline)[c] <==> m in p[c] || (c == ch && m in ms)
    ensures c == ch && m in ms ==> Marked(p, ch, ms, deadline)[c][m] == Float64.F64(deadline)
    ensures m in p[c] && !(c == ch && m in ms) ==> Marked(p, ch, ms, deadline)[c][m] == p[c][m]
  {
  }

  lemma {:induction false} PopsDistinct(z: ZSet, out: seq<Message>)
    requires Pops(z, out)
    ensures forall i :: 0 <= i < |out| ==> out[i] in z
    ensures forall i, j :: 0 <= i < j < |out| ==> out[i] != out[j]
  {
    if out != [] {
      PopsDistinct(z - {out[0]}, out[1..]);
      forall i | 0 <= i < |out| ensures out[i] in z {
        if i > 0 { assert out[i] == out[1..][i - 1]; }
      }
      forall i, j | 0 <= i < j < |out| ensures out[i] != out[j] {
        assert out[j] == out[1..][j - 1];
        if i > 0 { assert out[i] == out[1..][i - 1]; }
      }
    }
  }
}
