/** The notification handler: validation, creation one at a time and in batches, cancellation. */
module Api {
  import opened Domain
  import opened Databases
  import opened Pipeline
  import opened Postgres
  import opened RedisQueue
  import opened SchedulerRun

  /** A create request; content is what the template renders to, where there is one; key is its idempotency key. */
  datatype Request = Request(recipient: string, channel: string, priority: string, content: string,
                             scheduledAt: Option<Time>, key: Option<string>)

  datatype Error =
    | InvalidRecipient | InvalidChannel | InvalidPriority | InvalidContent
    | BatchTooLarge | EmptyBatch | DuplicateKey | Internal | NotFound | NotCancellable

  /** Which calls of a create fail, and how many ZADDs of a failing pipeline took effect. */
  datatype Faults = Faults(insert: bool, enqueue: bool, status: bool, applied: nat)

  datatype Result<+T> = Ok(value: T) | Err(error: Error)

  const MAX_BATCH: nat := 1000

  function ParseChannel(s: string): Option<Channel> {
    if s == "sms" then Some(SMS) else if s == "email" then Some(Email) else if s == "push" then Some(Push) else None
  }

  /** No priority means normal. */
  function ParsePriority(s: string): Option<Priority> {
    if s == "" || s == "normal" then Some(Normal) else if s == "high" then Some(High) else if s == "low" then Some(Low) else None
  }

  /** buildNotification: the first complaint wins. */
  function Build(req: Request): Result<Row> {
    if req.recipient == "" then Err(InvalidRecipient)
    else if ParseChannel(req.channel).None? then Err(InvalidChannel)
    else if ParsePriority(req.priority).None? then Err(InvalidPriority)
    else if req.content == "" then Err(InvalidContent)
    else Ok(NewRow(ParseChannel(req.channel).value, ParsePriority(req.priority).value,
                   if req.scheduledAt.Some? then Scheduled else Pending, req.scheduledAt))
  }

  predicate IsValid(req: Request) {
    && req.recipient != "" && req.channel in {"sms", "email", "push"} && req.priority in {"", "high", "normal", "low"}
    && req.content != ""
  }

  /** The row a request asks for. */
  predicate Asks(req: Request, row: Row) {
    && (row.channel == SMS <==> req.channel == "sms") && (row.channel == Email <==> req.channel == "email")
    && (row.channel == Push <==> req.channel == "push")
    && (row.priority == High <==> req.priority == "high") && (row.priority == Low <==> req.priority == "low")
    && (row.priority == Normal <==> req.priority == "normal" || req.priority == "")
    && row.status == (if req.scheduledAt.Some? then Scheduled else Pending) && row.scheduledAt == req.scheduledAt
    && row.attempts == 0 && row.maxAttempts == 5 && row.lastError == None && row.providerMsgId == None
  }

  /** The first fault is named, a valid request gets its row. */
  lemma BuildIs(req: Request)
    ensures var r := Build(req);
      var channel := req.channel in {"sms", "email", "push"}; var priority := req.priority in {"", "high", "normal", "low"};
      && (r == Err(InvalidRecipient) <==> req.recipient == "")
      && (r == Err(InvalidChannel) <==> req.recipient != "" && !channel)
      && (r == Err(InvalidPriority) <==> req.recipient != "" && channel && !priority)
      && (r == Err(InvalidContent) <==> req.recipient != "" && channel && priority && req.content == "")
      && (r.Err? ==> r.error in {InvalidRecipient, InvalidChannel, InvalidPriority, InvalidContent})
      && (r.Ok? <==> IsValid(req)) && (r.Ok? ==> Asks(req, r.value))
  {
  }

  function MessageFor(id: Id, row: Row): Message {
    Message(id, row.channel, row.priority, row.scheduledAt)
  }

  /** One create: a scheduled row is left to the scheduler, any other is queued. */
  function CreatedRow(rows: Table, id: Id, row: Row): Table {
    rows[id := if row.status == Scheduled then row else row.(status := Queued)]
  }

  function CreatedQueue(queue: ZSets, id: Id, row: Row, now: Time): ZSets {
    if row.status == Scheduled then queue else Enqueue(queue, MessageFor(id, row), now)
  }

  /** Creates one after the other. */
  function CreatedRows(rows: Table, ids: seq<Id>, built: seq<Row>): Table
    requires |ids| == |built|
  {
    if ids == [] then rows
    else
      var n := |ids| - 1;
      CreatedRow(CreatedRows(rows, ids[..n], built[..n]), ids[n], built[n])
  }

  function CreatedQueues(queue: ZSets, ids: seq<Id>, built: seq<Row>, now: Time): ZSets
    requires |ids| == |built|
  {
    if ids == [] then queue
    else
      var n := |ids| - 1;
      CreatedQueue(CreatedQueues(queue, ids[..n], built[..n], now), ids[n], built[n], now)
  }

  // ---- idempotency keys ----

  predicate IsTaken(keys: set<string>, key: Option<string>) {
    key.Some? && key.value in keys
  }

  function WithKey(keys: set<string>, key: Option<string>): set<string> {
    if key.Some? then keys + {key.value} else keys
  }

  /** The keys after inserting reqs in turn. */
  function WithKeys(keys: set<string>, reqs: seq<Request>): set<string> {
    keys + set i | 0 <= i < |reqs| && reqs[i].key.Some? :: reqs[i].key.value
  }

  /** No key of the batch is in the index, and no two are the same. */
  ghost predicate KeysFree(keys: set<string>, reqs: seq<Request>) {
    && (forall i :: 0 <= i < |reqs| ==> !IsTaken(keys, reqs[i].key))
    && (forall i, j :: 0 <= i < j < |reqs| && reqs[i].key.Some? ==> reqs[i].key != reqs[j].key)
  }

  /** One insert after the other: the next is refused exactly when its key is taken by then. */
  lemma KeysFreeNext(keys: set<string>, reqs: seq<Request>, i: nat)
    requires i < |reqs|
    ensures KeysFree(keys, reqs[..i + 1]) <==> KeysFree(keys, reqs[..i]) && !IsTaken(WithKeys(keys, reqs[..i]), reqs[i].key)
    ensures WithKeys(keys, reqs[..i + 1]) == WithKey(WithKeys(keys, reqs[..i]), reqs[i].key)
  {
  }

  lemma KeysFreePrefix(keys: set<string>, reqs: seq<Request>, i: nat)
    requires KeysFree(keys, reqs) && i <= |reqs|
    ensures KeysFree(keys, reqs[..i])
  {
  }

  /** uuid.New: distinct, and nobody has them. */
  ghost predicate NewIds(rows: Table, ids: seq<Id>) {
    && (forall i :: 0 <= i < |ids| ==> ids[i] !in rows)
    && (forall i, j :: 0 <= i < j < |ids| ==> ids[i] != ids[j])
  }

  /** Every request is valid, and these are their rows. */
  ghost predicate AllBuilt(reqs: seq<Request>, built: seq<Row>) {
    |built| == |reqs| && forall i :: 0 <= i < |reqs| ==> Build(reqs[i]) == Ok(built[i])
  }

  /** The first invalid request is answered with e. */
  ghost predicate FirstError(reqs: seq<Request>, e: Error) {
    exists i :: 0 <= i < |reqs| && Build(reqs[i]) == Err(e) && forall j :: 0 <= j < i ==> Build(reqs[j]).Ok?
  }

  /** What that request lacks, and no earlier one. */
  lemma FirstErrorIs(reqs: seq<Request>, e: Error) returns (i: nat)
    requires FirstError(reqs, e)
    ensures i < |reqs| && forall j :: 0 <= j < i ==> IsValid(reqs[j])
    ensures var req := reqs[i];
      var channel := req.channel in {"sms", "email", "push"}; var priority := req.priority in {"", "high", "normal", "low"};
      || (e == InvalidRecipient && req.recipient == "")
      || (e == InvalidChannel && req.recipient != "" && !channel)
      || (e == InvalidPriority && req.recipient != "" && channel && !priority)
      || (e == InvalidContent && req.recipient != "" && channel && priority && req.content == "")
  {
    i :| 0 <= i < |reqs| && Build(reqs[i]) == Err(e) && forall j :: 0 <= j < i ==> Build(reqs[j]).Ok?;
    BuildIs(reqs[i]);
    forall j | 0 <= j < i ensures IsValid(reqs[j]) { BuildIs(reqs[j]); }
  }

  class Handler {
    const repo: Repository
    const redis: Redis

    constructor (repo: Repository, redis: Redis)
      ensures this.repo == repo && this.redis == redis
    {
      this.repo, this.redis := repo, redis;
    }

    /** The first fault is the answer, and changes nothing. A valid request becomes a row with its channel, priority and
        time, which is inserted with its key and, unless it has a time, queued; a failing enqueue or status write is only
        logged. */
    method Create(id: Id, req: Request, now: Time, fails: Faults) returns (r: Result<Row>)
      requires id !in repo.rows
      modifies repo`rows, repo`keys, redis`queue
      ensures r == Err(InvalidRecipient) <==> req.recipient == ""
      ensures r == Err(InvalidChannel) <==> req.recipient != "" && req.channel !in {"sms", "email", "push"}
      ensures r == Err(InvalidPriority) <==>
        req.recipient != "" && req.channel in {"sms", "email", "push"} && req.priority !in {"", "high", "normal", "low"}
      ensures r == Err(InvalidContent) <==>
        && req.recipient != "" && req.channel in {"sms", "email", "push"} && req.priority in {"", "high", "normal", "low"}
        && req.content == ""
      ensures r == Err(Internal) ==> fails.insert
      ensures r == Err(DuplicateKey) ==> !fails.insert && req.key.Some? && req.key.value in old(repo.keys)
      ensures r.Err? ==> r.error in {InvalidRecipient, InvalidChannel, InvalidPriority, InvalidContent, Internal, DuplicateKey}
      ensures r.Err? ==> repo.rows == old(repo.rows) && repo.keys == old(repo.keys) && redis.queue == old(redis.queue)
      ensures r.Ok? ==> !fails.insert && !(req.key.Some? && req.key.value in old(repo.keys))
      ensures r.Ok? ==>
        && (r.value.channel == SMS <==> req.channel == "sms") && (r.value.channel == Email <==> req.channel == "email")
        && (r.value.channel == Push <==> req.channel == "push")
        && (r.value.priority == High <==> req.priority == "high") && (r.value.priority == Low <==> req.priority == "low")
        && (r.value.priority == Normal <==> req.priority == "normal" || req.priority == "")
        && r.value.status == (if req.scheduledAt.Some? then Scheduled else Pending) && r.value.scheduledAt == req.scheduledAt
        && r.value.attempts == 0 && r.value.maxAttempts == 5 && r.value.lastError == None && r.value.providerMsgId == None
      ensures r.Ok? ==>
        && repo.keys == old(repo.keys) + (if req.key.Some? then {req.key.value} else {})
        && repo.rows == old(repo.rows)[id :=
             if req.scheduledAt.Some? || fails.enqueue || fails.status then r.value else r.value.(status := Queued)]
        && redis.queue == (if req.scheduledAt.Some? || fails.enqueue then old(redis.queue)
                           else Enqueue(old(redis.queue), Message(id, r.value.channel, r.value.priority, None), now))
    {
      BuildIs(req);
      r := Build(req);
      if r.Err? { return; }
      if fails.insert { return Err(Internal); }
      if IsTaken(repo.keys, req.key) { return Err(DuplicateKey); }
      repo.rows, repo.keys := repo.rows[id := r.value], WithKey(repo.keys, req.key);
      if r.value.status != Scheduled && !fails.enqueue {
        redis.Enqueue(MessageFor(id, r.value), now);
        if !fails.status { repo.UpdateStatus(id, Queued); }
      }
    }

    /** All or nothing, and then exactly what creating them one after the other does; of a failing pipeline some of the
        first messages are enqueued, and no status is written. built is the rows of the requests. */
    method BatchCreate(ids: seq<Id>, reqs: seq<Request>, now: Time, fails: Faults) returns (r: Result<nat>, ghost built: seq<Row>)
      requires |ids| == |reqs| && NewIds(repo.rows, ids)
      modifies repo`rows, repo`keys, redis`queue
      ensures r.Err? ==> repo.rows == old(repo.rows) && repo.keys == old(repo.keys) && redis.queue == old(redis.queue)
      ensures r == Err(BatchTooLarge) <==> |reqs| > 1000
      ensures r == Err(EmptyBatch) <==> |reqs| == 0
      ensures r == Err(DuplicateKey) ==> AllBuilt(reqs, built) && !KeysFree(old(repo.keys), reqs)
      ensures r == Err(Internal) ==> AllBuilt(reqs, built) && fails.insert
      ensures r.Err? && 0 < |reqs| <= 1000 && r.error != DuplicateKey && r.error != Internal ==> FirstError(reqs, r.error)
      ensures r.Ok? <==>
        && 0 < |reqs| <= 1000 && (forall i :: 0 <= i < |reqs| ==> IsValid(reqs[i])) && !fails.insert
        && (forall i :: 0 <= i < |reqs| && reqs[i].key.Some? ==> reqs[i].key.value !in old(repo.keys))
        && (forall i, j :: 0 <= i < j < |reqs| && reqs[i].key.Some? ==> reqs[i].key != reqs[j].key)
      ensures r.Ok? ==> r.value == |reqs| == |built| && forall i :: 0 <= i < |reqs| ==> Asks(reqs[i], built[i])
      ensures r.Ok? ==> repo.rows.Keys == old(repo.rows).Keys + IdSet(ids)
      ensures r.Ok? ==> forall id :: id in old(repo.rows) ==> repo.rows[id] == old(repo.rows)[id]
      ensures r.Ok? ==> forall i :: 0 <= i < |ids| ==>
        repo.rows[ids[i]] ==
          if reqs[i].scheduledAt.Some? || fails.enqueue || fails.status then built[i] else built[i].(status := Queued)
      ensures r.Ok? ==>
        && AllBuilt(reqs, built)
        && repo.rows == (if fails.enqueue || fails.status then Inserted(old(repo.rows), ids, built) else CreatedRows(old(repo.rows), ids, built))
        && repo.keys == WithKeys(old(repo.keys), reqs)
        && if fails.enqueue then EnqueuedSome(old(redis.queue), redis.queue, ids, built, now)
           else redis.queue == CreatedQueues(old(redis.queue), ids, built, now)
    {
      built := [];
      if |reqs| > MAX_BATCH { return Err(BatchTooLarge), []; }
      if |reqs| == 0 { return Err(EmptyBatch), []; }
      var all := BuildAll(reqs);
      if all.Err? { return Err(all.error), []; }
      var rows := all.value;
      built := rows;
      if fails.insert { return Err(Internal), rows; }
      var inserted := InsertAll(ids, rows, reqs);
      if !inserted { return Err(DuplicateKey), rows; }
      BatchEnqueue(ids, rows, now, fails);
      BatchIsEach(old(repo.rows), ids, rows);
      BatchRows(old(repo.rows), reqs, ids, rows);
      r := Ok(|reqs|);
    }

    /** The first invalid request refuses the batch. */
    method BuildAll(reqs: seq<Request>) returns (r: Result<seq<Row>>)
      ensures r.Ok? ==> AllBuilt(reqs, r.value) && forall i :: 0 <= i < |reqs| ==> IsValid(reqs[i]) && Asks(reqs[i], r.value[i])
      ensures r.Err? ==> FirstError(reqs, r.error) && r.error in {InvalidRecipient, InvalidChannel, InvalidPriority, InvalidContent}
      ensures r.Err? ==> exists i :: 0 <= i < |reqs| && !IsValid(reqs[i])
    {
      var rows := [];
      for i := 0 to |reqs|
        invariant |rows| == i && forall j :: 0 <= j < i ==> Build(reqs[j]) == Ok(rows[j])
        invariant forall j :: 0 <= j < i ==> IsValid(reqs[j]) && Asks(reqs[j], rows[j])
      {
        BuildIs(reqs[i]);
        var b := Build(reqs[i]);
        if b.Err? { return Err(b.error); }
        rows := rows + [b.value];
      }
      r := Ok(rows);
    }

    /** CreateBatch of the repository: the inserts of one batch are one transaction. */
    method InsertAll(ids: seq<Id>, rows: seq<Row>, reqs: seq<Request>) returns (ok: bool)
      requires |ids| == |rows| == |reqs|
      modifies repo`rows, repo`keys
      ensures ok == KeysFree(old(repo.keys), reqs)
      ensures repo.rows == if ok then Inserted(old(repo.rows), ids, rows) else old(repo.rows)
      ensures repo.keys == if ok then WithKeys(old(repo.keys), reqs) else old(repo.keys)
    {
      var rows0, keys0 := repo.rows, repo.keys;
      for i := 0 to |ids|
        invariant repo.rows == Inserted(rows0, ids[..i], rows[..i])
        invariant KeysFree(keys0, reqs[..i]) && repo.keys == WithKeys(keys0, reqs[..i])
      {
        assert ids[..i + 1][..i] == ids[..i] && rows[..i + 1][..i] == rows[..i];
        KeysFreeNext(keys0, reqs, i);
        if IsTaken(repo.keys, reqs[i].key) {
          if KeysFree(keys0, reqs) { KeysFreePrefix(keys0, reqs, i + 1); }
          repo.rows, repo.keys := rows0, keys0;
          return false;
        }
        repo.rows, repo.keys := repo.rows[ids[i] := rows[i]], WithKey(repo.keys, reqs[i].key);
      }
      assert ids[..|ids|] == ids && rows[..|rows|] == rows && reqs[..|reqs|] == reqs;
      return true;
    }

    /** One pipeline of ZADDs and one status update for the rows that are not scheduled. */
    method BatchEnqueue(ids: seq<Id>, rows: seq<Row>, now: Time, fails: Faults)
      requires |ids| == |rows|
      modifies repo`rows, redis`queue
      ensures if fails.enqueue then EnqueuedSome(old(redis.queue), redis.queue, ids, rows, now)
              else redis.queue == CreatedQueues(old(redis.queue), ids, rows, now)
      ensures repo.rows == if fails.enqueue || fails.status then old(repo.rows) else QueuedRows(old(repo.rows), Unscheduled(ids, rows))
    {
      var msgs, toUpdate := Collect(ids, rows, redis.queue, now);
      SomeEnqueued(redis.queue, ids, rows, if fails.applied < |msgs| then fails.applied else |msgs|, now);
      if |msgs| == 0 {
        NobodyQueued(repo.rows, ids, rows, msgs, toUpdate, redis.queue, now);
      } else if fails.enqueue {
        EnqueueBatch(if fails.applied < |msgs| then msgs[..fails.applied] else msgs, now);
        assert msgs[..|msgs|] == msgs;
      } else {
        EnqueueBatch(msgs, now);
        if !fails.status { UpdateBatchStatus(toUpdate); }
      }
    }

    method Collect(ids: seq<Id>, rows: seq<Row>, ghost q: ZSets, ghost now: Time)
      returns (msgs: seq<Message>, toUpdate: seq<Id>)
      requires |ids| == |rows|
      ensures Collected(q, ids, rows, msgs, toUpdate, now)
    {
      msgs, toUpdate := [], [];
      for i := 0 to |ids|
        invariant Collected(q, ids[..i], rows[..i], msgs, toUpdate, now)
      {
        CollectNext(q, ids, rows, i, msgs, toUpdate, now);
        if rows[i].status != Scheduled {
          msgs, toUpdate := msgs + [MessageFor(ids[i], rows[i])], toUpdate + [ids[i]];
        }
      }
      assert ids[..|ids|] == ids && rows[..|rows|] == rows;
    }

    method EnqueueBatch(msgs: seq<Message>, now: Time)
      modifies redis`queue
      ensures redis.queue == EnqueueEach(old(redis.queue), msgs, now)
    {
      for i := 0 to |msgs|
        invariant redis.queue == EnqueueEach(old(redis.queue), msgs[..i], now)
      {
        assert msgs[..i + 1][..i] == msgs[..i];
        redis.Enqueue(msgs[i], now);
      }
      assert msgs[..|msgs|] == msgs;
    }

    /** UPDATE ... SET status = 'queued' WHERE id = ANY(ids). */
    method UpdateBatchStatus(ids: seq<Id>)
      modifies repo`rows
      ensures repo.rows == QueuedRows(old(repo.rows), IdSet(ids))
    {
      repo.rows := map id | id in repo.rows :: if id in ids then repo.rows[id].(status := Queued) else repo.rows[id];
    }

    /** Reads, then writes without a guard. */
    method Cancel(id: Id) returns (r: Result<Row>)
      modifies repo`rows
      ensures r == if id !in old(repo.rows) then Err(NotFound)
                   else if old(repo.rows)[id].status !in {Pending, Scheduled, Queued} then Err(NotCancellable)
                   else Ok(old(repo.rows)[id].(status := Cancelled))
      ensures repo.rows == if r.Ok? then old(repo.rows)[id := r.value] else old(repo.rows)
    {
      if id !in repo.rows { return Err(NotFound); }
      var n := repo.rows[id];
      match n.status {
        case Pending | Scheduled | Queued =>
          repo.UpdateStatus(id, Cancelled);
          r := Ok(n.(status := Cancelled));
        case _ =>
          r := Err(NotCancellable);
      }
    }
  }

  function Inserted(rows: Table, ids: seq<Id>, built: seq<Row>): Table
    requires |ids| == |built|
  {
    if ids == [] then rows
    else
      var n := |ids| - 1;
      Inserted(rows, ids[..n], built[..n])[ids[n] := built[n]]
  }

  function Unscheduled(ids: seq<Id>, built: seq<Row>): set<Id>
    requires |ids| == |built|
  {
    set i | 0 <= i < |ids| && built[i].status != Scheduled :: ids[i]
  }

  function EnqueueEach(queue: ZSets, msgs: seq<Message>, now: Time): ZSets {
    if msgs == [] then queue else Enqueue(EnqueueEach(queue, msgs[..|msgs| - 1], now), msgs[|msgs| - 1], now)
  }

  /** The messages of the rows that are not scheduled. */
  function MessagesFor(ids: seq<Id>, built: seq<Row>): seq<Message>
    requires |ids| == |built|
  {
    if ids == [] then []
    else
      var n := |ids| - 1;
      var front := MessagesFor(ids[..n], built[..n]);
      if built[n].status == Scheduled then front else front + [MessageFor(ids[n], built[n])]
  }

  /** The messages of the first so many rows are enqueued. */
  ghost predicate EnqueuedSome(q: ZSets, q': ZSets, ids: seq<Id>, built: seq<Row>, now: Time)
    requires |ids| == |built|
  {
    exists j :: 0 <= j <= |ids| && q' == CreatedQueues(q, ids[..j], built[..j], now)
  }

  lemma {:induction false} AllEnqueued(q: ZSets, ids: seq<Id>, built: seq<Row>, now: Time)
    requires |ids| == |built|
    ensures EnqueueEach(q, MessagesFor(ids, built), now) == CreatedQueues(q, ids, built, now)
    decreases |ids|
  {
    if ids != [] {
      var n := |ids| - 1;
      AllEnqueued(q, ids[..n], built[..n], now);
      if built[n].status != Scheduled {
        EnqueuedNext(q, MessagesFor(ids[..n], built[..n]), MessageFor(ids[n], built[n]), now);
      }
    }
  }

  lemma EnqueuedNext(q: ZSets, msgs: seq<Message>, m: Message, now: Time)
    ensures EnqueueEach(q, msgs + [m], now) == Enqueue(EnqueueEach(q, msgs, now), m, now)
  {
    assert (msgs + [m])[..|msgs|] == msgs;
  }

  lemma {:induction false} SomeEnqueued(q: ZSets, ids: seq<Id>, built: seq<Row>, k: nat, now: Time)
    requires |ids| == |built| && k <= |MessagesFor(ids, built)|
    ensures EnqueuedSome(q, EnqueueEach(q, MessagesFor(ids, built)[..k], now), ids, built, now)
    decreases |ids|
  {
    var all := MessagesFor(ids, built);
    if k == |all| {
      assert all[..k] == all && ids[..|ids|] == ids && built[..|built|] == built;
      AllEnqueued(q, ids, built, now);
    } else {
      var n := |ids| - 1;
      var front := MessagesFor(ids[..n], built[..n]);
      SomeEnqueued(q, ids[..n], built[..n], k, now);
      assert all[..k] == front[..k];
      var j :| 0 <= j <= n && EnqueueEach(q, front[..k], now) == CreatedQueues(q, ids[..n][..j], built[..n][..j], now);
      assert ids[..n][..j] == ids[..j] && built[..n][..j] == built[..j];
    }
  }

  /** The message of some unscheduled row on ch. */
  predicate IsPut(ids: seq<Id>, built: seq<Row>, ch: Channel, m: Message)
    requires |ids| == |built|
  {
    exists i :: 0 <= i < |ids| && built[i].status != Scheduled && built[i].channel == ch
      && m == Message(ids[i], ch, built[i].priority, built[i].scheduledAt)
  }

  lemma PutNext(ids: seq<Id>, built: seq<Row>, ch: Channel, m: Message)
    requires |ids| == |built| > 0
    ensures var n := |ids| - 1;
      IsPut(ids, built, ch, m) <==>
        || IsPut(ids[..n], built[..n], ch, m)
        || (built[n].status != Scheduled && built[n].channel == ch && m == MessageFor(ids[n], built[n]))
  {
    var n := |ids| - 1;
    if built[n].status != Scheduled && built[n].channel == ch && m == MessageFor(ids[n], built[n]) {
      assert m == Message(ids[n], ch, built[n].priority, built[n].scheduledAt);
    } else if IsPut(ids[..n], built[..n], ch, m) {
      var i :| 0 <= i < n && built[..n][i].status != Scheduled && built[..n][i].channel == ch
        && m == Message(ids[..n][i], ch, built[..n][i].priority, built[..n][i].scheduledAt);
      assert built[i].channel == ch && m == Message(ids[i], ch, built[i].priority, built[i].scheduledAt);
    }
  }

  lemma CreatedQueueAt(q: ZSets, id: Id, row: Row, now: Time, ch: Channel, m: Message)
    ensures var q' := CreatedQueue(q, id, row, now); var put := row.status != Scheduled && row.channel == ch && m == MessageFor(id, row);
      && (m in q'[ch] <==> m in q[ch] || put)
      && (m in q'[ch] ==> q'[ch][m] == if put then Score(m, now) else q[ch][m])
  {
  }

  /** The queues after a batch: each unscheduled row's message is in the queue of its channel at the score of now, and
      all other messages are as before. */
  lemma {:induction false} CreatedQueuesAt(q: ZSets, ids: seq<Id>, built: seq<Row>, now: Time, ch: Channel, m: Message)
    requires |ids| == |built|
    ensures var q' := CreatedQueues(q, ids, built, now);
      && (m in q'[ch] <==> m in q[ch] || IsPut(ids, built, ch, m))
      && (m in q'[ch] ==> q'[ch][m] == if IsPut(ids, built, ch, m) then Score(m, now) else q[ch][m])
    decreases |ids|
  {
    if ids != [] {
      var n := |ids| - 1;
      CreatedQueuesAt(q, ids[..n], built[..n], now, ch, m);
      CreatedQueueAt(CreatedQueues(q, ids[..n], built[..n], now), ids[n], built[n], now, ch, m);
      PutNext(ids, built, ch, m);
    }
  }

  lemma UnscheduledNext(ids: seq<Id>, built: seq<Row>, i: nat)
    requires |ids| == |built| && i < |ids|
    ensures Unscheduled(ids[..i + 1], built[..i + 1]) ==
      Unscheduled(ids[..i], built[..i]) + if built[i].status != Scheduled then {ids[i]} else {}
  {
  }

  /** The messages and ids of the unscheduled rows so far. */
  ghost predicate Collected(q: ZSets, ids: seq<Id>, rows: seq<Row>, msgs: seq<Message>, toUpdate: seq<Id>, now: Time) {
    && |ids| == |rows| && |toUpdate| == |msgs|
    && msgs == MessagesFor(ids, rows) && EnqueueEach(q, msgs, now) == CreatedQueues(q, ids, rows, now)
    && IdSet(toUpdate) == Unscheduled(ids, rows)
  }

  lemma CollectNext(q: ZSets, ids: seq<Id>, rows: seq<Row>, i: nat, msgs: seq<Message>, toUpdate: seq<Id>, now: Time)
    requires |ids| == |rows| && i < |ids| && Collected(q, ids[..i], rows[..i], msgs, toUpdate, now)
    ensures if rows[i].status == Scheduled then Collected(q, ids[..i + 1], rows[..i + 1], msgs, toUpdate, now)
            else Collected(q, ids[..i + 1], rows[..i + 1], msgs + [MessageFor(ids[i], rows[i])], toUpdate + [ids[i]], now)
  {
    assert ids[..i + 1][..i] == ids[..i] && rows[..i + 1][..i] == rows[..i];
    UnscheduledNext(ids, rows, i);
    var m := MessageFor(ids[i], rows[i]);
    assert (msgs + [m])[..|msgs|] == msgs;
    assert IdSet(toUpdate + [ids[i]]) == IdSet(toUpdate) + {ids[i]};
  }

  lemma NobodyQueued(rows: Table, ids: seq<Id>, built: seq<Row>, msgs: seq<Message>, toUpdate: seq<Id>, queue: ZSets, now: Time)
    requires Collected(queue, ids, built, msgs, toUpdate, now) && msgs == []
    ensures QueuedRows(rows, Unscheduled(ids, built)) == rows && CreatedQueues(queue, ids, built, now) == queue
  {
    assert Unscheduled(ids, built) == {};
  }

  lemma OneMoreRow(rows: Table, queued: set<Id>, id: Id, row: Row)
    requires id !in queued
    ensures QueuedRows(rows[id := row], queued + if row.status != Scheduled then {id} else {}) ==
      CreatedRow(QueuedRows(rows, queued), id, row)
  {
  }

  /** Inserting all rows and then queueing the unscheduled is creating them one by one. */
  lemma {:induction false} BatchIsEach(rows: Table, ids: seq<Id>, built: seq<Row>)
    requires |ids| == |built| && forall i, j :: 0 <= i < j < |ids| ==> ids[i] != ids[j]
    ensures QueuedRows(Inserted(rows, ids, built), Unscheduled(ids, built)) == CreatedRows(rows, ids, built)
    decreases |ids|
  {
    if ids == [] {
      assert Unscheduled(ids, built) == {};
    } else {
      var n := |ids| - 1;
      BatchIsEach(rows, ids[..n], built[..n]);
      UnscheduledNext(ids, built, n);
      assert ids[..n + 1] == ids && built[..n + 1] == built;
      assert ids[n] !in Unscheduled(ids[..n], built[..n]);
      OneMoreRow(Inserted(rows, ids[..n], built[..n]), Unscheduled(ids[..n], built[..n]), ids[n], built[n]);
    }
  }

  lemma {:induction false} InsertedKeys(rows: Table, ids: seq<Id>, built: seq<Row>)
    requires |ids| == |built|
    ensures Inserted(rows, ids, built).Keys == rows.Keys + IdSet(ids)
    decreases |ids|
  {
    if ids != [] {
      var n := |ids| - 1;
      InsertedKeys(rows, ids[..n], built[..n]);
      assert ids == ids[..n] + [ids[n]];
      assert IdSet(ids) == IdSet(ids[..n]) + {ids[n]};
    } else {
      assert IdSet(ids) == {};
    }
  }

  lemma {:induction false} InsertedKeeps(rows: Table, ids: seq<Id>, built: seq<Row>, id: Id)
    requires |ids| == |built| && id in rows && id !in ids
    ensures id in Inserted(rows, ids, built) && Inserted(rows, ids, built)[id] == rows[id]
    decreases |ids|
  {
    if ids != [] { InsertedKeeps(rows, ids[..|ids| - 1], built[..|ids| - 1], id); }
  }

  lemma {:induction false} InsertedAt(rows: Table, ids: seq<Id>, built: seq<Row>, i: nat)
    requires |ids| == |built| && i < |ids| && forall j :: i < j < |ids| ==> ids[j] != ids[i]
    ensures ids[i] in Inserted(rows, ids, built) && Inserted(rows, ids, built)[ids[i]] == built[i]
    decreases |ids|
  {
    if i < |ids| - 1 { InsertedAt(rows, ids[..|ids| - 1], built[..|ids| - 1], i); }
  }

  lemma UnscheduledAre(rows: Table, reqs: seq<Request>, ids: seq<Id>, built: seq<Row>)
    requires |ids| == |built| == |reqs| && NewIds(rows, ids) && forall i :: 0 <= i < |reqs| ==> Asks(reqs[i], built[i])
    ensures forall id :: id in rows ==> id !in Unscheduled(ids, built)
    ensures forall i :: 0 <= i < |ids| ==> (ids[i] in Unscheduled(ids, built) <==> reqs[i].scheduledAt.None?)
  {
    forall i | 0 <= i < |ids| ensures ids[i] in Unscheduled(ids, built) <==> reqs[i].scheduledAt.None? { assert Asks(reqs[i], built[i]); }
  }

  /** The rows of a batch, inserted and queued. */
  lemma BatchRows(rows: Table, reqs: seq<Request>, ids: seq<Id>, built: seq<Row>)
    requires |ids| == |built| == |reqs| && NewIds(rows, ids) && forall i :: 0 <= i < |reqs| ==> Asks(reqs[i], built[i])
    ensures var a := Inserted(rows, ids, built); var b := QueuedRows(a, Unscheduled(ids, built));
      && a.Keys == b.Keys == rows.Keys + IdSet(ids) && (forall id :: id in rows ==> a[id] == b[id] == rows[id])
      && forall i :: 0 <= i < |ids| ==>
           a[ids[i]] == built[i] && b[ids[i]] == if reqs[i].scheduledAt.Some? then built[i] else built[i].(status := Queued)
  {
    var a := Inserted(rows, ids, built);
    InsertedKeys(rows, ids, built);
    UnscheduledAre(rows, reqs, ids, built);
    forall id | id in rows ensures a[id] == rows[id] { InsertedKeeps(rows, ids, built, id); }
    forall i | 0 <= i < |ids| ensures ids[i] in a && a[ids[i]] == built[i] { InsertedAt(rows, ids, built, i); }
  }

  // ---- the handler and the transition system ----

  function AfterCreates(s: State, ids: seq<Id>, built: seq<Row>): State
    requires |ids| == |built|
  {
    s.(st := s.st.(rows := CreatedRows(s.st.rows, ids, built), queue := CreatedQueues(s.st.queue, ids, built, s.now)))
  }

  /** Rows as buildNotification makes them. */
  ghost predicate IsBuilt(row: Row) {
    exists req: Request :: Build(req) == Ok(row)
  }

  lemma CreateReaches(s: State, id: Id, row: Row)
    requires id !in s.st.rows && IsBuilt(row)
    ensures Reaches(s, s.(st := s.st.(rows := CreatedRow(s.st.rows, id, row), queue := CreatedQueue(s.st.queue, id, row, s.now))))
  {
    if row.status == Scheduled {
      var a := CreateScheduled(id, row.channel, row.priority, row.scheduledAt.value);
      ReachesStep(s, a, DoInsert(s, id, row));
    } else {
      QueuedReaches(s, id, row);
    }
  }

  /** A create whose enqueue fails leaves the row, and nobody enqueues it. */
  lemma UnqueuedReaches(s: State, id: Id, row: Row)
    requires id !in s.st.rows && IsBuilt(row)
    ensures Reaches(s, DoInsert(s, id, row))
  {
    var a := if row.status == Scheduled then CreateScheduled(id, row.channel, row.priority, row.scheduledAt.value)
             else CreateUnqueued(id, row.channel, row.priority);
    ReachesStep(s, a, DoInsert(s, id, row));
  }

  lemma QueuedReaches(s: State, id: Id, row: Row)
    requires id !in s.st.rows && IsBuilt(row) && row.status != Scheduled
    ensures Reaches(s, s.(st := s.st.(rows := CreatedRow(s.st.rows, id, row), queue := CreatedQueue(s.st.queue, id, row, s.now))))
  {
    var a := Create(id, row.channel, row.priority);
    ReachesStep(s, a, DoCreate(s, id, row.channel, row.priority));
    assert SetStatus(s.st.rows[id := NewRow(row.channel, row.priority, Pending, None)], id, Queued) == CreatedRow(s.st.rows, id, row);
  }

  /** A cancel that nobody comes between is one step: it is enabled exactly where the handler accepts the status, and
      writes what the handler writes. */
  lemma CancelIsAStep(s: State, id: Id)
    ensures Enabled(s, CancelNow(id)) <==> id in s.st.rows && s.st.rows[id].status in {Pending, Scheduled, Queued}
    ensures Enabled(s, CancelRead(id)) <==> Enabled(s, CancelNow(id))
    ensures id in s.st.rows ==> Next(s, CancelNow(id)) == s.(st := s.st.(rows := s.st.rows[id := s.st.rows[id].(status := Cancelled)]))
  {
  }

  lemma {:induction false} CreatedKeys(rows: Table, ids: seq<Id>, built: seq<Row>)
    requires |ids| == |built|
    ensures CreatedRows(rows, ids, built).Keys == rows.Keys + IdSet(ids)
    decreases |ids|
  {
    if ids != [] {
      var n := |ids| - 1;
      CreatedKeys(rows, ids[..n], built[..n]);
      assert ids == ids[..n] + [ids[n]];
    } else {
      assert IdSet(ids) == {};
    }
  }

  /** A batch create is a path of single creates: whatever holds over every run holds with batches too. */
  lemma {:induction false} BatchIsAPath(s: State, ids: seq<Id>, built: seq<Row>)
    requires |ids| == |built| && NewIds(s.st.rows, ids) && forall i :: 0 <= i < |built| ==> IsBuilt(built[i])
    ensures Reaches(s, AfterCreates(s, ids, built))
    decreases |ids|
  {
    if ids == [] {
      ReachesSelf(s);
    } else {
      var n := |ids| - 1;
      BatchIsAPath(s, ids[..n], built[..n]);
      var s1 := AfterCreates(s, ids[..n], built[..n]);
      CreatedKeys(s.st.rows, ids[..n], built[..n]);
      assert ids[n] !in IdSet(ids[..n]);
      CreateReaches(s1, ids[n], built[n]);
      ReachesTrans(s, s1, AfterCreates(s, ids, built));
    }
  }
}
