/** What one worker does to the databases and counters with nobody else running. The clock, the provider's
    answers and the jittered delays are fixed by an environment. Each table, set and counter has its own
    function; Single and Batch put them together. */
module Processing {
  import opened Domain
  import opened Databases
  import opened Pipeline

  type Counter = c: map<Channel, nat> | forall ch: Channel :: ch in c
    witness map ch: Channel | true :: 0

  const NO_COUNTS: Counter := map ch: Channel | true :: 0

  datatype Env = Env(now: Time, send: Id -> Outcome, delay: (Id, nat) -> nat)

  /** The databases and the sent and failed counters of the metrics. */
  datatype Sys = Sys(st: Store, sent: Counter, failed: Counter)

  function Bump(c: Counter, ch: Channel): Counter {
    c[ch := c[ch] + 1]
  }

  // ---- handleFailure, for a claimed row n whose send returned err ----

  predicate Last(n: Claim) {
    n.attempts + 1 >= n.maxAttempts
  }

  function FailRows(rows: Table, n: Claim, err: string): Table {
    SetFailure(rows, n.id, if Last(n) then Failed else Queued, err, n.attempts + 1)
  }

  function FailDead(dead: seq<DeadLetter>, n: Claim, err: string): seq<DeadLetter> {
    if Last(n) then dead + [DeadLetter(n.id, err, n.attempts + 1)] else dead
  }

  function FailDelayed(delayed: ZSet, n: Claim, m: Message, env: Env): ZSet {
    if Last(n) then delayed else EnqueueDelayed(delayed, m, env.now, env.delay(n.id, n.attempts + 1))
  }

  // ---- Process ----

  predicate CanTake(rows: Table, id: Id) {
    id in rows && Claimable(rows[id].status)
  }

  /** The row's write after its send. */
  function StepRows(rows: Table, n: Claim, env: Env): Table {
    match env.send(n.id)
    case Errored(err) => FailRows(rows, n, err)
    case Delivered(id) => SetSent(rows, n.id, id)
  }

  function StepDead(dead: seq<DeadLetter>, n: Claim, env: Env): seq<DeadLetter> {
    match env.send(n.id)
    case Errored(err) => FailDead(dead, n, err)
    case Delivered(_) => dead
  }

  function StepDelayed(delayed: ZSet, n: Claim, m: Message, env: Env): ZSet {
    match env.send(n.id)
    case Errored(_) => FailDelayed(delayed, n, m, env)
    case Delivered(_) => delayed
  }

  function StepSent(c: Counter, n: Claim, env: Env): Counter {
    if env.send(n.id).Delivered? then Bump(c, n.channel) else c
  }

  function StepFailed(c: Counter, n: Claim, env: Env): Counter {
    if env.send(n.id).Errored? then Bump(c, n.channel) else c
  }

  /** Process: a message whose row is not claimable is only acked. */
  function Single(sys: Sys, m: Message, env: Env): Sys {
    var processing := Ack(sys.st.processing, m.channel, [m]);
    if !CanTake(sys.st.rows, m.id) then sys.(st := sys.st.(processing := processing))
    else
      var n := ClaimOf(sys.st.rows, m.id);
      Sys(Store(StepRows(SetStatus(sys.st.rows, m.id, Processing), n, env), StepDead(sys.st.dead, n, env), sys.st.queue,
                processing, StepDelayed(sys.st.delayed, n, m, env)),
          StepSent(sys.sent, n, env), StepFailed(sys.failed, n, env))
  }

  function Singly(sys: Sys, ms: seq<Message>, env: Env): Sys
    decreases |ms|
  {
    if ms == [] then sys else Singly(Single(sys, ms[0], env), ms[1..], env)
  }

  // ---- the send loop of ProcessBatch over the claimed rows ----

  /** Failures are written inside the loop, deliveries only gathered. */
  function FailedRows(rows: Table, n: Claim, env: Env): Table {
    match env.send(n.id)
    case Errored(err) => FailRows(rows, n, err)
    case Delivered(_) => rows
  }

  function LoopRows(rows: Table, todo: seq<Claim>, env: Env): Table
    decreases |todo|
  {
    if todo == [] then rows else LoopRows(FailedRows(rows, todo[0], env), todo[1..], env)
  }

  function Receipts(todo: seq<Claim>, env: Env): seq<Receipt>
    decreases |todo|
  {
    if todo == [] then []
    else match env.send(todo[0].id)
      case Errored(_) => Receipts(todo[1..], env)
      case Delivered(id) => [Receipt(todo[0].id, id)] + Receipts(todo[1..], env)
  }

  function LoopDead(dead: seq<DeadLetter>, todo: seq<Claim>, env: Env): seq<DeadLetter>
    decreases |todo|
  {
    if todo == [] then dead else LoopDead(StepDead(dead, todo[0], env), todo[1..], env)
  }

  function DelayedIn(delayed: ZSet, n: Claim, ms: seq<Message>, env: Env): ZSet {
    match MsgFor(ms, n.id)
    case Some(m) => StepDelayed(delayed, n, m, env)
    case None => delayed
  }

  function LoopDelayed(delayed: ZSet, todo: seq<Claim>, ms: seq<Message>, env: Env): ZSet
    decreases |todo|
  {
    if todo == [] then delayed else LoopDelayed(DelayedIn(delayed, todo[0], ms, env), todo[1..], ms, env)
  }

  /** handleFailure acks its message; deliveries wait for the final ack. */
  function StepAck(processing: ZSets, n: Claim, ms: seq<Message>, env: Env): ZSets {
    match MsgFor(ms, n.id)
    case Some(m) => if env.send(n.id).Errored? then Ack(processing, m.channel, [m]) else processing
    case None => processing
  }

  function LoopAck(processing: ZSets, todo: seq<Claim>, ms: seq<Message>, env: Env): ZSets
    decreases |todo|
  {
    if todo == [] then processing else LoopAck(StepAck(processing, todo[0], ms, env), todo[1..], ms, env)
  }

  function LoopSent(c: Counter, todo: seq<Claim>, env: Env): Counter
    decreases |todo|
  {
    if todo == [] then c else LoopSent(StepSent(c, todo[0], env), todo[1..], env)
  }

  function LoopFailed(c: Counter, todo: seq<Claim>, env: Env): Counter
    decreases |todo|
  {
    if todo == [] then c else LoopFailed(StepFailed(c, todo[0], env), todo[1..], env)
  }

  /** One turn of the loop. */
  function Turn(sys: Sys, n: Claim, ms: seq<Message>, env: Env): Sys {
    Sys(Store(FailedRows(sys.st.rows, n, env), StepDead(sys.st.dead, n, env), sys.st.queue,
              StepAck(sys.st.processing, n, ms, env), DelayedIn(sys.st.delayed, n, ms, env)),
        StepSent(sys.sent, n, env), StepFailed(sys.failed, n, env))
  }

  function Loop(sys: Sys, todo: seq<Claim>, ms: seq<Message>, env: Env): Sys
    decreases |todo|
  {
    if todo == [] then sys else Loop(Turn(sys, todo[0], ms, env), todo[1..], ms, env)
  }

  /** The loop, component by component. */
  lemma {:induction false} LoopIs(sys: Sys, todo: seq<Claim>, ms: seq<Message>, env: Env)
    ensures Loop(sys, todo, ms, env) == LoopParts(sys, todo, ms, env)
    decreases |todo|
  {
    if todo != [] {
      LoopIs(Turn(sys, todo[0], ms, env), todo[1..], ms, env);
      PartsCons(sys, todo, ms, env);
    }
  }

  lemma PartsCons(sys: Sys, todo: seq<Claim>, ms: seq<Message>, env: Env)
    requires todo != []
    ensures LoopParts(sys, todo, ms, env) == LoopParts(Turn(sys, todo[0], ms, env), todo[1..], ms, env)
  {
  }

  function LoopParts(sys: Sys, todo: seq<Claim>, ms: seq<Message>, env: Env): Sys {
    Sys(Store(LoopRows(sys.st.rows, todo, env), LoopDead(sys.st.dead, todo, env), sys.st.queue,
              LoopAck(sys.st.processing, todo, ms, env), LoopDelayed(sys.st.delayed, todo, ms, env)),
        LoopSent(sys.sent, todo, env), LoopFailed(sys.failed, todo, env))
  }

  lemma OrderInRows(rows: Table, ms: seq<Message>, order: seq<Id>)
    requires IsClaimOrder(rows, Ids(ms), order)
    ensures forall id :: id in order ==> id in rows
    ensures order != [] ==> ms != []
  {
    forall id | id in order ensures id in rows { assert id in Claimed(rows, Ids(ms)); }
    if order != [] {
      assert order[0] in Claimed(rows, Ids(ms));
    }
  }

  /** ProcessBatch: nothing is acked when nothing is claimable. */
  ghost function Batch(sys: Sys, ms: seq<Message>, order: seq<Id>, env: Env): Sys
    requires IsClaimOrder(sys.st.rows, Ids(ms), order)
  {
    if order == [] then sys
    else
      OrderInRows(sys.st.rows, ms, order);
      var todo := Claims(sys.st.rows, order);
      var sys1 := Loop(sys.(st := sys.st.(rows := ClaimRows(sys.st.rows, Ids(ms)))), todo, ms, env);
      sys1.(st := sys1.st.(rows := MarkSent(sys1.st.rows, Receipts(todo, env)),
                           processing := Ack(sys1.st.processing, ms[0].channel, ms)))
  }
}
