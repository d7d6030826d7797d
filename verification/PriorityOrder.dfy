/** The order in which a queue gives up its messages: priority classes that age. The scores are first taken as
    integers and then as the binary64 numbers they are. */
module PriorityOrder {
  import opened Domain
  import opened Databases
  import Float64

  /** How a number is stored: Exact keeps it, Float64.F64 rounds it. */
  type Rounding = nat -> nat

  function Exact(x: nat): nat { x }

  /** The time a score is computed from. */
  function Stamp(m: Message, now: Time): Time {
    if m.scheduledAt.Some? then m.scheduledAt.value else now
  }

  function ScoreAt(round: Rounding, p: Priority, t: Time): nat {
    round(Level(p) * LEVEL_STEP + round(t))
  }

  /** The score of calculateScore is the rounded one. */
  lemma ScoreIsRounded(m: Message, now: Time)
    ensures Score(m, now) == ScoreAt(Float64.F64, m.priority, Stamp(m, now))
  {
  }

  /** A message with a time of its own is scored as one without is at that time. */
  lemma ScheduledScoresAsThen(m: Message, now: Time, t: Time)
    requires m.scheduledAt == Some(t)
    ensures Score(m, now) == Score(m.(scheduledAt := None), t) && Stamp(m, now) == Stamp(m.(scheduledAt := None), t) == t
  {
  }

  /** A queue and, for every message in it, the stamp of its last ZADD. */
  datatype Queue = Queue(z: ZSet, at: map<Message, Time>)

  datatype Event = Put(m: Message, now: Time) | Take(m: Message)

  ghost predicate Can(q: Queue, e: Event) {
    e.Take? ==> IsMin(q.z, e.m)
  }

  function Do(round: Rounding, q: Queue, e: Event): Queue {
    match e
    case Put(m, now) =>
      var t := Stamp(m, now);
      Queue(q.z[m := ScoreAt(round, m.priority, t)], q.at[m := t])
    case Take(m) => Queue(q.z - {m}, q.at - {m})
  }

  ghost predicate Run(round: Rounding, qs: seq<Queue>, es: seq<Event>) {
    && |qs| == |es| + 1 && qs[0] == Queue(map[], map[])
    && forall i :: 0 <= i < |es| ==> Can(qs[i], es[i]) && qs[i + 1] == Do(round, qs[i], es[i])
  }

  lemma {:induction false} Scored(round: Rounding, qs: seq<Queue>, es: seq<Event>, i: nat)
    requires Run(round, qs, es) && i < |qs|
    ensures qs[i].z.Keys == qs[i].at.Keys
    ensures forall m :: m in qs[i].z ==> qs[i].z[m] == ScoreAt(round, m.priority, qs[i].at[m])
  {
    if i > 0 {
      Scored(round, qs, es, i - 1);
      assert qs[i - 1 + 1] == Do(round, qs[i - 1], es[i - 1]);
    }
  }

  /** m leaves while o is still queued. */
  ghost predicate LeavesBefore(round: Rounding, qs: seq<Queue>, es: seq<Event>, i: nat, m: Message, o: Message) {
    && Run(round, qs, es) && i < |es| && es[i] == Take(m) && o in qs[i].z && o != m
    && m in qs[i].at && o in qs[i].at
  }

  lemma LowestScoreLeaves(round: Rounding, qs: seq<Queue>, es: seq<Event>, i: nat, m: Message, o: Message)
    requires LeavesBefore(round, qs, es, i, m, o)
    ensures var a := ScoreAt(round, m.priority, qs[i].at[m]); var b := ScoreAt(round, o.priority, qs[i].at[o]);
      a < b || (a == b && m.id <= o.id)
  {
    Scored(round, qs, es, i);
    assert Can(qs[i], es[i]) && !Before(qs[i].z, o, m);
  }

  // ---- on integers ----

  /** Over any run on integers: nobody overtakes within a class, and nobody a high message; high goes before normal, and
      normal before low, unless it came 1e12 ns later, and high before low unless it came 2e12 ns later; a normal message
      is overtaken only by what came within 1e12 ns, a low one only by what came within 2e12 ns. */
  lemma IntegerOrder(qs: seq<Queue>, es: seq<Event>, i: nat, m: Message, o: Message)
    requires LeavesBefore(Exact, qs, es, i, m, o)
    ensures var s, t := qs[i].at[m], qs[i].at[o];
      && (m.priority == o.priority || o.priority == High ==> s <= t)
      && (m.priority == Normal && o.priority == High ==> s + 1_000_000_000_000 <= t)
      && (m.priority == Low && o.priority == Normal ==> s + 1_000_000_000_000 <= t)
      && (m.priority == Low && o.priority == High ==> s + 2_000_000_000_000 <= t)
      && (o.priority == Normal ==> s <= t + 1_000_000_000_000)
      && (o.priority == Low ==> s <= t + 2_000_000_000_000)
  {
    LowestScoreLeaves(Exact, qs, es, i, m, o);
  }

  // ---- in binary64 ----

  /** Readings whose scores stay in [2^60, 2^61). */
  predicate InRange(t: Time) {
    0x1000_0000_0000_0000 <= t && t + 2_000_000_000_256 < 0x2000_0000_0000_0000
  }

  /** In range only the reading is rounded: adding levels is exact. */
  lemma ScoreInRange(p: Priority, t: Time)
    requires InRange(t)
    ensures ScoreAt(Float64.F64, p, t) ==
      Float64.F64(t) + match p case High => 0 case Normal => 1_000_000_000_000 case Low => 2_000_000_000_000
    ensures t - 128 <= Float64.F64(t) <= t + 128
  {
    Float64.RoundTo256(t);
    var sum := Level(p) * LEVEL_STEP + Float64.F64(t);
    SumIsMultiple(Level(p), Float64.F64(t));
    Float64.RoundTo256(sum);
  }

  /** A level adds an even multiple of 256. */
  lemma SumIsMultiple(level: nat, x: nat)
    requires x % 256 == 0
    ensures (level * LEVEL_STEP + x) % 256 == 0
  {
    var k := x / 256;
    assert level * LEVEL_STEP + x == 256 * (3_906_250_000 * level + k);
  }

  /** Over any run in binary64 the order on integers holds up to 256 ns. */
  lemma FloatOrder(qs: seq<Queue>, es: seq<Event>, i: nat, m: Message, o: Message)
    requires LeavesBefore(Float64.F64, qs, es, i, m, o) && InRange(qs[i].at[m]) && InRange(qs[i].at[o])
    ensures var s, t := qs[i].at[m], qs[i].at[o];
      && (m.priority == o.priority || o.priority == High ==> s <= t + 256)
      && (m.priority == Normal && o.priority == High ==> s + 1_000_000_000_000 <= t + 256)
      && (m.priority == Low && o.priority == Normal ==> s + 1_000_000_000_000 <= t + 256)
      && (m.priority == Low && o.priority == High ==> s + 2_000_000_000_000 <= t + 256)
      && (o.priority == Normal ==> s <= t + 1_000_000_000_000 + 256)
      && (o.priority == Low ==> s <= t + 2_000_000_000_000 + 256)
  {
    LowestScoreLeaves(Float64.F64, qs, es, i, m, o);
    ScoreInRange(m.priority, qs[i].at[m]);
    ScoreInRange(o.priority, qs[i].at[o]);
  }

  /** Over any run in binary64, of two queued messages of one class the first is the one whose reading rounds lower, and
      of two that round alike the one with the lower id. */
  lemma ClassOrderExactly(qs: seq<Queue>, es: seq<Event>, i: nat, m: Message, o: Message)
    requires Run(Float64.F64, qs, es) && i < |qs| && m in qs[i].z && o in qs[i].z && m.priority == o.priority
    requires m in qs[i].at && o in qs[i].at && InRange(qs[i].at[m]) && InRange(qs[i].at[o])
    ensures var s, t := Float64.F64(qs[i].at[m]), Float64.F64(qs[i].at[o]);
      Before(qs[i].z, m, o) <==> s < t || (s == t && m.id < o.id)
  {
    Scored(Float64.F64, qs, es, i);
    ScoreInRange(m.priority, qs[i].at[m]);
    ScoreInRange(o.priority, qs[i].at[o]);
  }

  /** Two messages of one class, nothing else queued: the first in leaves first exactly when rounding keeps their
      readings apart, or its id comes first. */
  lemma FifoExactly(m: Message, o: Message, s: Time, t: Time)
    requires m.priority == o.priority && m.scheduledAt == o.scheduledAt == None && m.id != o.id
    requires s <= t && InRange(s) && InRange(t)
    ensures var q := Do(Float64.F64, Do(Float64.F64, Queue(map[], map[]), Put(m, s)), Put(o, t));
      (Can(q, Take(m)) <==> Float64.F64(s) < Float64.F64(t) || m.id < o.id)
      && (Can(q, Take(o)) <==> Float64.F64(s) == Float64.F64(t) && o.id < m.id)
  {
    ScoreInRange(m.priority, s);
    ScoreInRange(o.priority, t);
    Float64.Monotone(s, t);
    var q := Do(Float64.F64, Do(Float64.F64, Queue(map[], map[]), Put(m, s)), Put(o, t));
    assert q.z == map[m := ScoreAt(Float64.F64, m.priority, s), o := ScoreAt(Float64.F64, o.priority, t)];
    assert IsMin(q.z, m) <==> !Before(q.z, o, m);
    assert IsMin(q.z, o) <==> !Before(q.z, m, o);
  }

  /** 256 ns are not enough: these two readings round to one score, and the later message leaves first. */
  lemma TieAt256(m: Message, o: Message)
    requires m.priority == o.priority && m.scheduledAt == o.scheduledAt == None && o.id < m.id
    ensures var s := Float64.TWO60 + 384; var t := s + 256;
      InRange(s) && InRange(t)
      && Can(Do(Float64.F64, Do(Float64.F64, Queue(map[], map[]), Put(m, s)), Put(o, t)), Take(o))
  {
    var s := Float64.TWO60 + 384;
    Float64.SpacingIs256(s);
    Float64.SpacingIs256(s + 256);
    assert Float64.F64(s) == Float64.TWO60 + 512 == Float64.F64(s + 256);
    FifoExactly(m, o, s, s + 256);
  }

  /** More than 256 ns apart always suffices. */
  lemma ApartBeyond256(s: Time, t: Time)
    requires InRange(s) && InRange(t) && s + 256 < t
    ensures Float64.F64(s) < Float64.F64(t)
  {
    ScoreInRange(High, s);
    ScoreInRange(High, t);
  }
}
