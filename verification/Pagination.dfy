/** The list query: filters and cursor turned into conditions, one page of the newest rows, and a total. */
module Pagination {
  import opened Domain

  /** The columns of a notification that listing looks at. */
  datatype Entry = Entry(id: Id, channel: Channel, status: Status, priority: Priority, createdAt: Time)

  datatype Filter = Filter(channel: Option<Channel>, status: Option<Status>, priority: Option<Priority>,
                           limit: int, offset: nat, cursor: Option<Time>)

  /** One conjunct of a WHERE clause with its argument. */
  datatype Condition = ChannelIs(ch: Channel) | StatusIs(st: Status) | PriorityIs(p: Priority) | CreatedBefore(t: Time)

  predicate Holds(c: Condition, e: Entry) {
    match c
    case ChannelIs(ch) => e.channel == ch
    case StatusIs(st) => e.status == st
    case PriorityIs(p) => e.priority == p
    case CreatedBefore(t) => e.createdAt < t
  }

  predicate AllHold(cs: seq<Condition>, e: Entry) {
    forall i :: 0 <= i < |cs| ==> Holds(cs[i], e)
  }

  /** The filter proper; the cursor only moves the page. */
  predicate Matches(f: Filter, e: Entry) {
    && (f.channel.Some? ==> e.channel == f.channel.value)
    && (f.status.Some? ==> e.status == f.status.value)
    && (f.priority.Some? ==> e.priority == f.priority.value)
  }

  predicate BeforeCursor(cursor: Option<Time>, e: Entry) {
    cursor.Some? ==> e.createdAt < cursor.value
  }

  function Matching(rows: set<Entry>, f: Filter): set<Entry> {
    set e | e in rows && Matches(f, e)
  }

  function Upto(es: set<Entry>, cursor: Option<Time>): set<Entry> {
    set e | e in es && BeforeCursor(cursor, e)
  }

  function Limit(f: Filter): nat {
    if f.limit <= 0 then 20 else f.limit
  }

  /** es in descending order of creation, each once. */
  ghost predicate Listing(s: seq<Entry>, es: set<Entry>) {
    && (forall e :: e in s <==> e in es)
    && (forall i, j :: 0 <= i < j < |s| ==> s[i] != s[j] && s[i].createdAt >= s[j].createdAt)
  }

  function Slice(s: seq<Entry>, offset: nat, limit: nat): seq<Entry> {
    var tail := if offset < |s| then s[offset..] else [];
    if limit < |tail| then tail[..limit] else tail
  }

  /** A page the database may return: rows with equal creation times come in any order. */
  ghost predicate IsPage(rows: set<Entry>, f: Filter, page: seq<Entry>) {
    exists all: seq<Entry> :: Listing(all, Upto(Matching(rows, f), f.cursor))
      && page == Slice(all, if f.cursor.Some? then 0 else f.offset, Limit(f))
  }

  predicate Unfiltered(f: Filter) {
    f.channel.None? && f.status.None? && f.priority.None?
  }

  /** Counts what the filter matches wherever the cursor stands; only a query without any condition may answer with
      the planner's estimate. */
  function Total(rows: set<Entry>, f: Filter, estimate: nat): nat {
    if Unfiltered(f) && f.cursor.None? && estimate != 0 then estimate else |Matching(rows, f)|
  }

  /** The total does not depend on the page: filters that differ in limit, offset and where their cursors stand get the
      same one. */
  lemma TotalIgnoresPage(rows: set<Entry>, f: Filter, g: Filter, estimate: nat)
    requires g == f.(limit := g.limit, offset := g.offset, cursor := g.cursor) && (f.cursor.Some? <==> g.cursor.Some?)
    ensures Total(rows, f, estimate) == Total(rows, g, estimate)
  {
    assert Matching(rows, f) == Matching(rows, g);
  }

  /** all is the listing the page is cut from: the rows below the cursor that match, newest first. The page is its first
      twenty rows, or as many as the limit says, after the offset, which a cursor replaces; the total counts the matching
      rows wherever the cursor stands. */
  method List(rows: set<Entry>, f: Filter, estimate: nat) returns (page: seq<Entry>, total: nat, ghost all: seq<Entry>)
    ensures IsPage(rows, f, page) && total == Total(rows, f, estimate)
    ensures forall e :: e in all <==>
      && e in rows && (f.channel.Some? ==> e.channel == f.channel.value) && (f.status.Some? ==> e.status == f.status.value)
      && (f.priority.Some? ==> e.priority == f.priority.value) && (f.cursor.Some? ==> e.createdAt < f.cursor.value)
    ensures forall i, j :: 0 <= i < j < |all| ==> all[i] != all[j] && all[i].createdAt >= all[j].createdAt
    ensures var skip := if f.cursor.Some? then 0 else f.offset; var limit := if f.limit <= 0 then 20 else f.limit;
      page == if skip >= |all| then [] else if limit < |all| - skip then all[skip..skip + limit] else all[skip..]
    ensures f.channel.None? && f.status.None? && f.priority.None? && f.cursor.None? && estimate != 0 ==> total == estimate
    ensures f.channel.Some? || f.status.Some? || f.priority.Some? || f.cursor.Some? || estimate == 0 ==>
      total == |set e | e in rows && (f.channel.Some? ==> e.channel == f.channel.value)
        && (f.status.Some? ==> e.status == f.status.value) && (f.priority.Some? ==> e.priority == f.priority.value)|
  {
    var conditions := FilterConditions(f);
    if f.cursor.Some? {
      AndHolds(conditions, CreatedBefore(f.cursor.value));
      conditions := conditions + [CreatedBefore(f.cursor.value)];
    }
    total := Count(rows, f, conditions, estimate);
    page, all := Select(rows, f, conditions);
  }

  /** The count query, without the cursor. */
  method Count(rows: set<Entry>, f: Filter, conditions: seq<Condition>, estimate: nat) returns (total: nat)
    requires conditions == [] <==> Unfiltered(f) && f.cursor.None?
    ensures total == Total(rows, f, estimate)
    ensures f.channel.None? && f.status.None? && f.priority.None? && f.cursor.None? && estimate != 0 ==> total == estimate
    ensures f.channel.Some? || f.status.Some? || f.priority.Some? || f.cursor.Some? || estimate == 0 ==>
      total == |set e | e in rows && (f.channel.Some? ==> e.channel == f.channel.value)
        && (f.status.Some? ==> e.status == f.status.value) && (f.priority.Some? ==> e.priority == f.priority.value)|
  {
    assert Matching(rows, f) == set e | e in rows && (f.channel.Some? ==> e.channel == f.channel.value)
      && (f.status.Some? ==> e.status == f.status.value) && (f.priority.Some? ==> e.priority == f.priority.value);
    if |conditions| == 0 {
      total := estimate;
      if total == 0 {
        total := |rows|;
        assert Matching(rows, f) == rows;
      }
    } else {
      var countConditions := FilterConditions(f);
      var counted := set e | e in rows && AllHold(countConditions, e);
      assert counted == Matching(rows, f);
      total := |counted|;
    }
  }

  /** The data query. */
  method Select(rows: set<Entry>, f: Filter, conditions: seq<Condition>) returns (page: seq<Entry>, ghost all: seq<Entry>)
    requires forall e: Entry :: AllHold(conditions, e) <==> Matches(f, e) && BeforeCursor(f.cursor, e)
    ensures IsPage(rows, f, page)
    ensures forall e :: e in all <==>
      && e in rows && (f.channel.Some? ==> e.channel == f.channel.value) && (f.status.Some? ==> e.status == f.status.value)
      && (f.priority.Some? ==> e.priority == f.priority.value) && (f.cursor.Some? ==> e.createdAt < f.cursor.value)
    ensures forall i, j :: 0 <= i < j < |all| ==> all[i] != all[j] && all[i].createdAt >= all[j].createdAt
    ensures var skip := if f.cursor.Some? then 0 else f.offset; var limit := if f.limit <= 0 then 20 else f.limit;
      page == if skip >= |all| then [] else if limit < |all| - skip then all[skip..skip + limit] else all[skip..]
  {
    var selected := set e | e in rows && AllHold(conditions, e);
    assert selected == Upto(Matching(rows, f), f.cursor);
    var sorted := OrderByCreatedDesc(selected);
    page := Slice(sorted, if f.cursor.Some? then 0 else f.offset, Limit(f));
    all := sorted;
  }

  /** Conditions of the set filters, in the code's order. */
  method FilterConditions(f: Filter) returns (cs: seq<Condition>)
    ensures forall e: Entry :: AllHold(cs, e) <==> Matches(f, e)
    ensures cs == [] <==> Unfiltered(f)
  {
    cs := [];
    if f.channel.Some? {
      AndHolds(cs, ChannelIs(f.channel.value));
      cs := cs + [ChannelIs(f.channel.value)];
    }
    if f.status.Some? {
      AndHolds(cs, StatusIs(f.status.value));
      cs := cs + [StatusIs(f.status.value)];
    }
    if f.priority.Some? {
      AndHolds(cs, PriorityIs(f.priority.value));
      cs := cs + [PriorityIs(f.priority.value)];
    }
  }

  lemma AndHolds(cs: seq<Condition>, c: Condition)
    ensures forall e: Entry :: AllHold(cs + [c], e) <==> AllHold(cs, e) && Holds(c, e)
  {
    forall e: Entry ensures AllHold(cs + [c], e) <==> AllHold(cs, e) && Holds(c, e) {
      assert (cs + [c])[|cs|] == c;
      assert forall i :: 0 <= i < |cs| ==> (cs + [c])[i] == cs[i];
    }
  }

  method OrderByCreatedDesc(es: set<Entry>) returns (s: seq<Entry>)
    ensures Listing(s, es)
  {
    s := [];
    var left := es;
    while left != {}
      invariant forall e :: e in left <==> e in es && e !in s
      invariant forall e :: e in s ==> e in es
      invariant forall i, j :: 0 <= i < j < |s| ==> s[i] != s[j] && s[i].createdAt >= s[j].createdAt
      invariant forall i, e :: 0 <= i < |s| && e in left ==> s[i].createdAt >= e.createdAt
      decreases left
    {
      var e := Newest(left);
      s, left := s + [e], left - {e};
    }
  }

  method Newest(es: set<Entry>) returns (e: Entry)
    requires es != {}
    ensures e in es && forall x :: x in es ==> x.createdAt <= e.createdAt
  {
    e :| e in es;
    var left := es - {e};
    while left != {}
      invariant left <= es && e in es && forall x :: x in es - left ==> x.createdAt <= e.createdAt
      decreases left
    {
      var x :| x in left;
      if x.createdAt > e.createdAt { e := x; }
      left := left - {x};
    }
  }
}
