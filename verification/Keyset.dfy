/** What a client gets by following next_cursor from the first page to an empty one. */
module Keyset {
  import opened Domain
  import opened Pagination
  import opened Arithmetic

  lemma {:induction false} ListingSize(all: seq<Entry>, es: set<Entry>)
    requires Listing(all, es)
    ensures |all| == |es|
    decreases |all|
  {
    if all == [] {
      assert forall e :: e !in es;
      assert es == {};
    } else {
      ListingTail(all, es);
      ListingSize(all[1..], es - {all[0]});
    }
  }

  lemma ListingTail(a: seq<Entry>, es: set<Entry>)
    requires Listing(a, es) && a != []
    ensures Listing(a[1..], es - {a[0]})
  {
  }

  /** The rows of `later` are those of the first page's table, or newer than all of them. */
  ghost predicate OnlyNewer(es: set<Entry>, later: set<Entry>) {
    && es <= later
    && forall e, x :: e in later - es && x in es ==> x.createdAt < e.createdAt
  }

  /** Pages got one after the other, each from the table of its moment, each with the last page's next_cursor. An
      empty page has no next_cursor and is the last. */
  ghost predicate Follows(tables: seq<set<Entry>>, f: Filter, cursor: Option<Time>, pages: seq<seq<Entry>>)
    decreases |pages|
  {
    && |tables| == |pages|
    && (pages != [] ==>
          && IsPage(tables[0], f.(cursor := cursor, offset := 0), pages[0])
          && (if pages[0] == [] then |pages| == 1
              else Follows(tables[1..], f, Some(pages[0][|pages[0]| - 1].createdAt), pages[1..])))
  }

  function Concat(pages: seq<seq<Entry>>): seq<Entry> {
    if pages == [] then [] else pages[0] + Concat(pages[1..])
  }

  /** n rows in pages of k: the quotient rounded up. */
  function PageCount(n: nat, k: nat): nat
    requires k > 0
  {
    if n <= k then (if n == 0 then 0 else 1) else 1 + PageCount(n - k, k)
  }

  lemma {:induction false} PageCountRoundsUp(n: nat, k: nat)
    requires k > 0
    ensures n <= PageCount(n, k) * k && (n > 0 ==> (PageCount(n, k) - 1) * k < n)
  {
    if n > k {
      PageCountRoundsUp(n - k, k);
      var p := PageCount(n - k, k);
      assert (1 + p) * k == p * k + k && (p - 1) * k == p * k - k;
    }
  }

  lemma {:induction false} PageCountMono(a: nat, b: nat, k: nat)
    requires k > 0 && a <= b
    ensures PageCount(a, k) <= PageCount(b, k)
  {
    if a > k { PageCountMono(a - k, b - k, k); }
  }

  // ---- listings of one set differ only among equal creation times ----

  function Later(es: set<Entry>, t: Time): set<Entry> {
    set e | e in es && e.createdAt > t
  }

  function Rows(s: seq<Entry>): set<Entry> {
    set e | e in s
  }

  lemma SeqSet(s: seq<Entry>, i: nat)
    requires i <= |s| && forall j, l :: 0 <= j < l < |s| ==> s[j] != s[l]
    ensures |Rows(s[..i])| == i
  {
    if i > 0 {
      SeqSet(s, i - 1);
      assert s[..i] == s[..i - 1] + [s[i - 1]];
      assert Rows(s[..i]) == Rows(s[..i - 1]) + {s[i - 1]};
    }
  }

  /** Fewer than i + 1 rows are later than the i-th, and more than i at least as late. */
  lemma RankOf(s: seq<Entry>, es: set<Entry>, i: nat, t: Time)
    requires Listing(s, es) && i < |s|
    ensures |Later(es, s[i].createdAt)| <= i
    ensures t < s[i].createdAt ==> |Later(es, t)| > i
  {
    SeqSet(s, i);
    forall e | e in Later(es, s[i].createdAt) ensures e in s[..i] {
      var j :| 0 <= j < |s| && s[j] == e;
      assert j < i;
    }
    SubsetSize(Later(es, s[i].createdAt), Rows(s[..i]));
    if t < s[i].createdAt {
      SeqSet(s, i + 1);
      forall e | e in s[..i + 1] ensures e in Later(es, t) {
        var j :| 0 <= j <= i && s[j] == e;
        assert e in es;
      }
      SubsetSize(Rows(s[..i + 1]), Later(es, t));
    }
  }

  lemma SameTimes(a: seq<Entry>, b: seq<Entry>, es: set<Entry>)
    requires Listing(a, es) && Listing(b, es)
    ensures |a| == |b| && forall i :: 0 <= i < |a| ==> a[i].createdAt == b[i].createdAt
  {
    ListingSize(a, es);
    ListingSize(b, es);
    forall i | 0 <= i < |a| ensures a[i].createdAt == b[i].createdAt {
      RankOf(a, es, i, b[i].createdAt);
      RankOf(b, es, i, a[i].createdAt);
    }
  }

  // ---- where pages break ----

  function Rank(j: nat, k: nat): nat { j * k }

  /** No two rows on either side of a page break have the same creation time. */
  ghost predicate CleanBreaks(all: seq<Entry>, k: nat) {
    forall j: nat :: 0 < j && 0 < Rank(j, k) < |all| ==> all[Rank(j, k) - 1].createdAt != all[Rank(j, k)].createdAt
  }

  lemma RankNext(j: nat, k: nat)
    ensures Rank(j + 1, k) == Rank(j, k) + k && Rank(1, k) == k && Rank(0, k) == 0
  {
  }

  lemma CleanCons(all: seq<Entry>, k: nat)
    requires 0 < k < |all|
    ensures CleanBreaks(all, k) <==> all[k - 1].createdAt != all[k].createdAt && CleanBreaks(all[k..], k)
  {
    RankNext(0, k);
    if CleanBreaks(all, k) {
      forall j: nat | 0 < j && 0 < Rank(j, k) < |all[k..]|
        ensures all[k..][Rank(j, k) - 1].createdAt != all[k..][Rank(j, k)].createdAt
      {
        RankNext(j, k);
        assert Rank(j + 1, k) < |all|;
      }
    }
    if all[k - 1].createdAt != all[k].createdAt && CleanBreaks(all[k..], k) {
      forall j: nat | 0 < j && 0 < Rank(j, k) < |all| ensures all[Rank(j, k) - 1].createdAt != all[Rank(j, k)].createdAt {
        if j > 1 {
          RankNext(j - 1, k);
          RankAtLeast(j - 1, k);
          assert all[k..][Rank(j - 1, k)] == all[Rank(j, k)];
        }
      }
    }
  }

  lemma {:induction false} RankAtLeast(j: nat, k: nat)
    requires j > 0
    ensures Rank(j, k) >= k
  {
    if j > 1 {
      RankAtLeast(j - 1, k);
      RankNext(j - 1, k);
    }
  }

  lemma CleanShort(all: seq<Entry>, k: nat)
    requires |all| <= k
    ensures CleanBreaks(all, k)
  {
    forall j: nat | j > 0 ensures Rank(j, k) >= k { RankAtLeast(j, k); }
  }

  lemma CleanSame(a: seq<Entry>, b: seq<Entry>, es: set<Entry>, k: nat)
    requires Listing(a, es) && Listing(b, es)
    ensures CleanBreaks(a, k) <==> CleanBreaks(b, k)
  {
    SameTimes(a, b, es);
  }

  // ---- following next_cursor ----

  lemma UptoUpto(es: set<Entry>, a: Option<Time>, t: Time)
    requires a.Some? ==> t <= a.value
    ensures Upto(Upto(es, a), Some(t)) == Upto(es, Some(t))
  {
  }

  /** Rows newer than all of es never show on a page below one of its members. */
  lemma NewerInvisible(es: set<Entry>, later: set<Entry>, cursor: Option<Time>)
    requires OnlyNewer(es, later)
    requires if cursor.None? then later == es else exists x :: x in es && x.createdAt == cursor.value
    ensures Upto(later, cursor) == Upto(es, cursor)
  {
    if cursor.Some? {
      var x :| x in es && x.createdAt == cursor.value;
      forall e | e in later - es ensures x.createdAt < e.createdAt { }
    }
  }

  /** A page is the head of some listing of the rows below its cursor. */
  lemma PageIs(es: set<Entry>, rows: set<Entry>, f: Filter, cursor: Option<Time>, page: seq<Entry>)
    returns (all: seq<Entry>)
    requires OnlyNewer(es, Matching(rows, f))
    requires if cursor.None? then Matching(rows, f) == es else exists x :: x in es && x.createdAt == cursor.value
    requires IsPage(rows, f.(cursor := cursor, offset := 0), page)
    ensures Listing(all, Upto(es, cursor)) && page == Slice(all, 0, Limit(f)) && (page == [] <==> all == [])
  {
    NewerInvisible(es, Matching(rows, f), cursor);
    assert Matching(rows, f.(cursor := cursor, offset := 0)) == Matching(rows, f);
    all :| Listing(all, Upto(es, cursor)) && page == Slice(all, 0, Limit(f));
  }

  /** The next page's rows: those below the last row shown, which are the rest of the listing if the break is clean,
      and fewer if not. */
  lemma Below(all: seq<Entry>, es: set<Entry>, k: nat, rest: seq<Entry>)
    requires Listing(all, es) && 0 < k <= |all| && Listing(rest, Upto(es, Some(all[k - 1].createdAt)))
    ensures |rest| <= |all| - k
    ensures k == |all| || all[k - 1].createdAt != all[k].createdAt ==> Listing(all[k..], Upto(es, Some(all[k - 1].createdAt)))
    ensures k < |all| && all[k - 1].createdAt == all[k].createdAt ==> all[k] !in rest && all[k] !in all[..k]
  {
    var t := all[k - 1].createdAt;
    var below := Upto(es, Some(t));
    forall e | e in below ensures e in all[k..] {
      var i :| 0 <= i < |all| && all[i] == e;
      assert i >= k && all[k..][i - k] == e;
    }
    ListingSize(rest, below);
    SeqSet(all[k..], |all[k..]|);
    assert all[k..][..|all[k..]|] == all[k..];
    SubsetSize(below, Rows(all[k..]));
    if k == |all| || all[k - 1].createdAt != all[k].createdAt {
      forall e | e in all[k..] ensures e in below {
        var i :| 0 <= i < |all[k..]| && all[k..][i] == e;
        assert all[i + k] == e && all[i + k] in es && all[k] in es;
      }
    }
  }

  lemma JoinedLists(all: seq<Entry>, es: set<Entry>, k: nat, rest: seq<Entry>)
    requires Listing(all, es) && 0 < k <= |all| && Listing(all[k..], Upto(es, Some(all[k - 1].createdAt)))
    requires Listing(rest, Upto(es, Some(all[k - 1].createdAt)))
    ensures Listing(all[..k] + rest, es)
  {
    var joined := all[..k] + rest;
    assert all == all[..k] + all[k..];
    forall e ensures e in joined <==> e in es {
      assert e in all <==> e in all[..k] || e in all[k..];
      assert e in rest <==> e in all[k..];
    }
    forall i, j | 0 <= i < j < |joined| ensures joined[i] != joined[j] && joined[i].createdAt >= joined[j].createdAt {
      if i < k <= j { assert joined[j] in rest && all[i].createdAt >= all[k - 1].createdAt; }
      if k <= i { assert joined[i] == rest[i - k] && joined[j] == rest[j - k]; }
    }
  }

  lemma JoinedParts(all: seq<Entry>, es: set<Entry>, k: nat, rest: seq<Entry>)
    requires Listing(all, es) && 0 < k <= |all| && Listing(all[k..], Upto(es, Some(all[k - 1].createdAt)))
    requires Listing(all[..k] + rest, es)
    ensures Listing(rest, Upto(es, Some(all[k - 1].createdAt)))
  {
    var joined := all[..k] + rest;
    assert all == all[..k] + all[k..];
    forall i, j | 0 <= i < j < |rest| ensures rest[i] != rest[j] && rest[i].createdAt >= rest[j].createdAt {
      assert joined[k + i] == rest[i] && joined[k + j] == rest[j];
    }
    forall i, j | 0 <= i < k && 0 <= j < |rest| ensures all[i] != rest[j] {
      assert joined[i] == all[i] && joined[k + j] == rest[j];
    }
    forall e ensures e in rest <==> e in all[k..] {
      assert e in joined <==> e in all[..k] || e in rest;
      assert e in all <==> e in all[..k] || e in all[k..];
      if e in all[k..] {
        var j :| 0 <= j < |all[k..]| && all[k..][j] == e;
        forall i | 0 <= i < k ensures all[i] != e { assert all[k + j] == e; }
      }
    }
  }

  /** A page and what is below it, joined, are a listing exactly when what is below it is listed. */
  lemma Joined(all: seq<Entry>, es: set<Entry>, k: nat, rest: seq<Entry>)
    requires Listing(all, es) && 0 < k <= |all| && Listing(all[k..], Upto(es, Some(all[k - 1].createdAt)))
    ensures ListsTogether(all[..k] + rest, es, rest, Upto(es, Some(all[k - 1].createdAt)))
  {
    if Listing(rest, Upto(es, Some(all[k - 1].createdAt))) { JoinedLists(all, es, k, rest); }
    if Listing(all[..k] + rest, es) { JoinedParts(all, es, k, rest); }
  }

  // ---- every traversal ----

  /** No row of these pages is at or above the cursor. */
  lemma {:induction false} PagesBelow(tables: seq<set<Entry>>, f: Filter, cursor: Option<Time>, pages: seq<seq<Entry>>, e: Entry)
    requires Follows(tables, f, cursor, pages) && e in Concat(pages)
    ensures BeforeCursor(cursor, e)
    decreases |pages|
  {
    var page := pages[0];
    var f1 := f.(cursor := cursor, offset := 0);
    var all: seq<Entry> :| Listing(all, Upto(Matching(tables[0], f1), f1.cursor)) && page == Slice(all, 0, Limit(f1));
    if e in page {
      assert e in all;
    } else {
      var t := page[|page| - 1].createdAt;
      assert page[|page| - 1] in all;
      PagesBelow(tables[1..], f, Some(t), pages[1..], e);
    }
  }

  /** What is known of the pages from a cursor on, below which `all` is a listing. */
  ghost predicate Exactly(pages: seq<seq<Entry>>, all: seq<Entry>, below: set<Entry>, k: nat)
    requires k > 0 && pages != []
  {
    var complete := pages[|pages| - 1] == [];
    && |pages| <= 1 + PageCount(|all|, k)
    && (complete ==> (Listing(Concat(pages), below) <==> CleanBreaks(all, k)))
    && (CleanBreaks(all, k) ==> (complete <==> |pages| == 1 + PageCount(|all|, k)))
  }

  lemma NothingLeft(pages: seq<seq<Entry>>, k: nat)
    requires k > 0 && |pages| == 1 && pages[0] == []
    ensures Exactly(pages, [], {}, k)
  {
    assert pages[1..] == [] && Concat(pages) == [];
    CleanShort([], k);
  }

  ghost predicate SameBreaks(all: seq<Entry>, restAll: seq<Entry>, k: nat) {
    CleanBreaks(all, k) <==> CleanBreaks(restAll, k)
  }

  ghost predicate ListsTogether(a: seq<Entry>, es: set<Entry>, b: seq<Entry>, below: set<Entry>) {
    Listing(a, es) <==> Listing(b, below)
  }

  lemma CleanRest(all: seq<Entry>, es: set<Entry>, k: nat, n: nat, restAll: seq<Entry>)
    requires Listing(all, es) && k > 0 && n == (if k < |all| then k else |all|) && n > 0
    requires Listing(restAll, Upto(es, Some(all[n - 1].createdAt)))
    requires n == |all| || all[k - 1].createdAt != all[k].createdAt
    ensures SameBreaks(all, restAll, k)
    ensures PageCount(|all|, k) == 1 + PageCount(|restAll|, k) && Listing(all[n..], Upto(es, Some(all[n - 1].createdAt)))
  {
    Below(all, es, n, restAll);
    CleanTail(all[n..], restAll, Upto(es, Some(all[n - 1].createdAt)), k);
    CleanHead(all, k, n);
  }

  lemma CleanTail(tail: seq<Entry>, restAll: seq<Entry>, below: set<Entry>, k: nat)
    requires Listing(tail, below) && Listing(restAll, below) && k > 0
    ensures |tail| == |restAll| && SameBreaks(tail, restAll, k)
  {
    SameTimes(tail, restAll, below);
    CleanSame(tail, restAll, below, k);
  }

  lemma CleanHead(all: seq<Entry>, k: nat, n: nat)
    requires k > 0 && n == (if k < |all| then k else |all|) && n > 0
    requires n == |all| || all[k - 1].createdAt != all[k].createdAt
    ensures SameBreaks(all, all[n..], k) && PageCount(|all|, k) == 1 + PageCount(|all| - n, k)
  {
    if n == |all| {
      CleanShort(all, k);
      CleanShort(all[n..], k);
    } else {
      CleanCons(all, k);
    }
  }

  /** A page in front, the break behind it clean. */
  lemma CleanFront(all: seq<Entry>, es: set<Entry>, k: nat, page: seq<Entry>, rest: seq<seq<Entry>>, restAll: seq<Entry>)
    requires Listing(all, es) && all != [] && k > 0 && page == Slice(all, 0, k) && rest != []
    requires Listing(restAll, Upto(es, Some(page[|page| - 1].createdAt)))
    requires Exactly(rest, restAll, Upto(es, Some(page[|page| - 1].createdAt)), k)
    requires |page| == |all| || all[k - 1].createdAt != all[k].createdAt
    ensures Exactly([page] + rest, all, es, k)
  {
    var n := |page|;
    assert page == all[..n] && page[n - 1] == all[n - 1];
    CleanRest(all, es, k, n, restAll);
    Joined(all, es, n, Concat(rest));
    Assembles(page, rest, es, Upto(es, Some(page[n - 1].createdAt)), all, restAll, k);
  }

  lemma Assembles(page: seq<Entry>, rest: seq<seq<Entry>>, es: set<Entry>, below: set<Entry>,
                  all: seq<Entry>, restAll: seq<Entry>, k: nat)
    requires k > 0 && rest != [] && Exactly(rest, restAll, below, k)
    requires PageCount(|all|, k) == 1 + PageCount(|restAll|, k) && SameBreaks(all, restAll, k)
    requires ListsTogether(page + Concat(rest), es, Concat(rest), below)
    ensures Exactly([page] + rest, all, es, k)
  {
    var pages := [page] + rest;
    assert pages[1..] == rest && pages[|pages| - 1] == rest[|rest| - 1] && Concat(pages) == page + Concat(rest);
  }

  /** A page in front, its last row's twin behind the break: the twin is never shown. */
  lemma DirtyFront(all: seq<Entry>, es: set<Entry>, k: nat, page: seq<Entry>, rest: seq<seq<Entry>>, restAll: seq<Entry>)
    requires Listing(all, es) && 0 < k < |all| && page == Slice(all, 0, k) && rest != []
    requires Listing(restAll, Upto(es, Some(page[|page| - 1].createdAt)))
    requires Exactly(rest, restAll, Upto(es, Some(page[|page| - 1].createdAt)), k)
    requires all[k - 1].createdAt == all[k].createdAt && all[k] !in Concat(rest)
    ensures Exactly([page] + rest, all, es, k)
  {
    assert page == all[..k] && page[k - 1] == all[k - 1];
    Below(all, es, k, restAll);
    PageCountMono(|restAll|, |all| - k, k);
    CleanCons(all, k);
    assert all[k] in es;
    Misses(page, rest, es, all, k, all[k]);
  }

  lemma Misses(page: seq<Entry>, rest: seq<seq<Entry>>, es: set<Entry>, all: seq<Entry>, k: nat, twin: Entry)
    requires k > 0 && rest != [] && |rest| <= PageCount(|all|, k) && !CleanBreaks(all, k)
    requires twin in es && twin !in page && twin !in Concat(rest)
    ensures Exactly([page] + rest, all, es, k)
  {
    var pages := [page] + rest;
    assert pages[1..] == rest && Concat(pages) == page + Concat(rest);
    assert twin !in Concat(pages);
  }

  lemma OnePage(page: seq<Entry>, all: seq<Entry>, es: set<Entry>, k: nat)
    requires k > 0 && all != [] && page != []
    ensures Exactly([page], all, es, k)
  {
  }

  lemma LastRow(es: set<Entry>, cursor: Option<Time>, all: seq<Entry>, page: seq<Entry>) returns (t: Time)
    requires Listing(all, Upto(es, cursor)) && page != [] && page <= all
    ensures t == page[|page| - 1].createdAt && (exists x :: x in es && x.createdAt == t)
    ensures Upto(Upto(es, cursor), Some(t)) == Upto(es, Some(t))
  {
    var last := page[|page| - 1];
    t := last.createdAt;
    assert last == all[|page| - 1] && last in all && last in es;
    UptoUpto(es, cursor, t);
  }

  lemma {:induction false} PagesExactly(tables: seq<set<Entry>>, f: Filter, cursor: Option<Time>, pages: seq<seq<Entry>>,
                                        es: set<Entry>) returns (all: seq<Entry>)
    requires Follows(tables, f, cursor, pages) && pages != []
    requires forall i :: 0 <= i < |tables| ==> OnlyNewer(es, Matching(tables[i], f))
    requires if cursor.None? then Matching(tables[0], f) == es else exists x :: x in es && x.createdAt == cursor.value
    ensures Listing(all, Upto(es, cursor)) && Exactly(pages, all, Upto(es, cursor), Limit(f))
    decreases |pages|
  {
    all := PageIs(es, tables[0], f, cursor, pages[0]);
    var page, rest := pages[0], pages[1..];
    assert pages == [page] + rest;
    if all == [] {
      assert Upto(es, cursor) == {} by { assert forall e :: e !in Upto(es, cursor); }
      NothingLeft(pages, Limit(f));
    } else if rest == [] {
      OnePage(page, all, Upto(es, cursor), Limit(f));
    } else {
      var t := LastRow(es, cursor, all, page);
      forall i | 0 <= i < |tables[1..]| ensures OnlyNewer(es, Matching(tables[1..][i], f)) { assert tables[1..][i] == tables[i + 1]; }
      var restAll := PagesExactly(tables[1..], f, Some(t), rest, es);
      if |page| == |all| || all[|page| - 1].createdAt != all[|page|].createdAt {
        CleanFront(all, Upto(es, cursor), Limit(f), page, rest, restAll);
      } else {
        if all[|page|] in Concat(rest) { PagesBelow(tables[1..], f, Some(t), rest, all[|page|]); }
        DirtyFront(all, Upto(es, cursor), Limit(f), page, rest, restAll);
      }
    }
  }

  /** Following next_cursor from the first page, with nothing but newer inserts meanwhile, ends after at most the
      filtered rows divided by the limit, rounded up, and one empty page. A complete following shows exactly those rows
      in descending order, each once, if and only if no page break of the listing falls between two rows of one creation
      time; and then it takes exactly that many pages. */
  lemma KeysetExactly(tables: seq<set<Entry>>, f: Filter, pages: seq<seq<Entry>>, all: seq<Entry>)
    requires pages != [] && Follows(tables, f, None, pages) && Listing(all, Matching(tables[0], f))
    requires forall i :: 0 <= i < |tables| ==> OnlyNewer(Matching(tables[0], f), Matching(tables[i], f))
    ensures Exactly(pages, all, Matching(tables[0], f), Limit(f))
  {
    var es := Matching(tables[0], f);
    assert Upto(es, None) == es;
    var other := PagesExactly(tables, f, None, pages, es);
    SameTimes(all, other, es);
    CleanSame(all, other, es, Limit(f));
  }

  ghost predicate DistinctTimes(es: set<Entry>) {
    forall a, b :: a in es && b in es && a.createdAt == b.createdAt ==> a == b
  }

  /** Distinct creation times make every break clean. */
  lemma KeysetPartitions(tables: seq<set<Entry>>, f: Filter, pages: seq<seq<Entry>>, all: seq<Entry>)
    requires pages != [] && Follows(tables, f, None, pages) && Listing(all, Matching(tables[0], f))
    requires forall i :: 0 <= i < |tables| ==> OnlyNewer(Matching(tables[0], f), Matching(tables[i], f))
    requires DistinctTimes(Matching(tables[0], f))
    ensures pages[|pages| - 1] == [] <==> |pages| == 1 + PageCount(|all|, Limit(f))
    ensures pages[|pages| - 1] == [] ==> Listing(Concat(pages), Matching(tables[0], f))
  {
    KeysetExactly(tables, f, pages, all);
    var k := Limit(f);
    forall j: nat | 0 < j && 0 < Rank(j, k) < |all| ensures all[Rank(j, k) - 1].createdAt != all[Rank(j, k)].createdAt {
      assert all[Rank(j, k) - 1] in all && all[Rank(j, k)] in all;
    }
  }

  // ---- there is always a complete following ----

  lemma {:induction false} ListingExists(es: set<Entry>) returns (all: seq<Entry>)
    ensures Listing(all, es)
    decreases es
  {
    if es == {} {
      all := [];
    } else {
      var e := NewestExists(es);
      var rest := ListingExists(es - {e});
      all := [e] + rest;
    }
  }

  lemma {:induction false} NewestExists(es: set<Entry>) returns (e: Entry)
    requires es != {}
    ensures e in es && forall x :: x in es ==> x.createdAt <= e.createdAt
    decreases es
  {
    e :| e in es;
    if es != {e} {
      var x := NewestExists(es - {e});
      if x.createdAt > e.createdAt { e := x; }
    }
  }

  /** Always the same table. */
  function Constant(rows: set<Entry>, n: nat): seq<set<Entry>> {
    seq(n, i => rows)
  }

  lemma {:induction false} FollowingExists(rows: set<Entry>, f: Filter, cursor: Option<Time>) returns (pages: seq<seq<Entry>>)
    ensures pages != [] && Follows(Constant(rows, |pages|), f, cursor, pages) && pages[|pages| - 1] == []
    decreases Upto(Matching(rows, f), cursor)
  {
    var f1 := f.(cursor := cursor, offset := 0);
    assert Matching(rows, f1) == Matching(rows, f);
    var all := ListingExists(Upto(Matching(rows, f1), cursor));
    var page := Slice(all, 0, Limit(f1));
    assert IsPage(rows, f1, page);
    if page == [] {
      pages := [page];
    } else {
      var last := page[|page| - 1];
      assert last == all[|page| - 1] && last in all && last in Upto(Matching(rows, f), cursor);
      assert last !in Upto(Matching(rows, f), Some(last.createdAt));
      var rest := FollowingExists(rows, f, Some(last.createdAt));
      pages := [page] + rest;
      assert pages[1..] == rest && Constant(rows, |pages|)[1..] == Constant(rows, |rest|);
      assert pages[|pages| - 1] == rest[|rest| - 1];
    }
  }

  /** A complete following of one table. */
  ghost predicate Complete(rows: set<Entry>, f: Filter, pages: seq<seq<Entry>>) {
    pages != [] && Follows(Constant(rows, |pages|), f, None, pages) && pages[|pages| - 1] == []
  }

  /** For a table at rest: all complete followings partition the rows, or none does, by where the breaks fall. */
  lemma PartitionsExactly(rows: set<Entry>, f: Filter, all: seq<Entry>)
    requires Listing(all, Matching(rows, f))
    ensures (forall pages :: Complete(rows, f, pages) ==> Listing(Concat(pages), Matching(rows, f))) <==> CleanBreaks(all, Limit(f))
    ensures (exists pages :: Complete(rows, f, pages) && Listing(Concat(pages), Matching(rows, f))) <==> CleanBreaks(all, Limit(f))
  {
    forall pages | Complete(rows, f, pages) ensures Listing(Concat(pages), Matching(rows, f)) <==> CleanBreaks(all, Limit(f)) {
      KeysetExactly(Constant(rows, |pages|), f, pages, all);
    }
    var pages := FollowingExists(rows, f, None);
    assert Complete(rows, f, pages);
  }

  /** Equal creation times break it: the cursor of one row hides its twin, and no page ever shows it. */
  lemma TwinIsSkipped(a: Entry, b: Entry)
    requires a != b && a.createdAt == b.createdAt
    ensures var f := Filter(None, None, None, 1, 0, None); var t := {a, b};
      Follows([t, t], f, None, [[a], []]) && b !in Concat([[a], []])
  {
    var f, t := Filter(None, None, None, 1, 0, None), {a, b};
    TwinPages(a, b, f);
    assert [t, t][1..] == [t] && [[a], []][1..] == [[]];
    assert Follows([t], f, Some(a.createdAt), [[]]);
    assert Concat([[]]) == [] && Concat([[a], []]) == [a];
  }

  lemma TwinPages(a: Entry, b: Entry, f: Filter)
    requires a != b && a.createdAt == b.createdAt && Unfiltered(f) && f.limit == 1
    ensures IsPage({a, b}, f.(cursor := None, offset := 0), [a])
    ensures IsPage({a, b}, f.(cursor := Some(a.createdAt), offset := 0), [])
  {
    var t := {a, b};
    var f1, f2 := f.(cursor := None, offset := 0), f.(cursor := Some(a.createdAt), offset := 0);
    assert Matching(t, f1) == t && Upto(t, None) == t;
    assert Listing([a, b], t) && Slice([a, b], 0, 1) == [a];
    assert Matching(t, f2) == t && Upto(t, f2.cursor) == {};
    assert Listing([], {}) && Slice([], 0, 1) == [];
  }
}
