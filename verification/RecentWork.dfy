// The bounded newest-first projection of Relay's job history, and the overview
// list that consumes it.

module RecentWork {
  import opened Common

  datatype Item = Item(id: Id, state: Id, occurredAt: Time, detail: Id)

  const LIMIT := 12

  // ------------------------------------------------------------ the order

  /** Time descending, then id ascending: strictly before. */
  predicate Before(a: Item, b: Item) {
    a.occurredAt > b.occurredAt || (a.occurredAt == b.occurredAt && a.id < b.id)
  }

  predicate Sorted(s: seq<Item>) {
    forall i, j :: 0 <= i < j < |s| ==> !Before(s[j], s[i])
  }

  predicate DistinctIds(s: seq<Item>) {
    forall i, j :: 0 <= i < j < |s| ==> s[i].id != s[j].id
  }

  // -------------------------------------------------- the full sort, as spec

  function Insert(s: seq<Item>, x: Item): seq<Item> {
    if s == [] || Before(x, s[0]) then [x] + s else [s[0]] + Insert(s[1..], x)
  }

  function Sort(s: seq<Item>): seq<Item> {
    if s == [] then [] else Insert(Sort(s[..|s| - 1]), s[|s| - 1])
  }

  lemma FirstStays(s: seq<Item>, rest: seq<Item>, x: Item)
    requires s != [] && Sorted(s) && !Before(x, s[0])
    requires Sorted(rest) && multiset(rest) == multiset(s[1..]) + multiset{x}
    ensures Sorted([s[0]] + rest)
  {
    forall k | 0 <= k < |rest|
      ensures !Before(rest[k], s[0])
    {
      assert rest[k] in multiset(rest);
      assert rest[k] == x || rest[k] in s[1..];
    }
  }

  lemma GoesFirst(s: seq<Item>, x: Item)
    requires Sorted(s) && (s == [] || Before(x, s[0]))
    ensures Sorted([x] + s)
  {
    var r := [x] + s;
    forall i, j | 0 <= i < j < |r|
      ensures !Before(r[j], r[i])
    {
      if i == 0 && j > 1 {
        assert !Before(s[j - 1], s[0]);
      }
    }
  }

  lemma {:induction false} InsertKeeps(s: seq<Item>, x: Item)
    requires Sorted(s)
    ensures Sorted(Insert(s, x)) && multiset(Insert(s, x)) == multiset(s) + multiset{x} && |Insert(s, x)| == |s| + 1
  {
    if s == [] || Before(x, s[0]) {
      GoesFirst(s, x);
    } else {
      InsertKeeps(s[1..], x);
      assert s == [s[0]] + s[1..];
      FirstStays(s, Insert(s[1..], x), x);
    }
  }

  /** Sorting gives a sorted rearrangement. */
  lemma {:induction false} SortSorts(s: seq<Item>)
    ensures Sorted(Sort(s)) && multiset(Sort(s)) == multiset(s) && |Sort(s)| == |s|
  {
    if s != [] {
      SortSorts(s[..|s| - 1]);
      InsertKeeps(Sort(s[..|s| - 1]), s[|s| - 1]);
      assert s == s[..|s| - 1] + [s[|s| - 1]];
    }
  }

  // ---------------------------------------------------- bounded insertion

  function Take(s: seq<Item>, n: nat): seq<Item> {
    if |s| <= n then s else s[..n]
  }

  /** Where the backwards search stops. */
  function Position(s: seq<Item>, x: Item): nat
    ensures Position(s, x) <= |s|
  {
    if s == [] then 0
    else if Before(x, s[|s| - 1]) then Position(s[..|s| - 1], x)
    else |s|
  }

  lemma {:induction false} InsertAt(s: seq<Item>, x: Item, at: nat)
    requires Sorted(s) && at <= |s|
    requires forall k :: at <= k < |s| ==> Before(x, s[k])
    requires at > 0 ==> !Before(x, s[at - 1])
    ensures Insert(s, x) == s[..at] + [x] + s[at..]
  {
    if at == 0 {
      assert s[..0] + [x] + s[0..] == [x] + s;
    } else {
      assert !Before(x, s[0]) by {
        if at > 1 {
          assert !Before(s[at - 1], s[0]);
        }
      }
      InsertAt(s[1..], x, at - 1);
      assert s[..at] == [s[0]] + s[1..][..at - 1];
      assert s[at..] == s[1..][at - 1..];
      assert s[..at] + [x] + s[at..] == [s[0]] + (s[1..][..at - 1] + [x] + s[1..][at - 1..]);
    }
  }

  /** Cutting before inserting loses nothing: the first `n` of a longer list
      only depend on its own first `n`. */
  lemma {:induction false} TakeInsert(s: seq<Item>, x: Item, n: nat)
    requires n >= 1
    ensures Take(Insert(Take(s, n), x), n) == Take(Insert(s, x), n)
    decreases |s|
  {
    if |s| <= n {
    } else if Before(x, s[0]) {
      assert s[..n][0] == s[0];
      assert Insert(s, x) == [x] + s && Insert(s[..n], x) == [x] + s[..n];
      assert Take([x] + s, n) == [x] + s[..n - 1] == Take([x] + s[..n], n);
    } else if n == 1 {
      assert s[..1] == [s[0]];
      assert Insert([s[0]], x) == [s[0]] + Insert([s[0]][1..], x);
    } else {
      TakeInsert(s[1..], x, n - 1);
      assert s[..n][1..] == s[1..][..n - 1];
      assert s[..n][0] == s[0];
      InsertLength(s[1..], x);
      InsertLength(s[1..][..n - 1], x);
      assert Insert(s, x) == [s[0]] + Insert(s[1..], x);
      assert Insert(s[..n], x) == [s[0]] + Insert(s[1..][..n - 1], x);
      TakeCons(s[0], Insert(s[1..], x), n);
      TakeCons(s[0], Insert(s[1..][..n - 1], x), n);
    }
  }

  lemma TakeCons(a: Item, s: seq<Item>, n: nat)
    requires n >= 1
    ensures Take([a] + s, n) == [a] + Take(s, n - 1)
  {
  }

  lemma {:induction false} InsertLength(s: seq<Item>, x: Item)
    ensures |Insert(s, x)| == |s| + 1
  {
    if s != [] && !Before(x, s[0]) {
      InsertLength(s[1..], x);
    }
  }

  lemma AppendWhenLast(s: seq<Item>, x: Item)
    requires Sorted(s) && s != [] && !Before(x, s[|s| - 1])
    ensures Insert(s, x) == s + [x]
  {
    InsertAt(s, x, |s|);
    assert s[..|s|] + [x] + s[|s|..] == s + [x];
  }

  /** One step of the single pass: skip a candidate that cannot make the cut,
      otherwise search backwards for its place and drop what falls off. */
  method InsertBounded(newest: seq<Item>, candidate: Item, limit: nat) returns (r: seq<Item>)
    requires 1 <= limit && |newest| <= limit && Sorted(newest)
    ensures r == Take(Insert(newest, candidate), limit)
  {
    InsertLength(newest, candidate);
    if |newest| == limit && !Before(candidate, newest[|newest| - 1]) {
      AppendWhenLast(newest, candidate);
      return newest;
    }
    var at := |newest|;
    while at > 0 && Before(candidate, newest[at - 1])
      invariant 0 <= at <= |newest|
      invariant forall k :: at <= k < |newest| ==> Before(candidate, newest[k])
    {
      at := at - 1;
    }
    InsertAt(newest, candidate, at);
    r := newest[..at] + [candidate] + newest[at..];
    if |r| > limit {
      r := r[..|r| - 1];
    }
  }

  lemma TakeSorted(s: seq<Item>, n: nat)
    requires Sorted(s)
    ensures Sorted(Take(s, n)) && |Take(s, n)| <= n
  {
  }

  datatype Projection = Projection(items: seq<Item>, total: nat, truncated: bool)

  const HISTORY_BOUND := 1_000_000

  /** The single bounded pass over the whole history returns exactly the first
      `limit` elements of the full sort, or fails on a bound. */
  method Newest(history: seq<Item>, limit: int) returns (p: Option<Projection>)
    ensures p.Some? <==> |history| <= 1_000_000 && 1 <= limit <= 12
    ensures p.Some? ==> p.value.items == Take(Sort(history), limit)
    ensures p.Some? ==> p.value.total == |history| && (p.value.truncated <==> |history| > |p.value.items|)
  {
    if |history| > HISTORY_BOUND || limit < 1 || limit > LIMIT {
      return None;
    }
    var newest := [];
    for i := 0 to |history|
      invariant newest == Take(Sort(history[..i]), limit)
    {
      var done := history[..i];
      assert history[..i + 1][..i] == done;
      SortSorts(done);
      TakeSorted(Sort(done), limit);
      TakeInsert(Sort(done), history[i], limit);
      newest := InsertBounded(newest, history[i], limit);
    }
    assert history[..|history|] == history;
    p := Some(Projection(newest, |history|, |history| > |newest|));
  }

  /** `a` is listed no later than `b`: more recent, or as recent and by id. */
  predicate NoLater(a: Item, b: Item) {
    if a.occurredAt == b.occurredAt then a.id <= b.id else b.occurredAt < a.occurredAt
  }

  lemma SortedMeans(s: seq<Item>, i: nat, j: nat)
    requires Sorted(s) && i < j < |s|
    ensures NoLater(s[i], s[j])
  {
    assert !Before(s[j], s[i]);
  }

  /** What the cut leaves out comes no earlier than what it keeps. */
  lemma LeftOutIsLater(sorted: seq<Item>, n: nat, x: Item, i: nat)
    requires Sorted(sorted) && n <= |sorted| && i < n && x in sorted[n..]
    ensures NoLater(sorted[i], x)
  {
    var k :| 0 <= k < |sorted[n..]| && sorted[n..][k] == x;
    SortedMeans(sorted, i, n + k);
  }

  lemma CutConserves(sorted: seq<Item>, n: nat)
    requires n <= |sorted|
    ensures multiset(sorted[..n]) <= multiset(sorted) && multiset(sorted) - multiset(sorted[..n]) == multiset(sorted[n..])
  {
    assert sorted == sorted[..n] + sorted[n..];
  }

  /** What is listed: as many of the history as the limit allows, in order, and
      nothing left out comes before anything listed. */
  lemma NewestMeans(history: seq<Item>, limit: nat)
    ensures var items := Take(Sort(history), limit);
      && |items| == (if |history| < limit then |history| else limit)
      && multiset(items) <= multiset(history)
      && (forall i, j :: 0 <= i < j < |items| ==> NoLater(items[i], items[j]))
      && (forall x, i :: x in multiset(history) - multiset(items) && 0 <= i < |items| ==> NoLater(items[i], x))
  {
    var sorted := Sort(history);
    SortSorts(history);
    var n := if |sorted| <= limit then |sorted| else limit;
    var items := sorted[..n];
    assert Take(sorted, limit) == items;
    CutConserves(sorted, n);
    forall i, j | 0 <= i < j < |items|
      ensures NoLater(items[i], items[j])
    {
      SortedMeans(sorted, i, j);
    }
    forall x, i | x in multiset(history) - multiset(items) && 0 <= i < |items|
      ensures NoLater(items[i], x)
    {
      assert x in sorted[n..];
      LeftOutIsLater(sorted, n, x, i);
    }
  }

  // ------------------------------------------- the overview list it feeds

  datatype ListResult = Listed(items: seq<Item>, total: nat, truncated: bool, ordered: bool) | ListFailed

  /** `list` for recent work: sort again, then check that the declared total,
      truncation and order agree with what arrived. */
  function List(items: seq<Item>, total: Option<nat>, truncated: bool, newestFirst: bool): ListResult {
    if |items| > HISTORY_BOUND || !DistinctIds(items) then ListFailed
    else
      var sorted := Sort(items);
      var count := if total.Some? then total.value else |items|;
      if count > HISTORY_BOUND then ListFailed
      else if (count > |items| && |items| != LIMIT) || count < |items|
              || (count > |items| && (!truncated || !newestFirst)) then ListFailed
      else Listed(Take(sorted, LIMIT), count, count > LIMIT, count > LIMIT)
  }

  lemma {:induction false} SortedIsFixed(s: seq<Item>)
    requires Sorted(s)
    ensures Sort(s) == s
  {
    if s != [] {
      var front, last := s[..|s| - 1], s[|s| - 1];
      SortedIsFixed(front);
      if front == [] {
        assert Insert([], last) == [last];
      } else {
        assert !Before(last, front[|front| - 1]);
        AppendWhenLast(front, last);
      }
      assert s == front + [last];
    }
  }

  lemma {:induction false} DistinctAfterSort(s: seq<Item>, t: seq<Item>)
    requires DistinctIds(s) && multiset(t) == multiset(s)
    ensures DistinctIds(t)
  {
    forall i, j | 0 <= i < j < |t|
      ensures t[i].id != t[j].id
    {
      assert t[i] in multiset(s) && t[j] in multiset(s);
      var a :| 0 <= a < |s| && s[a] == t[i];
      var b :| 0 <= b < |s| && s[b] == t[j];
      if a == b {
        MultiplicityTwo(t, i, j);
        MultiplicityOne(s, a);
      }
    }
  }

  lemma MultiplicityTwo(t: seq<Item>, i: nat, j: nat)
    requires i < j < |t| && t[i] == t[j]
    ensures multiset(t)[t[i]] >= 2
  {
    assert t == t[..i] + [t[i]] + t[i + 1..j] + [t[j]] + t[j + 1..];
  }

  lemma MultiplicityOne(s: seq<Item>, a: nat)
    requires DistinctIds(s) && a < |s|
    ensures multiset(s)[s[a]] == 1
  {
    assert s == s[..a] + [s[a]] + s[a + 1..];
    assert s[a] !in s[..a] && s[a] !in s[a + 1..];
  }

  /** What the store projects, with the default limit, always passes the
      overview's consistency check and comes out unchanged: the twelve newest
      jobs, the true total, and an order label exactly when something was cut. */
  lemma ProjectionIsListed(history: seq<Item>, p: Projection)
    requires DistinctIds(history) && |history| <= 1_000_000
    requires p.items == Take(Sort(history), 12) && p.total == |history| && (p.truncated <==> |history| > |p.items|)
    ensures List(p.items, Some(p.total), p.truncated, true)
         == Listed(Take(Sort(history), 12), |history|, |history| > 12, |history| > 12)
  {
    SortSorts(history);
    var sorted := Sort(history);
    TakeSorted(sorted, 12);
    DistinctAfterSort(history, sorted);
    TakeDistinct(sorted, 12);
    SortedIsFixed(p.items);
    CutIsListed(p.items, p.total, p.truncated);
  }

  lemma TakeDistinct(s: seq<Item>, n: nat)
    requires DistinctIds(s)
    ensures DistinctIds(Take(s, n)) && |Take(s, n)| == if |s| <= n then |s| else n
  {
  }

  lemma CutIsListed(items: seq<Item>, total: nat, truncated: bool)
    requires DistinctIds(items) && Sort(items) == items && total <= 1_000_000
    requires |items| == (if total <= 12 then total else 12) && (truncated <==> total > |items|)
    ensures List(items, Some(total), truncated, true) == Listed(items, total, total > 12, total > 12)
  {
  }
}
