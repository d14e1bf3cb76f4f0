// Memory's bounded scan for authority claims in an untrusted value: a worklist
// over an object graph that may share and may loop.

module AuthorityScan {
  import opened Common

  // ------------------------------------------------------------- the graph

  /** An enumerable key of an object, in enumeration order; `own` is false for
      an inherited one. */
  datatype Entry = Entry(key: string, own: bool, child: Option<Id>)

  type Heap = map<Id, seq<Entry>>

  ghost predicate Closed(h: Heap) {
    forall o, i :: o in h && 0 <= i < |h[o]| && h[o][i].child.Some? ==> h[o][i].child.value in h
  }

  const MAX_ENTRIES := 1024

  function Lower(c: char): char {
    if 'A' <= c <= 'Z' then (c as int - 'A' as int + 'a' as int) as char else c
  }

  predicate Alphanumeric(c: char) {
    'A' <= c <= 'Z' || 'a' <= c <= 'z' || '0' <= c <= '9'
  }

  /** Letters and digits only, in lower case. */
  function Normalized(key: string): string {
    if key == "" then ""
    else (if Alphanumeric(key[0]) then [Lower(key[0])] else "") + Normalized(key[1..])
  }

  /** What a key is compared by: joining keys joins it, and of a single character
      only letters and digits stay, in lower case. */
  lemma {:induction false} NormalizedJoins(a: string, b: string)
    ensures Normalized(a + b) == Normalized(a) + Normalized(b)
  {
    if a == "" {
      assert a + b == b;
    } else {
      var first := if Alphanumeric(a[0]) then [Lower(a[0])] else "";
      var rest, all := Normalized(a[1..]), a + b;
      NormalizedJoins(a[1..], b);
      assert all[0] == a[0] && all[1..] == a[1..] + b;
      assert Normalized(all) == first + (rest + Normalized(b));
      assert first + (rest + Normalized(b)) == (first + rest) + Normalized(b);
    }
  }

  lemma NormalizedCharacter(c: char)
    ensures Normalized([c]) ==
      if 'a' <= c <= 'z' || '0' <= c <= '9' then [c]
      else if 'A' <= c <= 'Z' then [(c as int + 32) as char]
      else ""
  {
    assert [c][1..] == "";
  }

  // --------------------------------------------------------- reachability

  predicate Points(h: Heap, from: Id, to: Id) {
    from in h && exists i :: 0 <= i < |h[from]| && h[from][i].own && h[from][i].child == Some(to)
  }

  ghost predicate Path(h: Heap, path: seq<Id>) {
    forall i {:trigger path[i]} :: 0 <= i < |path| - 1 ==> Points(h, path[i], path[i + 1])
  }

  ghost predicate Reachable(h: Heap, root: Option<Id>, o: Id) {
    root.Some? && exists path :: Leads(h, root.value, path, o)
  }

  ghost predicate Leads(h: Heap, root: Id, path: seq<Id>, o: Id) {
    path != [] && path[0] == root && path[|path| - 1] == o && Path(h, path)
  }

  lemma RootReachable(h: Heap, root: Id)
    ensures Reachable(h, Some(root), root)
  {
    assert Leads(h, root, [root], root);
  }

  lemma StepReachable(h: Heap, root: Option<Id>, o: Id, next: Id)
    requires Reachable(h, root, o) && Points(h, o, next)
    ensures Reachable(h, root, next)
  {
    var path :| Leads(h, root.value, path, o);
    var longer := path + [next];
    forall i | 0 <= i < |longer| - 1
      ensures Points(h, longer[i], longer[i + 1])
    {
      if i < |path| - 1 {
        assert longer[i] == path[i] && longer[i + 1] == path[i + 1];
      }
    }
    assert Leads(h, root.value, longer, next);
  }

  ghost predicate ClosedUnder(h: Heap, seen: set<Id>) {
    forall o, next :: o in seen && Points(h, o, next) ==> next in seen
  }

  /** A set that holds the root and is closed holds everything reachable. */
  lemma {:induction false} ClosureCovers(h: Heap, root: Id, seen: set<Id>, path: seq<Id>, o: Id)
    requires root in seen && ClosedUnder(h, seen) && Leads(h, root, path, o)
    ensures o in seen
    decreases |path|
  {
    if |path| > 1 {
      var front := path[..|path| - 1];
      forall i | 0 <= i < |front| - 1
        ensures Points(h, front[i], front[i + 1])
      {
        assert front[i] == path[i] && front[i + 1] == path[i + 1];
      }
      assert Points(h, path[|path| - 2], path[|path| - 1]);
      ClosureCovers(h, root, seen, front, path[|path| - 2]);
    }
  }

  // --------------------------------------------------------------- counting

  function OwnCount(entries: seq<Entry>): nat {
    if entries == [] then 0
    else OwnCount(entries[..|entries| - 1]) + if entries[|entries| - 1].own then 1 else 0
  }

  /** Own entries of all objects of the set. */
  ghost function Total(h: Heap, s: set<Id>): nat
    requires s <= h.Keys
    decreases |s|
  {
    if s == {} then 0
    else
      var o :| o in s;
      OwnCount(h[o]) + Total(h, s - {o})
  }

  lemma {:induction false} TotalAdds(h: Heap, s: set<Id>, o: Id)
    requires s <= h.Keys && o in s
    ensures Total(h, s) == OwnCount(h[o]) + Total(h, s - {o})
    decreases |s|
  {
    var picked :| picked in s && Total(h, s) == OwnCount(h[picked]) + Total(h, s - {picked});
    if picked != o {
      TotalAdds(h, s - {picked}, o);
      TotalAdds(h, s - {o}, picked);
      assert s - {picked} - {o} == s - {o} - {picked};
    }
  }

  lemma {:induction false} TotalGrows(h: Heap, small: set<Id>, large: set<Id>)
    requires small <= large <= h.Keys
    ensures Total(h, small) <= Total(h, large)
    decreases |large|
  {
    if small != large {
      var o :| o in large && o !in small;
      TotalAdds(h, large, o);
      TotalGrows(h, small, large - {o});
    }
  }

  lemma {:induction false} OwnPrefix(entries: seq<Entry>, n: nat)
    requires n <= |entries|
    ensures OwnCount(entries[..n]) <= OwnCount(entries)
    decreases |entries|
  {
    if n < |entries| {
      assert entries[..|entries| - 1][..n] == entries[..n];
      OwnPrefix(entries[..|entries| - 1], n);
    } else {
      assert entries[..n] == entries;
    }
  }

  // ------------------------------------------------------------- categories

  ghost predicate Claims(entries: seq<Entry>, authority: set<string>, c: string) {
    c in authority && exists i :: 0 <= i < |entries| && entries[i].own && Normalized(entries[i].key) == c
  }

  ghost predicate ClaimedIn(h: Heap, s: set<Id>, authority: set<string>, c: string) {
    exists o :: o in s && o in h && Claims(h[o], authority, c)
  }

  // ---------------------------------------------------------------- the scan

  ghost predicate Frontier(h: Heap, root: Option<Id>, seen: set<Id>, pending: seq<Option<Id>>) {
    && seen <= h.Keys
    && (forall o :: o in seen ==> Reachable(h, root, o))
    && (forall o :: Some(o) in pending ==> o in h && Reachable(h, root, o))
    && (root.Some? ==> root.value in seen || root in pending)
  }

  ghost predicate Followed(h: Heap, seen: set<Id>, pending: seq<Option<Id>>) {
    forall o, next :: o in seen && Points(h, o, next) ==> next in seen || Some(next) in pending
  }

  /** A child held under one of the first `n` own entries. */
  ghost predicate ChildIn(entries: seq<Entry>, n: nat, x: Option<Id>) {
    x.Some? && exists i :: 0 <= i < n && i < |entries| && entries[i].own && entries[i].child == x
  }

  /** The inner loop over one object: counts own entries against the bound,
      collects authority keys and queues the children. */
  method ExamineEntries(entries: seq<Entry>, authority: set<string>, queue: seq<Option<Id>>, found: set<string>, count: nat)
    returns (pending: seq<Option<Id>>, categories: set<string>, examined: nat, full: bool)
    requires count <= MAX_ENTRIES
    ensures full <==> count + OwnCount(entries) > MAX_ENTRIES
    ensures !full ==> examined == count + OwnCount(entries)
    ensures !full ==> forall x :: x in pending <==> x in queue || ChildIn(entries, |entries|, x)
    ensures forall c :: c in categories ==> c in found || Claims(entries, authority, c)
    ensures !full ==> forall c :: c in found || Claims(entries, authority, c) ==> c in categories
  {
    pending, categories, examined, full := queue, found, count, false;
    for i := 0 to |entries|
      invariant examined == count + OwnCount(entries[..i]) <= MAX_ENTRIES
      invariant forall x :: x in pending <==> x in queue || ChildIn(entries, i, x)
      invariant forall c :: c in categories <==> c in found || Claims(entries[..i], authority, c)
    {
      var e := entries[i];
      assert entries[..i + 1][..i] == entries[..i];
      ClaimsNext(entries, authority, i);
      if !e.own {
        continue;
      }
      if examined == MAX_ENTRIES {
        OwnPrefix(entries, i + 1);
        ClaimsPrefix(entries, authority, i);
        full := true;
        return;
      }
      examined := examined + 1;
      if Normalized(e.key) in authority {
        categories := categories + {Normalized(e.key)};
      }
      if e.child.Some? {
        pending := pending + [e.child];
      }
    }
    assert entries[..|entries|] == entries;
  }

  lemma ClaimsNext(entries: seq<Entry>, authority: set<string>, i: nat)
    requires i < |entries|
    ensures forall c :: Claims(entries[..i + 1], authority, c) <==>
      Claims(entries[..i], authority, c) || (c in authority && entries[i].own && Normalized(entries[i].key) == c)
  {
    var now, next := entries[..i], entries[..i + 1];
    assert next[i] == entries[i] && forall k :: 0 <= k < i ==> next[k] == now[k];
    forall c | Claims(now, authority, c)
      ensures Claims(next, authority, c)
    {
      var k :| 0 <= k < |now| && now[k].own && Normalized(now[k].key) == c;
      assert next[k] == now[k];
    }
  }

  lemma ClaimsPrefix(entries: seq<Entry>, authority: set<string>, i: nat)
    requires i <= |entries|
    ensures forall c :: Claims(entries[..i], authority, c) ==> Claims(entries, authority, c)
  {
    forall c | Claims(entries[..i], authority, c)
      ensures Claims(entries, authority, c)
    {
      var k :| 0 <= k < i && entries[..i][k].own && Normalized(entries[..i][k].key) == c;
      assert entries[k] == entries[..i][k];
    }
  }

  lemma ChildPoints(h: Heap, o: Id, next: Id)
    requires o in h
    ensures ChildIn(h[o], |h[o]|, Some(next)) <==> Points(h, o, next)
  {
  }

  /** Popping an object, seeing it and queueing its children keeps the frontier. */
  lemma ExamineFollows(h: Heap, root: Option<Id>, seen: set<Id>, o: Id, rest: seq<Option<Id>>, pending: seq<Option<Id>>)
    requires Closed(h) && Frontier(h, root, seen, rest + [Some(o)]) && Followed(h, seen, rest + [Some(o)])
    requires o in h && Reachable(h, root, o)
    requires forall x :: x in pending <==> x in rest || ChildIn(h[o], |h[o]|, x)
    ensures Frontier(h, root, seen + {o}, pending) && Followed(h, seen + {o}, pending)
  {
    forall n | Some(n) in pending
      ensures n in h && Reachable(h, root, n)
    {
      if Some(n) in rest {
        assert Some(n) in rest + [Some(o)];
      } else {
        ChildPoints(h, o, n);
        StepReachable(h, root, o, n);
      }
    }
    forall from: Id, next: Id | from in seen + {o} && Points(h, from, next)
      ensures next in seen + {o} || Some(next) in pending
    {
      if from == o {
        ChildPoints(h, o, next);
      } else {
        assert next in seen || Some(next) in rest + [Some(o)];
      }
    }
  }

  /** Popping something already seen, or nothing, keeps the frontier too. */
  lemma SkipFollows(h: Heap, root: Option<Id>, seen: set<Id>, rest: seq<Option<Id>>, top: Option<Id>)
    requires Frontier(h, root, seen, rest + [top]) && Followed(h, seen, rest + [top])
    requires top.Some? ==> top.value in seen
    ensures Frontier(h, root, seen, rest) && Followed(h, seen, rest)
  {
    assert forall x :: x in rest + [top] <==> x in rest || x == top;
  }

  lemma ClaimedGrows(h: Heap, seen: set<Id>, o: Id, authority: set<string>)
    requires o in h
    ensures forall c :: ClaimedIn(h, seen + {o}, authority, c) <==> ClaimedIn(h, seen, authority, c) || Claims(h[o], authority, c)
  {
  }

  lemma ClaimedWithin(h: Heap, small: set<Id>, large: set<Id>, authority: set<string>)
    requires small <= large
    ensures forall c :: ClaimedIn(h, small, authority, c) ==> ClaimedIn(h, large, authority, c)
  {
  }

  /** The objects reachable from the root, as the set the scan ends with. */
  lemma SeenIsReachable(h: Heap, root: Option<Id>, seen: set<Id>)
    requires Frontier(h, root, seen, []) && Followed(h, seen, [])
    ensures forall o :: o in seen <==> Reachable(h, root, o)
  {
    forall o | Reachable(h, root, o)
      ensures o in seen
    {
      var path :| Leads(h, root.value, path, o);
      ClosureCovers(h, root.value, seen, path, o);
    }
  }

  /** `all` is exactly what is reachable. */
  ghost predicate Extent(h: Heap, root: Option<Id>, all: set<Id>) {
    all <= h.Keys && forall o {:trigger o in all} :: o in all <==> Reachable(h, root, o)
  }

  ghost function ReachableSet(h: Heap, root: Option<Id>): (all: set<Id>)
    requires Closed(h) && (root.Some? ==> root.value in h)
    ensures Extent(h, root, all)
  {
    ReachableInHeap(h, root);
    set o | o in h && Reachable(h, root, o)
  }

  lemma ReachableInHeap(h: Heap, root: Option<Id>)
    requires Closed(h) && (root.Some? ==> root.value in h)
    ensures forall o :: Reachable(h, root, o) ==> o in h
  {
    forall o | Reachable(h, root, o)
      ensures o in h
    {
      var path :| Leads(h, root.value, path, o);
      ClosureCovers(h, root.value, h.Keys, path, o);
    }
  }

  /** Terminates on every finite graph. It reports exhaustion exactly when the
      reachable objects hold more than 1024 own entries in all, and otherwise
      exactly the authority keys found on reachable objects. */
  method ScanAuthorityCategories(h: Heap, root: Option<Id>, authority: set<string>)
    returns (categories: set<string>, exhausted: bool)
    requires Closed(h) && (root.Some? ==> root.value in h)
    ensures exhausted <==> Total(h, ReachableSet(h, root)) > 1024
    ensures !exhausted ==> forall c :: c in categories <==> ClaimedIn(h, ReachableSet(h, root), authority, c)
    ensures exhausted ==> forall c :: c in categories ==> ClaimedIn(h, ReachableSet(h, root), authority, c)
  {
    ghost var all := ReachableSet(h, root);
    categories, exhausted := {}, false;
    var pending: seq<Option<Id>> := [root];
    var visited: set<Id> := {};
    var examined := 0;
    if root.Some? {
      RootReachable(h, root.value);
    }
    while |pending| > 0
      invariant Frontier(h, root, visited, pending) && Followed(h, visited, pending)
      invariant examined == Total(h, visited) <= MAX_ENTRIES
      invariant forall c :: c in categories <==> ClaimedIn(h, visited, authority, c)
      decreases h.Keys - visited, |pending|
    {
      var current := pending[|pending| - 1];
      ghost var queued := pending;
      pending := pending[..|pending| - 1];
      assert queued == pending + [current];
      if current.None? || current.value in visited {
        SkipFollows(h, root, visited, pending, current);
        continue;
      }
      assert current in queued;
      ghost var seen, rest := visited, pending;
      visited := visited + {current.value};
      VisitCounts(h, seen, current.value);
      ClaimedGrows(h, seen, current.value, authority);
      pending, categories, examined, exhausted := ExamineEntries(h[current.value], authority, pending, categories, examined);
      if exhausted {
        VisitedWithin(h, root, seen, current.value, queued, all);
        TotalGrows(h, visited, all);
        ClaimedWithin(h, visited, all, authority);
        return;
      }
      ExamineFollows(h, root, seen, current.value, rest, pending);
    }
    SeenIsReachable(h, root, visited);
    assert visited == all;
  }

  lemma VisitCounts(h: Heap, seen: set<Id>, o: Id)
    requires seen <= h.Keys && o in h && o !in seen
    ensures Total(h, seen + {o}) == Total(h, seen) + OwnCount(h[o])
  {
    TotalAdds(h, seen + {o}, o);
    assert seen + {o} - {o} == seen;
  }

  lemma VisitedWithin(h: Heap, root: Option<Id>, seen: set<Id>, o: Id, queued: seq<Option<Id>>, all: set<Id>)
    requires Frontier(h, root, seen, queued) && Some(o) in queued && Extent(h, root, all)
    ensures seen + {o} <= all
  {
  }
}
