// Memory's selection for a job: filter the department's candidates, score what
// is allowed against the query, order it, and fill the budget.

module MemorySelection {
  import opened Common

  const MAX_ITEMS := 4
  const MAX_CHARS := 2048
  const MAX_TEXT := 1024

  /** A validated memory record. Texts are measured in code points and, like
      queries and tags, reduced to their set of tokens. */
  datatype Record = Record(
    id: Id, environment: Id, department: Id, restricted: bool, active: bool, observedAt: Time,
    length: nat, tags: set<Id>, words: set<Id>)

  predicate ValidRecord(r: Record) { 1 <= r.length <= MAX_TEXT }

  datatype Request = Request(environment: Id, department: Id, query: set<Id>)

  // -------------------------------------------------------------- filtering

  datatype Verdict = EnvironmentMismatch | ScopeMismatch | RestrictedDenied | Inactive | Irrelevant | Relevant

  /** The reason a record is left out, in the order the checks are made. */
  function Judge(r: Record, q: Request): Verdict {
    if r.environment != q.environment then EnvironmentMismatch
    else if r.department != q.department then if r.restricted then RestrictedDenied else ScopeMismatch
    else if !r.active then Inactive
    else if q.query * r.tags == {} && q.query * r.words == {} then Irrelevant
    else Relevant
  }

  function Score(r: Record, q: Request): nat {
    2 * |q.query * r.tags| + |q.query * r.words|
  }

  lemma ScoreZero(r: Record, q: Request)
    ensures Score(r, q) == 0 <==> q.query * r.tags == {} && q.query * r.words == {}
  {
    assert |q.query * r.tags| == 0 <==> q.query * r.tags == {};
    assert |q.query * r.words| == 0 <==> q.query * r.words == {};
  }

  function Counted(rs: seq<Record>, q: Request, v: Verdict): nat {
    if rs == [] then 0 else Counted(rs[..|rs| - 1], q, v) + if Judge(rs[|rs| - 1], q) == v then 1 else 0
  }

  datatype Excluded = Excluded(environment: nat, scope: nat, restricted: nat, inactive: nat, irrelevant: nat)

  /** Query tokens count once each: two for a tag, one for a word. */
  method ScoreOf(r: Record, query: set<Id>) returns (score: nat)
    ensures score == 2 * |query * r.tags| + |query * r.words|
  {
    score := 0;
    var rest := query;
    ghost var done: set<Id> := {};
    while rest != {}
      invariant done + rest == query && done !! rest
      invariant score == 2 * |done * r.tags| + |done * r.words|
      decreases |rest|
    {
      var token :| token in rest;
      MeetGrows(done, r.tags, token);
      MeetGrows(done, r.words, token);
      if token in r.tags {
        score := score + 2;
      }
      if token in r.words {
        score := score + 1;
      }
      rest, done := rest - {token}, done + {token};
    }
    assert done == query;
  }

  lemma MeetGrows(done: set<Id>, with: set<Id>, token: Id)
    requires token !in done
    ensures |(done + {token}) * with| == |done * with| + if token in with then 1 else 0
  {
    if token in with {
      assert (done + {token}) * with == done * with + {token};
    } else {
      assert (done + {token}) * with == done * with;
    }
  }

  // ----------------------------------------------------------------- order

  /** Score descending, then most recent, then id: strictly before. */
  predicate Before(a: Record, b: Record, q: Request) {
    || Score(a, q) > Score(b, q)
    || (Score(a, q) == Score(b, q) && (a.observedAt > b.observedAt || (a.observedAt == b.observedAt && a.id < b.id)))
  }

  predicate Ordered(rs: seq<Record>, q: Request) {
    forall i, j :: 0 <= i < j < |rs| ==> !Before(rs[j], rs[i], q)
  }

  function Relevants(rs: seq<Record>, q: Request): seq<Record> {
    if rs == [] then []
    else
      var front, last := Relevants(rs[..|rs| - 1], q), rs[|rs| - 1];
      if Judge(last, q).Relevant? then front + [last] else front
  }

  function Placed(rs: seq<Record>, x: Record, q: Request): seq<Record> {
    if rs == [] || Before(x, rs[0], q) then [x] + rs else [rs[0]] + Placed(rs[1..], x, q)
  }

  function Ranked(rs: seq<Record>, q: Request): seq<Record> {
    if rs == [] then [] else Placed(Ranked(rs[..|rs| - 1], q), rs[|rs| - 1], q)
  }

  lemma {:induction false} PlacedKeeps(rs: seq<Record>, x: Record, q: Request)
    requires Ordered(rs, q)
    ensures Ordered(Placed(rs, x, q), q) && multiset(Placed(rs, x, q)) == multiset(rs) + multiset{x}
  {
    if rs == [] || Before(x, rs[0], q) {
      var r := [x] + rs;
      forall i, j | 0 <= i < j < |r|
        ensures !Before(r[j], r[i], q)
      {
        assert i == 0 ==> j == 1 || !Before(rs[j - 1], rs[0], q);
      }
    } else {
      var rest := Placed(rs[1..], x, q);
      PlacedKeeps(rs[1..], x, q);
      assert rs == [rs[0]] + rs[1..];
      forall k | 0 <= k < |rest|
        ensures !Before(rest[k], rs[0], q)
      {
        assert rest[k] in multiset(rest);
        assert rest[k] == x || rest[k] in rs[1..];
      }
    }
  }

  /** The order is a rearrangement, most relevant first. */
  lemma {:induction false} RankedOrders(rs: seq<Record>, q: Request)
    ensures Ordered(Ranked(rs, q), q) && multiset(Ranked(rs, q)) == multiset(rs)
  {
    if rs != [] {
      var front, last := rs[..|rs| - 1], rs[|rs| - 1];
      RankedOrders(front, q);
      PlacedKeeps(Ranked(front, q), last, q);
      LastSplit(rs);
    }
  }

  lemma LastSplit(rs: seq<Record>)
    requires rs != []
    ensures multiset(rs) == multiset(rs[..|rs| - 1]) + multiset{rs[|rs| - 1]}
  {
    assert rs == rs[..|rs| - 1] + [rs[|rs| - 1]];
  }

  // ----------------------------------------------------------------- budget

  function Chars(rs: seq<Record>): nat {
    if rs == [] then 0 else Chars(rs[..|rs| - 1]) + rs[|rs| - 1].length
  }

  predicate Fits(items: seq<Record>, r: Record) {
    |items| < MAX_ITEMS && Chars(items) + r.length <= MAX_CHARS
  }

  /** Greedy, in order: what does not fit is passed over, not a stop. */
  function Filled(ranked: seq<Record>): (items: seq<Record>)
    ensures |items| <= |ranked|
  {
    if ranked == [] then []
    else
      var items, last := Filled(ranked[..|ranked| - 1]), ranked[|ranked| - 1];
      if Fits(items, last) then items + [last] else items
  }

  lemma {:induction false} FilledBounds(ranked: seq<Record>)
    requires forall r :: r in ranked ==> ValidRecord(r)
    ensures |Filled(ranked)| <= MAX_ITEMS && |Filled(ranked)| <= Chars(Filled(ranked)) <= MAX_CHARS
    ensures forall r :: r in Filled(ranked) ==> r in ranked
  {
    if ranked != [] {
      var front, last := ranked[..|ranked| - 1], ranked[|ranked| - 1];
      assert ranked == front + [last] && last in ranked;
      FilledBounds(front);
      if Fits(Filled(front), last) {
        CharsAppend(Filled(front), last);
      }
    }
  }

  lemma CharsAppend(items: seq<Record>, r: Record)
    ensures Chars(items + [r]) == Chars(items) + r.length
  {
    assert (items + [r])[..|items|] == items;
  }

  /** The two most relevant records always make it: two texts of 1024 fit. */
  lemma {:induction false} TopTwoIncluded(ranked: seq<Record>)
    requires forall r :: r in ranked ==> ValidRecord(r)
    ensures var n := if |ranked| < 2 then |ranked| else 2; n <= |Filled(ranked)| && Filled(ranked)[..n] == ranked[..n]
  {
    if |ranked| > 2 {
      var front := ranked[..|ranked| - 1];
      TopTwoIncluded(front);
      assert Filled(front)[..2] == front[..2] == ranked[..2];
    } else if |ranked| == 2 {
      assert ranked[..1] == [ranked[0]] && ranked == [ranked[0]] + [ranked[1]];
      OneFits(ranked[0]);
      CharsAppend([], ranked[0]);
      assert [] + [ranked[0]] == [ranked[0]];
      assert ranked[1] in ranked && Fits([ranked[0]], ranked[1]);
      assert Filled(ranked) == [ranked[0]] + [ranked[1]];
    } else if |ranked| == 1 {
      OneFits(ranked[0]);
      assert ranked == [ranked[0]];
    }
  }

  lemma OneFits(r: Record)
    requires ValidRecord(r)
    ensures Filled([r]) == [r]
  {
    assert [r][..0] == [];
    assert Fits([], r);
  }

  /** A record left out was passed over with the budget already short for it. */
  lemma {:induction false} OmittedDidNotFit(ranked: seq<Record>, k: nat)
    requires k < |ranked|
    ensures Filled(ranked[..k + 1]) == if Fits(Filled(ranked[..k]), ranked[k]) then Filled(ranked[..k]) + [ranked[k]] else Filled(ranked[..k])
    ensures Filled(ranked[..k]) <= Filled(ranked)
    decreases |ranked|
  {
    assert ranked[..k + 1][..k] == ranked[..k];
    FilledGrows(ranked, k);
  }

  lemma {:induction false} FilledGrows(ranked: seq<Record>, k: nat)
    requires k <= |ranked|
    ensures Filled(ranked[..k]) <= Filled(ranked)
    decreases |ranked|
  {
    if k < |ranked| {
      var front := ranked[..|ranked| - 1];
      assert front[..k] == ranked[..k];
      FilledGrows(front, k);
    } else {
      assert ranked[..k] == ranked;
    }
  }

  // ----------------------------------------------------------- the pipeline

  function ExcludedBy(rs: seq<Record>, q: Request): Excluded {
    Excluded(Counted(rs, q, EnvironmentMismatch), Counted(rs, q, ScopeMismatch), Counted(rs, q, RestrictedDenied),
             Counted(rs, q, Inactive), Counted(rs, q, Irrelevant))
  }

  datatype Selection = Selection(candidates: nat, allowed: nat, excluded: Excluded, items: seq<Record>, chars: nat, omitted: nat)

  /** What `buildContext` selects from validated candidates. */
  function Select(rs: seq<Record>, q: Request): Selection {
    var ranked := Ranked(Relevants(rs, q), q);
    Selection(|rs|, |ranked|, ExcludedBy(rs, q), Filled(ranked), Chars(Filled(ranked)), |ranked| - |Filled(ranked)|)
  }

  lemma {:induction false} EveryoneCounted(rs: seq<Record>, q: Request)
    ensures |rs| == Counted(rs, q, EnvironmentMismatch) + Counted(rs, q, ScopeMismatch) + Counted(rs, q, RestrictedDenied)
                  + Counted(rs, q, Inactive) + Counted(rs, q, Irrelevant) + |Relevants(rs, q)|
  {
    if rs != [] {
      EveryoneCounted(rs[..|rs| - 1], q);
    }
  }

  lemma {:induction false} RelevantsMeaning(rs: seq<Record>, q: Request)
    ensures forall r :: r in Relevants(rs, q) <==> r in rs && Judge(r, q).Relevant?
  {
    if rs != [] {
      RelevantsMeaning(rs[..|rs| - 1], q);
      assert rs == rs[..|rs| - 1] + [rs[|rs| - 1]];
    }
  }

  /** Conservation, bounds, and emptiness only when nothing is relevant. */
  lemma SelectConserves(rs: seq<Record>, q: Request)
    requires forall r :: r in rs ==> ValidRecord(r)
    ensures var s := Select(rs, q);
      && s.allowed + s.excluded.environment + s.excluded.scope + s.excluded.restricted + s.excluded.inactive + s.excluded.irrelevant
         == s.candidates
      && |s.items| + s.omitted == s.allowed
      && |s.items| <= MAX_ITEMS && s.chars <= MAX_CHARS
      && (s.items == [] <==> s.chars == 0)
      && (s.items == [] <==> forall r :: r in rs ==> !Judge(r, q).Relevant?)
      && (forall r :: r in s.items ==> r in rs && Judge(r, q).Relevant?)
  {
    var relevant := Relevants(rs, q);
    var ranked := Ranked(relevant, q);
    EveryoneCounted(rs, q);
    RelevantsMeaning(rs, q);
    RankedOrders(relevant, q);
    assert |ranked| == |multiset(ranked)| == |relevant|;
    forall r | r in ranked
      ensures r in relevant && ValidRecord(r)
    {
      assert r in multiset(ranked);
    }
    FilledBounds(ranked);
    TopTwoIncluded(ranked);
    if relevant != [] {
      assert relevant[0] in relevant;
    }
  }

  function Increment(e: Excluded, v: Verdict): Excluded {
    match v
    case EnvironmentMismatch => e.(environment := e.environment + 1)
    case ScopeMismatch => e.(scope := e.scope + 1)
    case RestrictedDenied => e.(restricted := e.restricted + 1)
    case Inactive => e.(inactive := e.inactive + 1)
    case Irrelevant => e.(irrelevant := e.irrelevant + 1)
    case Relevant => e
  }

  lemma ExcludedNext(rs: seq<Record>, q: Request, i: nat)
    requires i < |rs|
    ensures ExcludedBy(rs[..i + 1], q) == Increment(ExcludedBy(rs[..i], q), Judge(rs[i], q))
    ensures Relevants(rs[..i + 1], q) == if Judge(rs[i], q).Relevant? then Relevants(rs[..i], q) + [rs[i]] else Relevants(rs[..i], q)
  {
    assert rs[..i + 1][..i] == rs[..i];
  }

  /** The checks on one candidate, first failure first. */
  method JudgeRecord(r: Record, q: Request) returns (v: Verdict)
    ensures v == Judge(r, q)
  {
    if r.environment != q.environment {
      return EnvironmentMismatch;
    }
    if r.department != q.department {
      return if r.restricted then RestrictedDenied else ScopeMismatch;
    }
    if !r.active {
      return Inactive;
    }
    var score := ScoreOf(r, q.query);
    ScoreZero(r, q);
    return if score == 0 then Irrelevant else Relevant;
  }

  method FilterCandidates(candidates: seq<Record>, q: Request) returns (scored: seq<Record>, excluded: Excluded)
    ensures scored == Relevants(candidates, q) && excluded == ExcludedBy(candidates, q)
  {
    scored, excluded := [], Excluded(0, 0, 0, 0, 0);
    for i := 0 to |candidates|
      invariant scored == Relevants(candidates[..i], q)
      invariant excluded == ExcludedBy(candidates[..i], q)
    {
      var v := JudgeRecord(candidates[i], q);
      ExcludedNext(candidates, q, i);
      if v.Relevant? {
        scored := scored + [candidates[i]];
      } else {
        excluded := Increment(excluded, v);
      }
    }
    assert candidates[..|candidates|] == candidates;
  }

  method FillBudget(ranked: seq<Record>) returns (items: seq<Record>, chars: nat, omitted: nat)
    ensures items == Filled(ranked) && chars == Chars(items) && omitted == |ranked| - |items|
  {
    items, chars, omitted := [], 0, 0;
    for i := 0 to |ranked|
      invariant items == Filled(ranked[..i]) && chars == Chars(items) && omitted == i - |items|
    {
      OmittedDidNotFit(ranked, i);
      if |items| >= MAX_ITEMS || chars + ranked[i].length > MAX_CHARS {
        omitted := omitted + 1;
      } else {
        CharsAppend(items, ranked[i]);
        items, chars := items + [ranked[i]], chars + ranked[i].length;
      }
    }
    assert ranked[..|ranked|] == ranked;
  }

  method SelectContext(candidates: seq<Record>, q: Request) returns (s: Selection)
    ensures s == Select(candidates, q)
  {
    var scored, excluded := FilterCandidates(candidates, q);
    var ranked := Ranked(scored, q);
    var items, chars, omitted := FillBudget(ranked);
    s := Selection(|candidates|, |ranked|, excluded, items, chars, omitted);
  }
}
