// What `buildContext` packages, leaves out and counts, candidate by candidate.

module SelectionMeaning {
  import opened Common
  import opened MemorySelection

  // ----------------------------------------------------------- candidates

  /** The query shares a token with the record's tags or its text. */
  predicate Touches(r: Record, q: Request) {
    exists t :: t in q.query && (t in r.tags || t in r.words)
  }

  /** Of the request's environment and department, active, and to the point. */
  predicate Suits(r: Record, q: Request) {
    r.environment == q.environment && r.department == q.department && r.active && Touches(r, q)
  }

  /** Why a record is left out: the first of these that holds. */
  predicate OtherEnvironment(r: Record, q: Request) { r.environment != q.environment }

  predicate OtherDepartment(r: Record, q: Request) {
    r.environment == q.environment && r.department != q.department && !r.restricted
  }

  predicate RestrictedElsewhere(r: Record, q: Request) {
    r.environment == q.environment && r.department != q.department && r.restricted
  }

  predicate Superseded(r: Record, q: Request) {
    r.environment == q.environment && r.department == q.department && !r.active
  }

  predicate OffTopic(r: Record, q: Request) {
    r.environment == q.environment && r.department == q.department && r.active && !Touches(r, q)
  }

  lemma TouchesMeans(r: Record, q: Request)
    ensures Touches(r, q) <==> !(q.query * r.tags == {} && q.query * r.words == {})
  {
    if t :| t in q.query && (t in r.tags || t in r.words) {
      assert t in q.query * r.tags || t in q.query * r.words;
    }
    if t :| t in q.query * r.tags {
      assert Touches(r, q);
    }
    if t :| t in q.query * r.words {
      assert Touches(r, q);
    }
  }

  lemma VerdictMeans(r: Record, q: Request)
    ensures Judge(r, q) == EnvironmentMismatch <==> OtherEnvironment(r, q)
    ensures Judge(r, q) == ScopeMismatch <==> OtherDepartment(r, q)
    ensures Judge(r, q) == RestrictedDenied <==> RestrictedElsewhere(r, q)
    ensures Judge(r, q) == Inactive <==> Superseded(r, q)
    ensures Judge(r, q) == Irrelevant <==> OffTopic(r, q)
    ensures Judge(r, q) == Relevant <==> Suits(r, q)
  {
    TouchesMeans(r, q);
  }

  // --------------------------------------------------------------- counts

  function Judged(rs: seq<Record>, q: Request, v: Verdict): set<nat> {
    set i: nat | i < |rs| && Judge(rs[i], q) == v
  }

  lemma JudgedNext(rs: seq<Record>, q: Request, v: Verdict)
    requires rs != []
    ensures var front := Judged(rs[..|rs| - 1], q, v);
      Judged(rs, q, v) == (if Judge(rs[|rs| - 1], q) == v then front + {|rs| - 1} else front) && |rs| - 1 !in front
  {
    var front := rs[..|rs| - 1];
    forall i: nat | i < |front|
      ensures front[i] == rs[i]
    {
    }
  }

  lemma {:induction false} CountedMeans(rs: seq<Record>, q: Request, v: Verdict)
    ensures Counted(rs, q, v) == |Judged(rs, q, v)|
  {
    if rs == [] {
      assert Judged(rs, q, v) == {};
    } else {
      CountedMeans(rs[..|rs| - 1], q, v);
      JudgedNext(rs, q, v);
    }
  }

  lemma {:induction false} RelevantsCount(rs: seq<Record>, q: Request)
    ensures |Relevants(rs, q)| == |Judged(rs, q, Relevant)|
  {
    if rs == [] {
      assert Judged(rs, q, Relevant) == {};
    } else {
      RelevantsCount(rs[..|rs| - 1], q);
      JudgedNext(rs, q, Relevant);
    }
  }

  /** Each exclusion count is the number of candidates left out for that reason,
      and the number allowed is that of the candidates that suit. */
  lemma CountsMean(rs: seq<Record>, q: Request)
    ensures var s := Select(rs, q);
      && s.candidates == |rs|
      && s.excluded.environment == |set i: nat | i < |rs| && OtherEnvironment(rs[i], q)|
      && s.excluded.scope == |set i: nat | i < |rs| && OtherDepartment(rs[i], q)|
      && s.excluded.restricted == |set i: nat | i < |rs| && RestrictedElsewhere(rs[i], q)|
      && s.excluded.inactive == |set i: nat | i < |rs| && Superseded(rs[i], q)|
      && s.excluded.irrelevant == |set i: nat | i < |rs| && OffTopic(rs[i], q)|
      && s.allowed == |set i: nat | i < |rs| && Suits(rs[i], q)|
  {
    forall i: nat | i < |rs|
      ensures var v := Judge(rs[i], q);
        && (v == EnvironmentMismatch <==> OtherEnvironment(rs[i], q)) && (v == ScopeMismatch <==> OtherDepartment(rs[i], q))
        && (v == RestrictedDenied <==> RestrictedElsewhere(rs[i], q)) && (v == Inactive <==> Superseded(rs[i], q))
        && (v == Irrelevant <==> OffTopic(rs[i], q)) && (v == Relevant <==> Suits(rs[i], q))
    {
      VerdictMeans(rs[i], q);
    }
    CountedMeans(rs, q, EnvironmentMismatch);
    assert Judged(rs, q, EnvironmentMismatch) == set i: nat | i < |rs| && OtherEnvironment(rs[i], q);
    CountedMeans(rs, q, ScopeMismatch);
    assert Judged(rs, q, ScopeMismatch) == set i: nat | i < |rs| && OtherDepartment(rs[i], q);
    CountedMeans(rs, q, RestrictedDenied);
    assert Judged(rs, q, RestrictedDenied) == set i: nat | i < |rs| && RestrictedElsewhere(rs[i], q);
    CountedMeans(rs, q, Inactive);
    assert Judged(rs, q, Inactive) == set i: nat | i < |rs| && Superseded(rs[i], q);
    CountedMeans(rs, q, Irrelevant);
    assert Judged(rs, q, Irrelevant) == set i: nat | i < |rs| && OffTopic(rs[i], q);
    RelevantsCount(rs, q);
    RankedOrders(Relevants(rs, q), q);
    assert |Ranked(Relevants(rs, q), q)| == |multiset(Ranked(Relevants(rs, q), q))|;
    assert Judged(rs, q, Relevant) == set i: nat | i < |rs| && Suits(rs[i], q);
  }

  // ---------------------------------------------------------------- items

  lemma {:induction false} FilledFrom(ranked: seq<Record>, r: Record)
    requires r in Filled(ranked)
    ensures r in ranked
  {
    var front := ranked[..|ranked| - 1];
    if r in Filled(front) {
      FilledFrom(front, r);
    }
  }

  lemma RankedIn(rs: seq<Record>, q: Request, r: Record)
    ensures r in Ranked(Relevants(rs, q), q) <==> r in rs && Suits(r, q)
  {
    RankedOrders(Relevants(rs, q), q);
    RelevantsMeaning(rs, q);
    VerdictMeans(r, q);
    assert r in Ranked(Relevants(rs, q), q) <==> r in multiset(Ranked(Relevants(rs, q), q));
  }

  /** Nothing is packaged that does not suit. */
  lemma ItemsSuit(rs: seq<Record>, q: Request, r: Record)
    requires r in Select(rs, q).items
    ensures r in rs && Suits(r, q)
  {
    FilledFrom(Ranked(Relevants(rs, q), q), r);
    RankedIn(rs, q, r);
  }

  // ---------------------------------------------------------------- order

  function TagHits(r: Record, q: Request): nat { |set t | t in q.query && t in r.tags| }

  function WordHits(r: Record, q: Request): nat { |set t | t in q.query && t in r.words| }

  /** A tag counts twice, a word once. */
  function Points(r: Record, q: Request): nat { TagHits(r, q) + TagHits(r, q) + WordHits(r, q) }

  /** More points, or as many and more recent, or at the same time and by id. */
  predicate NoLater(a: Record, b: Record, q: Request) {
    || Points(a, q) > Points(b, q)
    || (Points(a, q) == Points(b, q) && a.observedAt > b.observedAt)
    || (Points(a, q) == Points(b, q) && a.observedAt == b.observedAt && a.id <= b.id)
  }

  lemma BeforeMeans(a: Record, b: Record, q: Request)
    ensures !Before(b, a, q) <==> NoLater(a, b, q)
  {
    forall r
      ensures Points(r, q) == Score(r, q)
    {
      assert (set t | t in q.query && t in r.tags) == q.query * r.tags;
      assert (set t | t in q.query && t in r.words) == q.query * r.words;
    }
  }

  lemma {:induction false} FilledOrdered(ranked: seq<Record>, q: Request)
    requires Ordered(ranked, q)
    ensures Ordered(Filled(ranked), q)
  {
    if ranked != [] {
      var front, last := ranked[..|ranked| - 1], ranked[|ranked| - 1];
      FilledOrdered(front, q);
      forall r | r in Filled(front)
        ensures !Before(last, r, q)
      {
        FilledFrom(front, r);
        var i :| 0 <= i < |front| && front[i] == r;
        assert ranked[i] == r;
      }
    }
  }

  /** Items are packaged most relevant first. */
  lemma ItemsOrdered(rs: seq<Record>, q: Request, i: nat, j: nat)
    requires i < j < |Select(rs, q).items|
    ensures NoLater(Select(rs, q).items[i], Select(rs, q).items[j], q)
  {
    var ranked := Ranked(Relevants(rs, q), q);
    RankedOrders(Relevants(rs, q), q);
    FilledOrdered(ranked, q);
    BeforeMeans(Filled(ranked)[i], Filled(ranked)[j], q);
  }

  // --------------------------------------------------------------- budget

  const ITEMS := 4
  const CHARACTERS := 2048

  lemma FittingIsIncluded(ranked: seq<Record>, k: nat)
    requires k < |ranked| && Fits(Filled(ranked[..k]), ranked[k])
    ensures ranked[k] in Filled(ranked)
  {
    OmittedDidNotFit(ranked, k);
    FilledGrows(ranked, k + 1);
    var taken := Filled(ranked[..k]) + [ranked[k]];
    assert taken[|taken| - 1] == Filled(ranked)[|taken| - 1];
  }

  lemma PassedOver(ranked: seq<Record>, k: nat)
    requires k < |ranked| && ranked[k] !in Filled(ranked)
    ensures var before := Filled(ranked[..k]);
      before <= Filled(ranked) && (|before| == ITEMS || Chars(before) + ranked[k].length > CHARACTERS)
  {
    FilledGrows(ranked, k);
    FilledSmall(ranked[..k]);
    if Fits(Filled(ranked[..k]), ranked[k]) {
      FittingIsIncluded(ranked, k);
    }
  }

  lemma FilledComesFirst(ranked: seq<Record>, q: Request, k: nat, i: nat)
    requires Ordered(ranked, q) && k < |ranked| && i < |Filled(ranked[..k])|
    ensures NoLater(Filled(ranked[..k])[i], ranked[k], q)
  {
    var item := Filled(ranked[..k])[i];
    FilledFrom(ranked[..k], item);
    var j: nat :| j < k && ranked[..k][j] == item;
    assert ranked[j] == item && !Before(ranked[k], ranked[j], q);
    BeforeMeans(item, ranked[k], q);
  }

  /** What suits but is left out was crowded out: the items that come no later than
      it were four already, or left too little room for its text. */
  lemma OmittedIsCrowdedOut(rs: seq<Record>, q: Request, r: Record) returns (n: nat)
    requires r in rs && Suits(r, q) && r !in Select(rs, q).items
    ensures var items := Select(rs, q).items;
      && n <= |items| && (n == ITEMS || Chars(items[..n]) + r.length > CHARACTERS)
      && forall i :: 0 <= i < n ==> NoLater(items[i], r, q)
  {
    var ranked := Ranked(Relevants(rs, q), q);
    RankedIn(rs, q, r);
    RankedOrders(Relevants(rs, q), q);
    var k: nat :| k < |ranked| && ranked[k] == r;
    PassedOver(ranked, k);
    var before := Filled(ranked[..k]);
    n := |before|;
    assert Filled(ranked)[..n] == before;
    forall i | 0 <= i < n
      ensures NoLater(Filled(ranked)[i], r, q)
    {
      FilledComesFirst(ranked, q, k, i);
    }
  }

  lemma {:induction false} FilledSmall(ranked: seq<Record>)
    ensures |Filled(ranked)| <= ITEMS && Chars(Filled(ranked)) <= CHARACTERS
  {
    if ranked != [] {
      FilledSmall(ranked[..|ranked| - 1]);
      if Fits(Filled(ranked[..|ranked| - 1]), ranked[|ranked| - 1]) {
        CharsAppend(Filled(ranked[..|ranked| - 1]), ranked[|ranked| - 1]);
      }
    }
  }

  /** At most four items of at most 2048 characters, whatever the candidates. */
  lemma ItemsFit(rs: seq<Record>, q: Request)
    ensures var s := Select(rs, q);
      |s.items| <= ITEMS && s.chars == Chars(s.items) && s.chars <= CHARACTERS && s.omitted == s.allowed - |s.items|
  {
    FilledSmall(Ranked(Relevants(rs, q), q));
  }
}
