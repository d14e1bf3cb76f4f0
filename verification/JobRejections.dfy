// Evidence of refused lifecycle moves may land anywhere in a trace: other
// callers that lose a race, or probe a finished job, leave it on the same trace.

module JobRejections {
  import opened Common
  import opened Evidence
  import opened JobTrace

  function With(a: seq<Record>, r: Record, b: seq<Record>): seq<Record> {
    a + [r] + b
  }

  /** A refused-move record as Relay appends it: on the trace of the job it
      names, with a span of its own, under a span of the trace. */
  predicate Rejection(rs: seq<Record>, r: Record) {
    && rs != [] && r.event == TransitionRejected && RecordOk(rs[0].trace, r) && ToneOk(r)
    && !HasSpan(rs, r.span) && r.parent.Some? && HasSpan(rs, r.parent.value)
    && (forall i :: 0 <= i < |rs| && JobId in rs[i].attributes ==> rs[i].attributes[JobId] == r.attributes[JobId])
  }

  lemma Members(a: seq<Record>, r: Record, b: seq<Record>)
    ensures forall x :: x in With(a, r, b) <==> x in a + b || x == r
    ensures forall e :: Has(With(a, r, b), e) <==> Has(a + b, e) || e == r.event
    ensures forall s :: HasSpan(With(a, r, b), s) <==> HasSpan(a + b, s) || s == r.span
  {
    var t, u := With(a, r, b), a + b;
    forall x
      ensures x in t <==> x in u || x == r
    {
      assert x in t <==> x in a || x == r || x in b;
    }
    HasIn(t);
    HasIn(u);
  }

  lemma HasIn(rs: seq<Record>)
    ensures forall e :: Has(rs, e) <==> exists x :: x in rs && x.event == e
    ensures forall s :: HasSpan(rs, s) <==> exists x :: x in rs && x.span == s
  {
    forall e
      ensures Has(rs, e) <==> exists x :: x in rs && x.event == e
    {
      if x :| x in rs && x.event == e {
        var k :| 0 <= k < |rs| && rs[k] == x;
      }
    }
    forall s
      ensures HasSpan(rs, s) <==> exists x :: x in rs && x.span == s
    {
      if x :| x in rs && x.span == s {
        var k :| 0 <= k < |rs| && rs[k] == x;
      }
    }
  }

  // ------------------------------------------------ what the record leaves be

  lemma {:induction false} SkipsEarly(a: seq<Record>, r: Record, b: seq<Record>)
    requires !Early(r.event)
    ensures FirstEarly(With(a, r, b)) == FirstEarly(a + b)
  {
    if a == [] {
      assert With(a, r, b)[1..] == b && a + b == b;
    } else {
      SkipsEarly(a[1..], r, b);
      assert With(a, r, b)[1..] == With(a[1..], r, b) && (a + b)[1..] == a[1..] + b;
    }
  }

  lemma {:induction false} SkipsCanonical(a: seq<Record>, r: Record, b: seq<Record>, required: seq<Event>)
    requires r.event !in required
    ensures Canonical(With(a, r, b), required) == Canonical(a + b, required)
  {
    if a == [] {
      assert With(a, r, b)[1..] == b && a + b == b;
    } else {
      SkipsCanonical(a[1..], r, b, required);
      assert With(a, r, b)[1..] == With(a[1..], r, b) && (a + b)[1..] == a[1..] + b;
    }
  }

  lemma {:induction false} SkipsCount(a: seq<Record>, r: Record, b: seq<Record>, prepared: bool)
    requires r.event == TransitionRejected
    ensures Count(With(a, r, b), prepared) == Count(a + b, prepared)
  {
    if a == [] {
      assert With(a, r, b)[1..] == b && a + b == b;
    } else {
      SkipsCount(a[1..], r, b, prepared);
      assert With(a, r, b)[0] == a[0] && (a + b)[0] == a[0];
      assert With(a, r, b)[1..] == With(a[1..], r, b);
      assert (a + b)[1..] == a[1..] + b;
    }
  }

  lemma Index(a: seq<Record>, r: Record, b: seq<Record>)
    ensures |With(a, r, b)| == |a + b| + 1
    ensures forall i {:trigger With(a, r, b)[i]} :: 0 <= i <= |a + b| ==>
      With(a, r, b)[i] == if i < |a| then (a + b)[i] else if i == |a| then r else (a + b)[i - 1]
  {
  }

  lemma SkipsFirst(a: seq<Record>, r: Record, b: seq<Record>, e: Event)
    requires r.event != e
    ensures var i, k := FirstIndex(a + b, e), FirstIndex(With(a, r, b), e); k == if i < |a| then i else i + 1
    ensures First(With(a, r, b), e) == First(a + b, e)
  {
    var t, u := With(a, r, b), a + b;
    FirstIndexMeaning(u, e);
    Index(a, r, b);
    var i := FirstIndex(u, e);
    var k := if i < |a| then i else i + 1;
    forall n | 0 <= n < k
      ensures t[n].event != e
    {
      assert t[n] == if n < |a| then u[n] else if n == |a| then r else u[n - 1];
    }
    assert i < |u| ==> t[k] == u[i];
    FirstFromIs(t, e, 0, k);
  }

  lemma OrderKept(a: seq<Record>, r: Record, b: seq<Record>, required: seq<Event>)
    requires r.event !in required && InOrder(a + b, required)
    ensures InOrder(With(a, r, b), required)
  {
    Members(a, r, b);
    forall i, j | 0 <= i < j < |required| && Has(With(a, r, b), required[i]) && Has(With(a, r, b), required[j])
      ensures FirstIndex(With(a, r, b), required[i]) < FirstIndex(With(a, r, b), required[j])
    {
      assert required[i] in required && required[j] in required;
      SkipsFirst(a, r, b, required[i]);
      SkipsFirst(a, r, b, required[j]);
    }
  }

  lemma ExpectedSame(t: seq<Record>, u: seq<Record>)
    requires FirstEarly(t) == FirstEarly(u)
    requires Has(t, CapabilityDenied) <==> Has(u, CapabilityDenied)
    requires Has(t, JobCompleted) <==> Has(u, JobCompleted)
    ensures Expected(t) == Expected(u)
  {
  }

  lemma RejectionNotExpected(u: seq<Record>)
    ensures FirstEarly(u).Some? || TransitionRejected !in Expected(u)
  {
  }

  lemma ExpectedKept(a: seq<Record>, r: Record, b: seq<Record>)
    requires r.event == TransitionRejected
    ensures Expected(With(a, r, b)) == Expected(a + b)
    ensures FirstEarly(a + b).Some? || TransitionRejected !in Expected(a + b)
  {
    SkipsEarly(a, r, b);
    Members(a, r, b);
    ExpectedSame(With(a, r, b), a + b);
    RejectionNotExpected(a + b);
  }

  lemma {:induction false} EarlyIsEarly(rs: seq<Record>)
    ensures FirstEarly(rs).Some? ==> Early(FirstEarly(rs).value)
  {
    if rs != [] && !Early(rs[0].event) {
      EarlyIsEarly(rs[1..]);
    }
  }

  // --------------------------------------------------------- part by part

  lemma ShapeKept(a: seq<Record>, r: Record, b: seq<Record>)
    requires Rejection(a + b, r) && Shaped(a + b, Expected(a + b))
    ensures Shaped(With(a, r, b), Expected(With(a, r, b)))
  {
    var required := Expected(a + b);
    ExpectedKept(a, r, b);
    EarlyIsEarly(a + b);
    assert r.event !in required;
    Members(a, r, b);
    OrderKept(a, r, b, required);
    SkipsCanonical(a, r, b, required);
    forall i | 0 <= i < |With(a, r, b)|
      ensures With(a, r, b)[i].event in required || Optional(With(a, r, b)[i].event)
    {
      var x := With(a, r, b)[i];
      assert x in With(a, r, b);
      if x != r {
        var k :| 0 <= k < |a + b| && (a + b)[k] == x;
      }
    }
  }

  lemma RootKept(a: seq<Record>, r: Record, b: seq<Record>)
    requires OneRoot(a + b) && r.parent.Some?
    ensures OneRoot(With(a, r, b))
  {
    var t, u := With(a, r, b), a + b;
    Index(a, r, b);
    var k :| 0 <= k < |u| && u[k].parent.None? && u[k].event == Received && forall i :: 0 <= i < |u| && u[i].parent.None? ==> i == k;
    var n := if k < |a| then k else k + 1;
    assert t[n] == u[k];
    forall i | 0 <= i < |t| && t[i].parent.None?
      ensures i == n
    {
      assert t[i] == u[if i < |a| then i else i - 1];
    }
  }

  lemma ParentsKept(a: seq<Record>, r: Record, b: seq<Record>)
    requires ParentsExist(a + b) && r.parent.Some? && HasSpan(a + b, r.parent.value)
    ensures ParentsExist(With(a, r, b))
  {
    var t, u := With(a, r, b), a + b;
    Index(a, r, b);
    Members(a, r, b);
    forall i | 0 <= i < |t| && t[i].parent.Some?
      ensures HasSpan(t, t[i].parent.value)
    {
      if i != |a| {
        assert t[i] == u[if i < |a| then i else i - 1];
      }
    }
  }

  lemma RecordsKept(a: seq<Record>, r: Record, b: seq<Record>)
    requires Rejection(a + b, r) && RecordsOk(a + b) && SpansUnique(a + b)
    ensures RecordsOk(With(a, r, b)) && SpansUnique(With(a, r, b))
  {
    var t, u := With(a, r, b), a + b;
    Index(a, r, b);
    forall i | 0 <= i < |t|
      ensures RecordOk(u[0].trace, t[i])
    {
      if i != |a| {
        assert t[i] == u[if i < |a| then i else i - 1];
      }
    }
    assert t[0].trace == u[0].trace;
    forall i, j | 0 <= i < j < |t|
      ensures t[i].span != t[j].span
    {
      assert t[i] == if i < |a| then u[i] else if i == |a| then r else u[i - 1];
      assert t[j] == if j < |a| then u[j] else if j == |a| then r else u[j - 1];
    }
  }

  lemma AgreementKept(a: seq<Record>, r: Record, b: seq<Record>, key: Key)
    requires Agree(a + b, key)
    requires key in r.attributes ==> forall i :: 0 <= i < |a + b| && key in (a + b)[i].attributes ==> (a + b)[i].attributes[key] == r.attributes[key]
    ensures Agree(With(a, r, b), key)
  {
    var t, u := With(a, r, b), a + b;
    Index(a, r, b);
    forall i, j | 0 <= i < |t| && 0 <= j < |t| && key in t[i].attributes && key in t[j].attributes
      ensures t[i].attributes[key] == t[j].attributes[key]
    {
      assert i == |a| || t[i] == u[if i < |a| then i else i - 1];
      assert j == |a| || t[j] == u[if j < |a| then j else j - 1];
    }
  }

  lemma TonesKept(a: seq<Record>, r: Record, b: seq<Record>)
    requires ToneOk(r) && forall i :: 0 <= i < |a + b| ==> ToneOk((a + b)[i])
    ensures forall i :: 0 <= i < |With(a, r, b)| ==> ToneOk(With(a, r, b)[i])
  {
    Index(a, r, b);
    forall i | 0 <= i < |With(a, r, b)|
      ensures ToneOk(With(a, r, b)[i])
    {
      if i != |a| {
        assert With(a, r, b)[i] == (a + b)[if i < |a| then i else i - 1];
      }
    }
  }

  lemma StagesKept(a: seq<Record>, r: Record, b: seq<Record>)
    requires r.event == TransitionRejected
    ensures StagesOf(With(a, r, b)) == StagesOf(a + b)
  {
    SkipsFirst(a, r, b, JobAccepted);
    SkipsFirst(a, r, b, JobRunning);
    SkipsFirst(a, r, b, ToolRequested);
    SkipsFirst(a, r, b, CapabilityAllowed);
    SkipsFirst(a, r, b, CapabilityDenied);
    SkipsFirst(a, r, b, WorkerFinished);
    SkipsFirst(a, r, b, ResultValidated);
    SkipsFirst(a, r, b, ResultProjected);
    SkipsFirst(a, r, b, JobCompleted);
    SkipsFirst(a, r, b, JobFailed);
  }

  lemma AgreementsKept(a: seq<Record>, r: Record, b: seq<Record>)
    requires Rejection(a + b, r) && Agree(a + b, JobId) && Agree(a + b, ExecutionId) && Agree(a + b, Capability)
    ensures Agree(With(a, r, b), JobId) && Agree(With(a, r, b), ExecutionId) && Agree(With(a, r, b), Capability)
  {
    AgreementKept(a, r, b, JobId);
    AgreementKept(a, r, b, ExecutionId);
    AgreementKept(a, r, b, Capability);
  }

  lemma MeaningKept(a: seq<Record>, r: Record, b: seq<Record>)
    requires Rejection(a + b, r) && Semantic(a + b)
    ensures Semantic(With(a, r, b))
  {
    AgreementsKept(a, r, b);
    StagesKept(a, r, b);
    SkipsCount(a, r, b, true);
    SkipsCount(a, r, b, false);
    TonesKept(a, r, b);
  }

  /** A refused-move record slipped in anywhere leaves a complete trace
      complete. */
  lemma StaysComplete(a: seq<Record>, r: Record, b: seq<Record>)
    requires Complete(a + b) && Rejection(a + b, r)
    ensures Complete(With(a, r, b))
  {
    RecordsKept(a, r, b);
    RootKept(a, r, b);
    ParentsKept(a, r, b);
    ShapeKept(a, r, b);
    MeaningKept(a, r, b);
  }

  predicate Slips(prior: seq<Record>, at: nat, r: Record, trace: seq<Record>) {
    at <= |prior| && Rejection(prior, r) && trace == With(prior[..at], r, prior[at..])
  }

  lemma Rejoins(rs: seq<Record>, at: nat)
    requires at <= |rs|
    ensures rs[..at] + rs[at..] == rs
  {
  }

  lemma SlipStaysComplete(prior: seq<Record>, at: nat, r: Record, trace: seq<Record>)
    requires Complete(prior) && Slips(prior, at, r, trace)
    ensures Complete(trace)
  {
    Rejoins(prior, at);
    StaysComplete(prior[..at], r, prior[at..]);
  }

  datatype Landing = Landing(at: nat, record: Record)

  /** Any number of them, one after another, at any places. */
  ghost predicate MixedIn(base: seq<Record>, landings: seq<Landing>, trace: seq<Record>)
    decreases |landings|
  {
    if landings == [] then trace == base
    else
      var before, last := landings[..|landings| - 1], landings[|landings| - 1];
      exists prior: seq<Record> :: MixedIn(base, before, prior) && Slips(prior, last.at, last.record, trace)
  }

  lemma {:induction false} MixedStaysComplete(base: seq<Record>, landings: seq<Landing>, trace: seq<Record>)
    requires Complete(base) && MixedIn(base, landings, trace)
    ensures Complete(trace)
    decreases |landings|
  {
    if landings != [] {
      var before, last := landings[..|landings| - 1], landings[|landings| - 1];
      var prior :| MixedIn(base, before, prior) && Slips(prior, last.at, last.record, trace);
      MixedStaysComplete(base, before, prior);
      SlipStaysComplete(prior, last.at, last.record, trace);
    }
  }
}
