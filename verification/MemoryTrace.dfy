// The Memory context assessor: groups the Memory evidence of a trace into
// attempts by walking to their roots, and judges each attempt.

module MemoryTrace {
  import opened Common
  import opened Evidence

  const MAX_SAFE := 0x1F_FFFF_FFFF_FFFF

  // ---------------------------------------------------------- single records

  predicate ContextEvent(e: Event) {
    || e == ContextRequested || e == ContextRejected || e == ScopeResolved || e == CandidatesValidated
    || e == ContextFiltered || e == BudgetApplied || e == PackageCreated || e == PackageFailed
  }

  predicate IsMemory(r: Record) {
    ContextEvent(r.event) || r.event == OtherMemory || r.service == Memory
  }

  predicate Identifier(v: Option<Value>) { v.Some? && v.value.Name? && v.value.length > 0 }

  predicate ShortText(v: Option<Value>) { v.Some? && v.value.Name? && 0 < v.value.length <= MAX_TEXT }

  predicate Natural(v: Option<Value>) { v.Some? && v.value.Number? && 0 <= v.value.n <= MAX_SAFE }

  predicate Positive(v: Option<Value>) { Natural(v) && v.value.n != 0 }

  function Reason(r: Record): Option<Value> { Get(Some(r), MemoryReason) }

  /** The attribute names an event must carry. */
  function KeysOf(r: Record): Option<set<Key>> {
    match r.event
    case ContextRequested => Some({JobId})
    case ScopeResolved => Some({DepartmentRef})
    case ContextFiltered => Some({AllowedCount, EnvironmentCount, InactiveCount, IrrelevantCount, RestrictedCount, ScopeCount})
    case BudgetApplied => Some({IncludedCount, IncludedChars, OmittedCount})
    case PackageCreated => Some({JobId, IncludedCount, OmittedCount})
    case PackageFailed => Some({MemoryReason})
    case ContextRejected =>
      Some({MemoryReason}
           + (if Reason(r) == Some(Say(AuthorityClaimRejected)) then {AuthorityClaims} else {})
           + (if Reason(r) == Some(Say(StateDenied)) then {CurrentState} else {}))
    case CandidatesValidated =>
      Some((if r.outcome == Success then {CandidateCount} else {MemoryReason})
           + (if Reason(r) == Some(Say(RecordInvalid)) then {InvalidCount} else {}))
    case _ => None
  }

  predicate SafeNumbers(a: map<Key, Value>) {
    forall k :: k in a && a[k].Number? ==> -MAX_SAFE <= a[k].n <= MAX_SAFE
  }

  function ToneOfMemory(r: Record): Tone {
    match r.event
    case CandidatesValidated => if Reason(r).Some? then Tone(Errored, Error) else Tone(Success, Info)
    case ContextRejected => if Reason(r) == Some(Say(RelayUnavailable)) then Tone(Errored, Error) else Tone(Denied, Warning)
    case PackageFailed => Tone(Errored, Error)
    case _ => Tone(Success, Info)
  }

  predicate MemoryOk(r: Record) {
    && ContextEvent(r.event) && r.service == Memory
    && KeysOf(r).Some? && r.attributes.Keys == KeysOf(r).value && Bounded(r.attributes) && SafeNumbers(r.attributes)
    && Tone(r.outcome, r.severity) == ToneOfMemory(r)
  }

  // -------------------------------------------------------- the whole trace

  predicate SpanBefore(rs: seq<Record>, n: nat, span: Id)
    requires n <= |rs|
  {
    exists k :: 0 <= k < n && rs[k].span == span
  }

  predicate RecordFits(rs: seq<Record>, i: nat)
    requires i < |rs|
  {
    && TraceIdOk(rs[i].trace) && rs[i].trace == rs[0].trace && SpanIdOk(rs[i].span)
    && (IsMemory(rs[i]) ==> MemoryOk(rs[i]) && (rs[i].parent.Some? ==> SpanBefore(rs, i, rs[i].parent.value)))
  }

  predicate CommonOk(rs: seq<Record>) {
    SpansUnique(rs) && forall i {:trigger RecordFits(rs, i)} :: 0 <= i < |rs| ==> RecordFits(rs, i)
  }

  function MemoryRecords(rs: seq<Record>): seq<Record> {
    if rs == [] then []
    else
      var front, last := MemoryRecords(rs[..|rs| - 1]), rs[|rs| - 1];
      if IsMemory(last) then front + [last] else front
  }

  // ------------------------------------------------------------------ roots

  /** The record of a span; the last one, should a span repeat. */
  function BySpan(rs: seq<Record>, span: Option<Id>): Option<Record> {
    if span.None? || rs == [] then None
    else if rs[|rs| - 1].span == span.value then Some(rs[|rs| - 1])
    else BySpan(rs[..|rs| - 1], span)
  }

  lemma {:induction false} BySpanIn(rs: seq<Record>, span: Option<Id>)
    ensures BySpan(rs, span).Some? ==> BySpan(rs, span).value in rs
  {
    if span.Some? && rs != [] && rs[|rs| - 1].span != span.value {
      BySpanIn(rs[..|rs| - 1], span);
    }
  }

  lemma {:induction false} BySpanFinds(rs: seq<Record>, k: nat)
    requires SpansUnique(rs) && k < |rs|
    ensures BySpan(rs, Some(rs[k].span)) == Some(rs[k])
  {
    if k < |rs| - 1 {
      BySpanFinds(rs[..|rs| - 1], k);
    }
  }

  predicate IsRoot(r: Record) {
    r.event == ContextRequested || (r.event == ContextRejected && r.parent.None?)
  }

  function Members(rs: seq<Record>): set<Record> { set r | r in rs }

  /** Up the parents to a root; None on leaving the Memory evidence or looping. */
  function Walk(ms: seq<Record>, r: Record, visited: set<Record>): Option<Record>
    requires r in ms
    decreases Members(ms) - visited
  {
    if IsRoot(r) then Some(r)
    else if r in visited then None
    else
      BySpanIn(ms, r.parent);
      var next := BySpan(ms, r.parent);
      assert r in Members(ms) - visited;
      if next.None? then None else Walk(ms, next.value, visited + {r})
  }

  function RootOf(ms: seq<Record>, r: Record): Option<Record>
    requires r in ms
  {
    Walk(ms, r, {})
  }

  /** The first `n` records of `ms` that belong to the attempt of `root`. */
  function Attempt(ms: seq<Record>, n: nat, root: Record): seq<Record>
    requires n <= |ms|
  {
    if n == 0 then []
    else
      var front := Attempt(ms, n - 1, root);
      if RootOf(ms, ms[n - 1]) == Some(root) then front + [ms[n - 1]] else front
  }

  method FindRoot(ms: seq<Record>, r: Record) returns (root: Option<Record>)
    requires r in ms
    ensures root == RootOf(ms, r)
  {
    var current, visited := r, {};
    while !IsRoot(current)
      invariant current in ms && Walk(ms, current, visited) == RootOf(ms, r)
      decreases Members(ms) - visited
    {
      if current in visited {
        return None;
      }
      assert current in Members(ms) - visited;
      BySpanIn(ms, current.parent);
      var next := BySpan(ms, current.parent);
      if next.None? {
        return None;
      }
      visited, current := visited + {current}, next.value;
    }
    return Some(current);
  }

  // ----------------------------------------------------------- one attempt

  predicate NoDuplicates(g: seq<Record>) {
    forall i, j :: 0 <= i < j < |g| && ContextEvent(g[i].event) ==> g[i].event != g[j].event
  }

  /** The Relay record a request must hang under, by the state of the job. */
  predicate RelayParent(parent: Option<Record>, job: Option<Value>, state: Option<Value>) {
    parent.Some? && parent.value.service == Relay &&
    var p := parent.value;
    var good := p.outcome == Success && p.severity == Info;
    if state == Some(Say(Submitted)) then
      p.event == Received && good && p.attributes.Keys == {Environment, RelayContract}
      && Get(parent, Environment).value.Name? && Get(parent, RelayContract) == Some(Say(RelayV1))
    else if state == Some(Say(Running)) then
      p.event == JobRunning && good && p.attributes.Keys == {JobId, ExecutionId, FromState, ToState}
      && Get(parent, JobId) == job && Identifier(Get(parent, ExecutionId))
      && Get(parent, FromState) == Some(Say(Accepted)) && Get(parent, ToState) == Some(Say(Running))
    else if state == Some(Say(Completed)) then
      p.event == JobCompleted && good && p.attributes.Keys == {JobId, FromState, ToState, JobReason}
      && Get(parent, JobId) == job && Get(parent, FromState) == Some(Say(Running))
      && Get(parent, ToState) == Some(Say(Completed)) && Get(parent, JobReason) == Some(Say(ExecutionCompleted))
    else if state == Some(Say(Failed)) then
      p.event == JobFailed && p.outcome == Failure && p.severity == Warning
      && p.attributes.Keys == {JobId, FromState, ToState, JobReason}
      && Get(parent, JobId) == job && Get(parent, FromState) == Some(Say(Running)) && Get(parent, ToState) == Some(Say(Failed))
      && Get(parent, JobReason) in {Some(Say(CapabilityDeniedWord)), Some(Say(AuthorizationUnavailable)), Some(Say(WorkerFailed)),
                                    Some(Say(WorkerResultInvalid))}
    else
      p.event == JobAccepted && good && p.attributes.Keys == {JobId, FromState, ToState}
      && Get(parent, JobId) == job && Get(parent, FromState) == Some(Say(Submitted)) && Get(parent, ToState) == Some(Say(Accepted))
  }

  predicate ParentOk(rs: seq<Record>, root: Record, g: seq<Record>) {
    var parent, job, rejected := BySpan(rs, root.parent), Get(Some(root), JobId), First(g, ContextRejected);
    var reason := Get(rejected, MemoryReason);
    if reason == Some(Say(StateDenied)) then RelayParent(parent, job, Get(rejected, CurrentState))
    else if reason == Some(Say(EnvironmentDenied)) then
      || RelayParent(parent, job, Some(Say(Submitted))) || RelayParent(parent, job, Some(Say(Accepted)))
      || RelayParent(parent, job, Some(Say(Running))) || RelayParent(parent, job, Some(Say(Completed)))
      || RelayParent(parent, job, Some(Say(Failed)))
    else RelayParent(parent, job, Some(Say(Accepted)))
  }

  const STANDALONE: set<Option<Value>> :=
    {Some(Say(AuthorityClaimRejected)), Some(Say(InputInvalid)), Some(Say(RelayUnavailable)),
     Some(Say(JobInvalid)), Some(Say(JobNotFound)), Some(Say(JobIdMismatch))}

  const AFTER_REQUEST: set<Option<Value>> :=
    {Some(Say(EnvironmentDenied)), Some(Say(StateDenied)), Some(Say(RequestInvalid))}

  predicate RootOk(rs: seq<Record>, root: Record, g: seq<Record>) {
    var rejected := First(g, ContextRejected);
    if root.event == ContextRequested then
      ParentOk(rs, root, g) && (rejected.Some? ==> Get(rejected, MemoryReason) in AFTER_REQUEST)
    else Get(Some(root), MemoryReason) in STANDALONE
  }

  const OPENING: seq<Event> := [ContextRequested, ScopeResolved, CandidatesValidated]

  function ContextSequence(g: seq<Record>): seq<Event> {
    var candidates := First(g, CandidatesValidated);
    if Has(g, PackageCreated) then OPENING + [ContextFiltered, BudgetApplied, PackageCreated]
    else if Has(g, PackageFailed) then OPENING + [ContextFiltered, BudgetApplied, PackageFailed]
    else if candidates.Some? && candidates.value.outcome == Errored then OPENING
    else if Has(g, ContextRejected) then
      if Has(g, ContextRequested) then [ContextRequested, ContextRejected] else [ContextRejected]
    else OPENING + [ContextFiltered, BudgetApplied, PackageCreated]
  }

  /** The first record of each of the first `n` required events that is there. */
  function Firsts(g: seq<Record>, required: seq<Event>, n: nat): seq<Record>
    requires n <= |required|
  {
    if n == 0 then []
    else
      var front, last := Firsts(g, required, n - 1), First(g, required[n - 1]);
      if last.Some? then front + [last.value] else front
  }

  predicate SequenceOk(g: seq<Record>, required: seq<Event>) {
    && (forall e :: e in required ==> Has(g, e))
    && InOrder(g, required) && Linked(Firsts(g, required, |required|))
    && forall i :: 0 <= i < |g| ==> g[i].event in required
  }

  // ------------------------------------------------------ what it must say

  predicate RejectionMeans(rejected: Option<Record>) {
    rejected.Some? ==>
      var reason := Get(rejected, MemoryReason);
      && reason in STANDALONE + AFTER_REQUEST
      && (reason == Some(Say(AuthorityClaimRejected)) ==> Positive(Get(rejected, AuthorityClaims)))
      && (reason == Some(Say(StateDenied)) ==>
            Get(rejected, CurrentState) in {Some(Say(Submitted)), Some(Say(Running)), Some(Say(Completed)), Some(Say(Failed))})
  }

  /** `last` says that no later stage left a record. */
  predicate CandidatesMean(candidates: Option<Record>, last: bool) {
    candidates.Some? ==>
      && (candidates.value.outcome == Success ==> Natural(Get(candidates, CandidateCount)))
      && (candidates.value.outcome == Errored ==>
            && Get(candidates, MemoryReason) in {Some(Say(StoreUnavailable)), Some(Say(RecordInvalid))}
            && (Get(candidates, MemoryReason) == Some(Say(RecordInvalid)) ==> Positive(Get(candidates, InvalidCount)))
            && last)
  }

  function Amount(r: Option<Record>, k: Key): int {
    if Get(r, k).Some? && Get(r, k).value.Number? then Get(r, k).value.n else 0
  }

  /** The six aggregates are counts and add up to the candidates. */
  predicate FilterMeans(filtered: Option<Record>, candidates: Option<Record>) {
    filtered.Some? ==>
      && Natural(Get(filtered, AllowedCount)) && Natural(Get(filtered, EnvironmentCount)) && Natural(Get(filtered, InactiveCount))
      && Natural(Get(filtered, IrrelevantCount)) && Natural(Get(filtered, RestrictedCount)) && Natural(Get(filtered, ScopeCount))
      && (candidates.Some? && candidates.value.outcome == Success ==>
            Get(candidates, CandidateCount) == Some(Number(
              Amount(filtered, AllowedCount) + Amount(filtered, EnvironmentCount) + Amount(filtered, InactiveCount)
              + Amount(filtered, IrrelevantCount) + Amount(filtered, RestrictedCount) + Amount(filtered, ScopeCount))))
  }

  predicate BudgetMeans(budget: Option<Record>, filtered: Option<Record>) {
    budget.Some? ==>
      && Natural(Get(budget, IncludedCount)) && Natural(Get(budget, OmittedCount)) && Natural(Get(budget, IncludedChars))
      && Amount(budget, IncludedCount) <= 4 && Amount(budget, IncludedChars) <= 2048
      && (Amount(budget, IncludedCount) == 0 <==> Amount(budget, IncludedChars) == 0)
      && Get(filtered, AllowedCount) == Some(Number(Amount(budget, IncludedCount) + Amount(budget, OmittedCount)))
  }

  predicate PackageMeans(packaged: Option<Record>, budget: Option<Record>, requested: Option<Record>) {
    packaged.Some? && budget.Some? ==>
      && Identifier(Get(packaged, JobId)) && Get(packaged, JobId) == Get(requested, JobId)
      && Get(packaged, IncludedCount) == Get(budget, IncludedCount) && Get(packaged, OmittedCount) == Get(budget, OmittedCount)
  }

  /** The first record of every stage of an attempt. */
  datatype Stages = Stages(
    requested: Option<Record>, rejected: Option<Record>, scope: Option<Record>, candidates: Option<Record>,
    filtered: Option<Record>, budget: Option<Record>, packaged: Option<Record>, failed: Option<Record>)

  function StagesOf(g: seq<Record>): Stages {
    Stages(First(g, ContextRequested), First(g, ContextRejected), First(g, ScopeResolved), First(g, CandidatesValidated),
           First(g, ContextFiltered), First(g, BudgetApplied), First(g, PackageCreated), First(g, PackageFailed))
  }

  predicate Coherent(s: Stages) {
    && (s.requested.Some? ==> Identifier(Get(s.requested, JobId)))
    && (s.scope.Some? ==> ShortText(Get(s.scope, DepartmentRef)))
    && RejectionMeans(s.rejected)
    && CandidatesMean(s.candidates, s.filtered.None? && s.budget.None? && s.packaged.None? && s.failed.None?)
    && FilterMeans(s.filtered, s.candidates)
    && BudgetMeans(s.budget, s.filtered)
    && PackageMeans(s.packaged, s.budget, s.requested)
    && (s.failed.Some? ==> Get(s.failed, MemoryReason) == Some(Say(PackageInvalid)))
  }

  predicate AttemptOk(rs: seq<Record>, root: Record, g: seq<Record>) {
    NoDuplicates(g) && RootOk(rs, root, g) && SequenceOk(g, ContextSequence(g)) && Coherent(StagesOf(g))
  }

  predicate RootedAt(rs: seq<Record>, ms: seq<Record>, i: nat)
    requires i < |ms|
  {
    var root := RootOf(ms, ms[i]);
    root.Some? && AttemptOk(rs, root.value, Attempt(ms, |ms|, root.value))
  }

  predicate RootIs(ms: seq<Record>, i: nat, root: Record)
    requires i < |ms|
  {
    RootOf(ms, ms[i]) == Some(root)
  }

  /** Several attempts on one trace must all be linked to Relay. */
  ghost predicate NotMixed(ms: seq<Record>) {
    forall i, j, a, b {:trigger RootIs(ms, i, a), RootIs(ms, j, b)} ::
      0 <= i < |ms| && 0 <= j < |ms| && RootIs(ms, i, a) && RootIs(ms, j, b) && a != b ==> a.event == ContextRequested
  }

  ghost predicate ContextComplete(rs: seq<Record>) {
    var ms := MemoryRecords(rs);
    ms != [] && CommonOk(rs) && NotMixed(ms) && forall i {:trigger RootedAt(rs, ms, i)} :: 0 <= i < |ms| ==> RootedAt(rs, ms, i)
  }

  // ------------------------------------------------------------- assessing

  lemma CommonExtends(rs: seq<Record>, i: nat)
    requires i < |rs|
    ensures SpansUnique(rs[..i + 1]) <==> SpansUnique(rs[..i]) && !SpanBefore(rs, i, rs[i].span)
  {
    var now, next := rs[..i], rs[..i + 1];
    assert next == now + [rs[i]];
    SpansExtend(now, rs[i]);
    assert HasSpan(now, rs[i].span) <==> SpanBefore(rs, i, rs[i].span) by {
      assert forall k :: 0 <= k < i ==> now[k] == rs[k];
    }
  }

  method CheckCommon(rs: seq<Record>) returns (ok: bool)
    ensures ok <==> CommonOk(rs)
  {
    ok := true;
    var spans: set<Id> := {};
    for i := 0 to |rs|
      invariant forall s :: s in spans <==> SpanBefore(rs, i, s)
      invariant ok <==> SpansUnique(rs[..i]) && forall k {:trigger RecordFits(rs, k)} :: 0 <= k < i ==> RecordFits(rs, k)
    {
      var r := rs[i];
      CommonExtends(rs, i);
      var fits := TraceIdOk(r.trace) && r.trace == rs[0].trace && SpanIdOk(r.span)
                  && (!IsMemory(r) || (MemoryOk(r) && (r.parent.None? || r.parent.value in spans)));
      assert fits <==> RecordFits(rs, i);
      ok := ok && fits && r.span !in spans;
      spans := spans + {r.span};
    }
    assert rs[..|rs|] == rs;
  }

  ghost predicate Attached(ms: seq<Record>, n: nat)
    requires n <= |ms|
  {
    forall i {:trigger RootOf(ms, ms[i])} :: 0 <= i < n ==> RootOf(ms, ms[i]).Some?
  }

  ghost predicate Seen(ms: seq<Record>, n: nat, root: Record)
    requires n <= |ms|
  {
    exists i :: 0 <= i < n && RootIs(ms, i, root)
  }

  /** The groups after the first `n` records, roots in order of appearance. */
  ghost predicate Grouped(ms: seq<Record>, n: nat, roots: seq<Record>, groups: map<Record, seq<Record>>)
    requires n <= |ms|
  {
    && (forall r {:trigger Seen(ms, n, r)} :: r in groups <==> Seen(ms, n, r))
    && (forall r {:trigger groups[r]} :: r in groups ==> groups[r] == Attempt(ms, n, r))
    && (forall r :: r in roots <==> r in groups)
    && (forall i, j :: 0 <= i < j < |roots| ==> roots[i] != roots[j])
  }

  lemma {:induction false} UnseenEmpty(ms: seq<Record>, n: nat, root: Record)
    requires n <= |ms| && !Seen(ms, n, root)
    ensures Attempt(ms, n, root) == []
  {
    if n > 0 {
      assert !RootIs(ms, n - 1, root);
      UnseenEmpty(ms, n - 1, root);
    }
  }

  lemma SeenNext(ms: seq<Record>, n: nat, root: Record)
    requires n < |ms|
    ensures Seen(ms, n + 1, root) <==> Seen(ms, n, root) || RootIs(ms, n, root)
  {
  }

  lemma GroupedNext(ms: seq<Record>, n: nat, roots: seq<Record>, groups: map<Record, seq<Record>>, root: Record)
    requires n < |ms| && Grouped(ms, n, roots, groups) && RootIs(ms, n, root)
    ensures var g := if root in groups then groups[root] else [];
      Grouped(ms, n + 1, if root in groups then roots else roots + [root], groups[root := g + [ms[n]]])
  {
    var g := if root in groups then groups[root] else [];
    var next := groups[root := g + [ms[n]]];
    forall r
      ensures r in next <==> Seen(ms, n + 1, r)
    {
      SeenNext(ms, n, r);
      assert r in groups <==> Seen(ms, n, r);
    }
    if root !in groups {
      assert !Seen(ms, n, root);
      UnseenEmpty(ms, n, root);
    }
    forall r | r in next
      ensures next[r] == Attempt(ms, n + 1, r)
    {
      if r != root {
        assert groups[r] == Attempt(ms, n, r) && !RootIs(ms, n, r);
      }
    }
  }

  lemma GroupedSkip(ms: seq<Record>, n: nat, roots: seq<Record>, groups: map<Record, seq<Record>>)
    requires n < |ms| && Grouped(ms, n, roots, groups) && RootOf(ms, ms[n]).None?
    ensures Grouped(ms, n + 1, roots, groups)
  {
    forall r
      ensures r in groups <==> Seen(ms, n + 1, r)
    {
      SeenNext(ms, n, r);
      assert r in groups <==> Seen(ms, n, r);
    }
    forall r | r in groups
      ensures groups[r] == Attempt(ms, n + 1, r)
    {
      assert groups[r] == Attempt(ms, n, r);
    }
  }

  /** Groups the Memory records by root, in order of first appearance. */
  method GroupContextAttempts(ms: seq<Record>) returns (roots: seq<Record>, groups: map<Record, seq<Record>>, attached: bool)
    ensures (attached <==> Attached(ms, |ms|)) && Grouped(ms, |ms|, roots, groups)
  {
    roots, groups, attached := [], map[], true;
    for i := 0 to |ms|
      invariant (attached <==> Attached(ms, i)) && Grouped(ms, i, roots, groups)
    {
      var root := FindRoot(ms, ms[i]);
      if root.None? {
        attached := false;
        GroupedSkip(ms, i, roots, groups);
      } else {
        GroupedNext(ms, i, roots, groups, root.value);
        if root.value !in groups {
          roots := roots + [root.value];
          groups := groups[root.value := [ms[i]]];
        } else {
          groups := groups[root.value := groups[root.value] + [ms[i]]];
        }
      }
    }
  }

  ghost predicate GoodAttempt(rs: seq<Record>, ms: seq<Record>, root: Record) {
    AttemptOk(rs, root, Attempt(ms, |ms|, root))
  }

  method CheckSequence(g: seq<Record>, required: seq<Event>) returns (ok: bool)
    ensures ok <==> SequenceOk(g, required)
  {
    var ordered := CheckOrder(g, required);
    var missing := exists e :: e in required && !Has(g, e);
    var impossible := exists i :: 0 <= i < |g| && !(g[i].event in required);
    ok := ordered && !missing && !impossible && Linked(Firsts(g, required, |required|));
  }

  /** The verdict each root deserves, in order. */
  ghost function Verdicts(rs: seq<Record>, ms: seq<Record>, roots: seq<Record>): (v: seq<bool>)
    ensures |v| == |roots|
  {
    seq(|roots|, k requires 0 <= k < |roots| => GoodAttempt(rs, ms, roots[k]))
  }

  lemma PrefixNext(v: seq<bool>, i: nat)
    requires i < |v|
    ensures v[..i] + [v[i]] == v[..i + 1] && v[..|v|] == v
  {
  }

  /** No event of the attempt is seen twice. */
  method CheckDuplicates(g: seq<Record>) returns (ok: bool)
    ensures ok <==> NoDuplicates(g)
  {
    ok := true;
    var seen: set<Event> := {};
    for i := 0 to |g|
      invariant forall e :: e in seen <==> exists k :: 0 <= k < i && g[k].event == e && ContextEvent(e)
      invariant ok <==> forall k, n :: 0 <= k < n < i && ContextEvent(g[k].event) ==> g[k].event != g[n].event
    {
      if g[i].event in seen {
        ok := false;
      } else if ContextEvent(g[i].event) {
        seen := seen + {g[i].event};
      }
    }
  }

  /** The record of a span, the last one winning as in a map built in order. */
  method FindBySpan(rs: seq<Record>, span: Option<Id>) returns (found: Option<Record>)
    ensures found == BySpan(rs, span)
  {
    found := None;
    for i := 0 to |rs|
      invariant found == BySpan(rs[..i], span)
    {
      assert rs[..i + 1][..i] == rs[..i];
      if span == Some(rs[i].span) {
        found := Some(rs[i]);
      }
    }
    assert rs[..|rs|] == rs;
  }

  /** A request continues the lifecycle record of its job's state, and both kinds
      of rejection give a reason that is possible where they stand. */
  method CheckRootRecord(rs: seq<Record>, root: Record, g: seq<Record>) returns (ok: bool)
    ensures ok <==> RootOk(rs, root, g)
  {
    var rejected := First(g, ContextRejected);
    var reason := Get(rejected, MemoryReason);
    if root.event != ContextRequested {
      return Get(Some(root), MemoryReason) in STANDALONE;
    }
    var parent := FindBySpan(rs, root.parent);
    var job := Get(Some(root), JobId);
    if reason == Some(Say(StateDenied)) {
      ok := RelayParent(parent, job, Get(rejected, CurrentState));
    } else if reason == Some(Say(EnvironmentDenied)) {
      ok := false;
      var states := [Submitted, Accepted, Running, Completed, Failed];
      for i := 0 to |states|
        invariant ok <==> exists k :: 0 <= k < i && RelayParent(parent, job, Some(Say(states[k])))
      {
        if RelayParent(parent, job, Some(Say(states[i]))) {
          ok := true;
        }
      }
      assert ok ==> ParentOk(rs, root, g);
      assert states[0] == Submitted && states[1] == Accepted && states[2] == Running && states[3] == Completed && states[4] == Failed;
    } else {
      ok := RelayParent(parent, job, Some(Say(Accepted)));
    }
    if rejected.Some? && reason !in AFTER_REQUEST {
      ok := false;
    }
  }

  const AGGREGATES: seq<Key> := [AllowedCount, EnvironmentCount, InactiveCount, IrrelevantCount, RestrictedCount, ScopeCount]

  function Total(r: Option<Record>, n: nat): int
    requires n <= |AGGREGATES|
  {
    if n == 0 then 0 else Total(r, n - 1) + Amount(r, AGGREGATES[n - 1])
  }

  lemma TheSix()
    ensures var ks := AGGREGATES;
      ks[0] == AllowedCount && ks[1] == EnvironmentCount && ks[2] == InactiveCount
      && ks[3] == IrrelevantCount && ks[4] == RestrictedCount && ks[5] == ScopeCount
  {
  }

  lemma TotalOfSix(r: Option<Record>)
    ensures Total(r, 6) == Amount(r, AllowedCount) + Amount(r, EnvironmentCount) + Amount(r, InactiveCount)
      + Amount(r, IrrelevantCount) + Amount(r, RestrictedCount) + Amount(r, ScopeCount)
  {
    TheSix();
    var ks := AGGREGATES;
    assert Total(r, 2) == Amount(r, ks[0]) + Amount(r, ks[1]) by {
      assert Total(r, 1) == Amount(r, ks[0]);
    }
    assert Total(r, 4) == Total(r, 2) + Amount(r, ks[2]) + Amount(r, ks[3]) by {
      assert Total(r, 3) == Total(r, 2) + Amount(r, ks[2]);
    }
    assert Total(r, 6) == Total(r, 4) + Amount(r, ks[4]) + Amount(r, ks[5]) by {
      assert Total(r, 5) == Total(r, 4) + Amount(r, ks[4]);
    }
  }

  lemma CountsOfSix(r: Option<Record>)
    ensures (forall k :: 0 <= k < 6 ==> Natural(Get(r, AGGREGATES[k]))) <==>
      && Natural(Get(r, AllowedCount)) && Natural(Get(r, EnvironmentCount)) && Natural(Get(r, InactiveCount))
      && Natural(Get(r, IrrelevantCount)) && Natural(Get(r, RestrictedCount)) && Natural(Get(r, ScopeCount))
  {
    TheSix();
  }

  /** The aggregates of a filter record, added up in one pass that also notices
      one that is not a count. */
  method SumAggregates(filtered: Option<Record>) returns (sum: int, counts: bool)
    ensures sum == Total(filtered, 6)
    ensures counts <==> forall k :: 0 <= k < 6 ==> Natural(Get(filtered, AGGREGATES[k]))
  {
    sum, counts := 0, true;
    for i := 0 to 6
      invariant sum == Total(filtered, i)
      invariant counts <==> forall k :: 0 <= k < i ==> Natural(Get(filtered, AGGREGATES[k]))
    {
      if !Natural(Get(filtered, AGGREGATES[i])) {
        counts := false;
      }
      sum := sum + Amount(filtered, AGGREGATES[i]);
    }
  }

  method CheckFilter(filtered: Option<Record>, candidates: Option<Record>) returns (ok: bool)
    ensures ok <==> FilterMeans(filtered, candidates)
  {
    if filtered.None? {
      return true;
    }
    var sum, counts := SumAggregates(filtered);
    TotalOfSix(filtered);
    CountsOfSix(filtered);
    ok := counts;
    if candidates.Some? && candidates.value.outcome == Success && Get(candidates, CandidateCount) != Some(Number(sum)) {
      ok := false;
    }
  }

  /** The stages of an attempt against each other; the number of contradictions. */
  method CheckMeaning(g: seq<Record>) returns (errors: nat)
    ensures errors == 0 <==> Coherent(StagesOf(g))
  {
    errors := 0;
    var requested, scope, rejected := First(g, ContextRequested), First(g, ScopeResolved), First(g, ContextRejected);
    if requested.Some? && !Identifier(Get(requested, JobId)) {
      errors := errors + 1;
    }
    if scope.Some? && !ShortText(Get(scope, DepartmentRef)) {
      errors := errors + 1;
    }
    if !RejectionMeans(rejected) {
      errors := errors + 1;
    }
    var candidates, filtered := First(g, CandidatesValidated), First(g, ContextFiltered);
    var filterOk := CheckFilter(filtered, candidates);
    if !filterOk {
      errors := errors + 1;
    }
    var budget, packaged, failed := First(g, BudgetApplied), First(g, PackageCreated), First(g, PackageFailed);
    if !BudgetMeans(budget, filtered) {
      errors := errors + 1;
    }
    if !PackageMeans(packaged, budget, requested) {
      errors := errors + 1;
    }
    if failed.Some? && Get(failed, MemoryReason) != Some(Say(PackageInvalid)) {
      errors := errors + 1;
    }
    if !CandidatesMean(candidates, filtered.None? && budget.None? && packaged.None? && failed.None?) {
      errors := errors + 1;
    }
  }

  /** One attempt against everything it owes. */
  method CheckAttempt(rs: seq<Record>, root: Record, g: seq<Record>) returns (ok: bool)
    ensures ok <==> AttemptOk(rs, root, g)
  {
    var unique := CheckDuplicates(g);
    var rooted := CheckRootRecord(rs, root, g);
    var sequence := CheckSequence(g, ContextSequence(g));
    var contradictions := CheckMeaning(g);
    ok := unique && rooted && sequence && contradictions == 0;
  }

  method CheckRoot(rs: seq<Record>, ghost ms: seq<Record>, roots: seq<Record>, i: nat, g: seq<Record>) returns (ok: bool)
    requires i < |roots| && g == Attempt(ms, |ms|, roots[i])
    ensures ok == Verdicts(rs, ms, roots)[i]
  {
    ok := CheckAttempt(rs, roots[i], g);
  }

  method CheckAttempts(rs: seq<Record>, ghost ms: seq<Record>, roots: seq<Record>, groups: map<Record, seq<Record>>)
    returns (verdicts: seq<bool>)
    requires forall r :: r in roots ==> r in groups && groups[r] == Attempt(ms, |ms|, r)
    ensures verdicts == Verdicts(rs, ms, roots)
  {
    verdicts := [];
    for i := 0 to |roots|
      invariant verdicts == Verdicts(rs, ms, roots)[..i]
    {
      var good := CheckRoot(rs, ms, roots, i, groups[roots[i]]);
      PrefixNext(Verdicts(rs, ms, roots), i);
      verdicts := verdicts + [good];
    }
  }

  /** Complete exactly when every Memory record belongs to an attempt and every
      attempt is whole, in order, consistent and properly rooted. */
  method AssessMemoryContextTrace(rs: seq<Record>) returns (complete: bool)
    ensures complete <==> ContextComplete(rs)
  {
    var ms := MemoryRecords(rs);
    if ms == [] {
      return false;
    }
    var common := CheckCommon(rs);
    var roots, groups, attached := GroupContextAttempts(ms);
    var mixed := |roots| > 1 && exists i :: 0 <= i < |roots| && roots[i].event != ContextRequested;
    var verdicts := CheckAttempts(rs, ms, roots, groups);
    var good := forall k :: 0 <= k < |verdicts| ==> verdicts[k];
    GroupsAreRoots(ms, roots, groups);
    MixedMeans(ms, roots);
    AttemptsMean(rs, ms, roots);
    complete := common && attached && !mixed && good;
  }

  ghost predicate RootsOf(ms: seq<Record>, roots: seq<Record>) {
    && (forall r {:trigger Seen(ms, |ms|, r)} :: r in roots <==> Seen(ms, |ms|, r))
    && (forall i, j :: 0 <= i < j < |roots| ==> roots[i] != roots[j])
  }

  lemma GroupsAreRoots(ms: seq<Record>, roots: seq<Record>, groups: map<Record, seq<Record>>)
    requires Grouped(ms, |ms|, roots, groups)
    ensures RootsOf(ms, roots)
  {
  }

  lemma MixedMeans(ms: seq<Record>, roots: seq<Record>)
    requires RootsOf(ms, roots)
    ensures NotMixed(ms) <==> !(|roots| > 1 && exists i :: 0 <= i < |roots| && roots[i].event != ContextRequested)
  {
    if |roots| > 1 {
      forall i | 0 <= i < |roots|
        ensures NotMixed(ms) ==> roots[i].event == ContextRequested
      {
        var other := if i == 0 then roots[1] else roots[0];
        assert roots[i] in roots && other in roots;
        assert Seen(ms, |ms|, roots[i]) && Seen(ms, |ms|, other);
        var a :| 0 <= a < |ms| && RootIs(ms, a, roots[i]);
        var b :| 0 <= b < |ms| && RootIs(ms, b, other);
      }
      if forall i :: 0 <= i < |roots| ==> roots[i].event == ContextRequested {
        forall i, a | 0 <= i < |ms| && RootIs(ms, i, a)
          ensures a.event == ContextRequested
        {
          assert Seen(ms, |ms|, a) && a in roots;
        }
      }
    } else {
      forall i, j, a, b | 0 <= i < |ms| && 0 <= j < |ms| && RootIs(ms, i, a) && RootIs(ms, j, b)
        ensures a == b
      {
        assert Seen(ms, |ms|, a) && Seen(ms, |ms|, b) && a in roots && b in roots;
      }
    }
  }

  lemma AttemptsMean(rs: seq<Record>, ms: seq<Record>, roots: seq<Record>)
    requires RootsOf(ms, roots)
    ensures (forall i {:trigger RootedAt(rs, ms, i)} :: 0 <= i < |ms| ==> RootedAt(rs, ms, i)) <==>
            (Attached(ms, |ms|) && forall k :: 0 <= k < |roots| ==> Verdicts(rs, ms, roots)[k])
  {
    var verdicts := Verdicts(rs, ms, roots);
    if forall i {:trigger RootedAt(rs, ms, i)} :: 0 <= i < |ms| ==> RootedAt(rs, ms, i) {
      forall i | 0 <= i < |ms|
        ensures RootOf(ms, ms[i]).Some?
      {
        assert RootedAt(rs, ms, i);
      }
      forall k | 0 <= k < |verdicts|
        ensures verdicts[k]
      {
        assert roots[k] in roots && Seen(ms, |ms|, roots[k]);
        var i :| 0 <= i < |ms| && RootIs(ms, i, roots[k]);
        assert RootedAt(rs, ms, i);
      }
    }
    if Attached(ms, |ms|) && forall k :: 0 <= k < |verdicts| ==> verdicts[k] {
      forall i | 0 <= i < |ms|
        ensures RootedAt(rs, ms, i)
      {
        var root := RootOf(ms, ms[i]).value;
        assert RootIs(ms, i, root);
        assert Seen(ms, |ms|, root) && root in roots;
        var k :| 0 <= k < |roots| && roots[k] == root;
        assert verdicts[k];
      }
    }
  }
}
