// Evidence: the records services append under one trace, and how an assessor
// looks them up.

module Evidence {
  import opened Common

  datatype Event =
    | Received | AuthorityRejected | IntentInvalid | ContextFailed | ClaimFailed | Conflicted | Replayed
    | JobAccepted | JobRunning | ToolRequested | GateStarted | CapabilityAllowed | CapabilityDenied
    | WorkerStarted | WorkerFinished | ResultValidated | ResultProjected | JobCompleted | JobFailed
    | TransitionRejected | ApiFailed | ApiPrepared | ApiResponse | ModelInvocationCreated
    | ContextRequested | ContextRejected | ScopeResolved | CandidatesValidated | ContextFiltered | BudgetApplied
    | PackageCreated | PackageFailed | OtherMemory | Unsupported

  datatype Service = Relay | ToolGateway | StatusWorker | RelayApi | Memory | OtherService

  datatype Key =
    | Environment | RelayContract | AuthorityClaims | ValidationErrors | ProviderSource | IdempotencyOutcome
    | JobId | FromState | ToState | ExecutionId | Capability | ToolClass | ToolTarget | ToolDecision | ToolReason
    | WorkerId | WorkerOutcome | JobOutcome | JobReason | CurrentState | AttemptedState
    | HttpMethod | HttpRoute | HttpStatus | Disposition
    | DepartmentRef | MemoryReason | CandidateCount | InvalidCount | AllowedCount | EnvironmentCount | InactiveCount
    | IrrelevantCount | RestrictedCount | ScopeCount | IncludedCount | IncludedChars | OmittedCount

  /** The constants evidence carries. */
  datatype Word =
    | Submitted | Accepted | Running | Completed | Failed | Unknown
    | AllowWord | DenyWord | CapabilityGranted | CapabilityNotGranted | AuthorizationUnavailable | CapabilityDeniedWord
    | StatusAvailable | WorkerUnavailable | WorkerResultInvalid | WorkerFailed
    | ExecutionStarted | ExecutionCompleted | ConflictWord | ExistingWord
    | StatusRead | StatusTool | Platform | RelayV1
    | AuthorityClaimRejected | InputInvalid | RelayUnavailable | JobInvalid | JobNotFound | JobIdMismatch
    | EnvironmentDenied | StateDenied | RequestInvalid | StoreUnavailable | RecordInvalid | PackageInvalid

  /** A name supplied from outside has a length; everything else is short. */
  datatype Value = Say(word: Word) | Name(id: Id, length: nat) | Number(n: int) | Structured

  datatype Outcome = Success | Denied | Failure | Errored

  datatype Severity = Info | Warning | Error

  datatype Record = Record(
    trace: Id, span: Id, parent: Option<Id>, service: Service, event: Event,
    outcome: Outcome, severity: Severity, attributes: map<Key, Value>)

  // ------------------------------------------------------------------ bounds

  const MAX_TEXT := 160

  predicate TraceIdOk(t: Id) { 0 < t < 0x1_0000_0000_0000_0000_0000_0000_0000_0000 }

  predicate SpanIdOk(s: Id) { 0 < s < 0x1_0000_0000_0000_0000 }

  predicate BoundedValue(v: Value) {
    !v.Structured? && (v.Name? ==> v.length <= MAX_TEXT)
  }

  predicate Bounded(a: map<Key, Value>) {
    forall k :: k in a ==> BoundedValue(a[k])
  }

  // --------------------------------------------------------------- looking up

  function FirstFrom(rs: seq<Record>, e: Event, i: nat): (k: nat)
    requires i <= |rs|
    ensures i <= k <= |rs|
    decreases |rs| - i
  {
    if i == |rs| || rs[i].event == e then i else FirstFrom(rs, e, i + 1)
  }

  /** Index of the first record of event `e`, or the length. */
  function FirstIndex(rs: seq<Record>, e: Event): (i: nat)
    ensures i <= |rs|
  {
    FirstFrom(rs, e, 0)
  }

  lemma {:induction false} FirstFromMeaning(rs: seq<Record>, e: Event, i: nat)
    requires i <= |rs|
    ensures var k := FirstFrom(rs, e, i);
      && (k < |rs| ==> rs[k].event == e)
      && (forall n :: i <= n < k ==> rs[n].event != e)
    decreases |rs| - i
  {
    if i < |rs| && rs[i].event != e {
      FirstFromMeaning(rs, e, i + 1);
    }
  }

  lemma FirstIndexMeaning(rs: seq<Record>, e: Event)
    ensures var i := FirstIndex(rs, e);
      && (i < |rs| ==> rs[i].event == e)
      && (forall k :: 0 <= k < i ==> rs[k].event != e)
  {
    FirstFromMeaning(rs, e, 0);
  }

  lemma {:induction false} FirstFromIs(rs: seq<Record>, e: Event, from: nat, i: nat)
    requires from <= i <= |rs| && (i < |rs| ==> rs[i].event == e) && forall k :: from <= k < i ==> rs[k].event != e
    ensures FirstFrom(rs, e, from) == i
    decreases i - from
  {
    if from < i {
      FirstFromIs(rs, e, from + 1, i);
    }
  }

  predicate Has(rs: seq<Record>, e: Event) {
    exists k :: 0 <= k < |rs| && rs[k].event == e
  }

  function First(rs: seq<Record>, e: Event): Option<Record> {
    var i := FirstIndex(rs, e);
    if i < |rs| then Some(rs[i]) else None
  }

  function Get(r: Option<Record>, k: Key): Option<Value> {
    if r.Some? && k in r.value.attributes then Some(r.value.attributes[k]) else None
  }

  /** The record carries the word under the key. */
  predicate Says(r: Record, k: Key, word: Word) {
    k in r.attributes && r.attributes[k] == Say(word)
  }

  function Missing(rs: seq<Record>, required: seq<Event>): seq<Event> {
    if required == [] then []
    else if Has(rs, required[0]) then Missing(rs, required[1..])
    else [required[0]] + Missing(rs, required[1..])
  }

  lemma {:induction false} NothingMissing(rs: seq<Record>, required: seq<Event>)
    ensures Missing(rs, required) == [] <==> forall e :: e in required ==> Has(rs, e)
  {
    if required != [] {
      NothingMissing(rs, required[1..]);
      assert required == [required[0]] + required[1..];
    }
  }

  // ------------------------------------------------------- spans and order

  predicate SpansUnique(rs: seq<Record>) {
    forall i, j :: 0 <= i < j < |rs| ==> rs[i].span != rs[j].span
  }

  predicate HasSpan(rs: seq<Record>, span: Id) {
    exists k :: 0 <= k < |rs| && rs[k].span == span
  }

  lemma SpansExtend(rs: seq<Record>, r: Record)
    ensures SpansUnique(rs + [r]) <==> SpansUnique(rs) && !HasSpan(rs, r.span)
    ensures forall s :: HasSpan(rs + [r], s) <==> HasSpan(rs, s) || s == r.span
  {
    var next := rs + [r];
    assert forall k :: 0 <= k < |rs| ==> next[k] == rs[k];
    assert next[|rs|] == r;
    forall s
      ensures HasSpan(next, s) <==> HasSpan(rs, s) || s == r.span
    {
      if HasSpan(rs, s) {
        var k :| 0 <= k < |rs| && rs[k].span == s;
        assert next[k].span == s;
      }
    }
  }

  /** The required events first occur in their required order. */
  predicate InOrder(rs: seq<Record>, required: seq<Event>) {
    forall i, j :: 0 <= i < j < |required| && Has(rs, required[i]) && Has(rs, required[j]) ==>
      FirstIndex(rs, required[i]) < FirstIndex(rs, required[j])
  }

  predicate Linked(rs: seq<Record>) {
    forall i :: 1 <= i < |rs| ==> rs[i].parent == Some(rs[i - 1].span)
  }

  datatype Tone = Tone(outcome: Outcome, severity: Severity)

  method CheckOrder(rs: seq<Record>, required: seq<Event>) returns (ok: bool)
    ensures ok <==> InOrder(rs, required)
  {
    ok := true;
    var prior := -1;
    ghost var at := -1;
    for n := 0 to |required|
      invariant ok <==> InOrder(rs, required[..n])
      invariant prior < |rs| && at < n
      invariant ok ==> Highest(rs, required[..n], prior)
      invariant prior != -1 ==> 0 <= at && Has(rs, required[at]) && FirstIndex(rs, required[at]) == prior
    {
      var index := FirstIndex(rs, required[n]);
      FirstIndexMeaning(rs, required[n]);
      assert required[..n + 1] == required[..n] + [required[n]];
      if index < |rs| && index <= prior {
        ok := false;
        OrderBreaks(rs, required[..n], required[n], at);
      } else {
        OrderExtends(rs, required[..n], required[n], prior);
      }
      if index < |rs| {
        prior, at := index, n;
      }
    }
    assert required[..|required|] == required;
  }

  ghost predicate Highest(rs: seq<Record>, done: seq<Event>, prior: int) {
    forall k :: 0 <= k < |done| && Has(rs, done[k]) ==> FirstIndex(rs, done[k]) <= prior
  }

  lemma OrderBreaks(rs: seq<Record>, done: seq<Event>, e: Event, at: nat)
    requires at < |done| && Has(rs, done[at]) && Has(rs, e) && FirstIndex(rs, e) <= FirstIndex(rs, done[at])
    ensures !InOrder(rs, done + [e])
  {
    var next := done + [e];
    assert next[at] == done[at] && next[|done|] == e;
  }

  lemma OrderExtends(rs: seq<Record>, done: seq<Event>, e: Event, prior: int)
    requires InOrder(rs, done) ==> Highest(rs, done, prior)
    requires Has(rs, e) ==> prior < FirstIndex(rs, e)
    ensures InOrder(rs, done + [e]) <==> InOrder(rs, done)
    ensures InOrder(rs, done) ==> Highest(rs, done + [e], if Has(rs, e) then FirstIndex(rs, e) else prior)
  {
    var next := done + [e];
    if InOrder(rs, next) {
      forall i, j | 0 <= i < j < |done| && Has(rs, done[i]) && Has(rs, done[j])
        ensures FirstIndex(rs, done[i]) < FirstIndex(rs, done[j])
      {
        assert next[i] == done[i] && next[j] == done[j];
      }
    }
  }

  // ------------------------------------------------------------------ ledger

  /** The evidence ledger, append only. */
  class EvidenceLog {
    var records: seq<Record>

    constructor ()
      ensures records == []
    {
      records := [];
    }

    method Append(r: Record)
      modifies this
      ensures records == old(records) + [r]
    {
      records := records + [r];
    }
  }
}
