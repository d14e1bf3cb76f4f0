// Job evidence and the assessor that judges whether the evidence of one trace
// is complete.

module JobTrace {
  import opened Common
  import opened Evidence

  // ------------------------------------------------------------------ rules

  datatype Rule = Rule(service: Service, keys: set<Key>)

  function RuleOf(e: Event): Option<Rule> {
    match e
    case Received => Some(Rule(Relay, {Environment, RelayContract}))
    case AuthorityRejected => Some(Rule(Relay, {AuthorityClaims}))
    case IntentInvalid => Some(Rule(Relay, {ValidationErrors}))
    case ContextFailed => Some(Rule(Relay, {ProviderSource}))
    case ClaimFailed => Some(Rule(Relay, {}))
    case Conflicted => Some(Rule(Relay, {IdempotencyOutcome}))
    case Replayed => Some(Rule(Relay, {IdempotencyOutcome, JobId}))
    case JobAccepted => Some(Rule(Relay, {JobId, FromState, ToState}))
    case JobRunning => Some(Rule(Relay, {JobId, ExecutionId, FromState, ToState}))
    case ToolRequested => Some(Rule(Relay, {JobId, ExecutionId, Capability, ToolClass, ToolTarget}))
    case GateStarted => Some(Rule(ToolGateway, {JobId, ExecutionId, Capability}))
    case CapabilityAllowed => Some(Rule(ToolGateway, {JobId, ExecutionId, Capability, ToolDecision, ToolReason}))
    case CapabilityDenied => Some(Rule(ToolGateway, {JobId, ExecutionId, Capability, ToolDecision, ToolReason}))
    case WorkerStarted => Some(Rule(StatusWorker, {JobId, ExecutionId, WorkerId}))
    case WorkerFinished => Some(Rule(StatusWorker, {JobId, ExecutionId, WorkerOutcome}))
    case ResultValidated => Some(Rule(Relay, {JobId, ExecutionId, JobOutcome}))
    case ResultProjected => Some(Rule(Relay, {JobId, JobOutcome}))
    case JobCompleted => Some(Rule(Relay, {JobId, FromState, ToState, JobReason}))
    case JobFailed => Some(Rule(Relay, {JobId, FromState, ToState, JobReason}))
    case TransitionRejected => Some(Rule(Relay, {JobId, CurrentState, AttemptedState, JobReason}))
    case ApiFailed => Some(Rule(RelayApi, {HttpMethod, HttpRoute, HttpStatus, Disposition}))
    case ApiPrepared => Some(Rule(RelayApi, {HttpMethod, HttpRoute, HttpStatus, Disposition}))
    case ApiResponse => Some(Rule(RelayApi, {HttpMethod, HttpRoute, HttpStatus, Disposition}))
    case _ => None
  }

  predicate Early(e: Event) {
    e == AuthorityRejected || e == IntentInvalid || e == ContextFailed || e == ClaimFailed || e == Conflicted || e == Replayed
  }

  predicate Optional(e: Event) {
    e == TransitionRejected || e == ApiPrepared || e == ApiResponse || e == ApiFailed
  }

  // --------------------------------------------------------- the sequence

  const PREFIX: seq<Event> := [Received, JobAccepted, JobRunning, ToolRequested, GateStarted]

  function FirstEarly(rs: seq<Record>): Option<Event> {
    if rs == [] then None else if Early(rs[0].event) then Some(rs[0].event) else FirstEarly(rs[1..])
  }

  function Expected(rs: seq<Record>): seq<Event> {
    if FirstEarly(rs).Some? then [Received, FirstEarly(rs).value]
    else if Has(rs, CapabilityDenied) then PREFIX + [CapabilityDenied, ResultValidated, ResultProjected, JobFailed]
    else PREFIX + [CapabilityAllowed, WorkerStarted, WorkerFinished, ResultValidated, ResultProjected,
                   if Has(rs, JobCompleted) then JobCompleted else JobFailed]
  }

  function Canonical(rs: seq<Record>, required: seq<Event>): seq<Record> {
    if rs == [] then []
    else if rs[0].event in required then [rs[0]] + Canonical(rs[1..], required)
    else Canonical(rs[1..], required)
  }

  // ----------------------------------------------- what a complete trace is

  predicate RecordOk(trace: Id, r: Record) {
    && RuleOf(r.event).Some?
    && TraceIdOk(r.trace) && r.trace == trace && SpanIdOk(r.span)
    && r.service == RuleOf(r.event).value.service
    && r.attributes.Keys == RuleOf(r.event).value.keys && Bounded(r.attributes)
  }

  predicate RecordsOk(rs: seq<Record>) {
    forall i :: 0 <= i < |rs| ==> RecordOk(rs[0].trace, rs[i])
  }

  predicate OneRoot(rs: seq<Record>) {
    exists k :: 0 <= k < |rs| && rs[k].parent.None? && rs[k].event == Received
             && forall i :: 0 <= i < |rs| && rs[i].parent.None? ==> i == k
  }

  predicate ParentsExist(rs: seq<Record>) {
    forall i :: 0 <= i < |rs| && rs[i].parent.Some? ==> HasSpan(rs, rs[i].parent.value)
  }

  predicate ExtrasOk(rs: seq<Record>, required: seq<Event>) {
    forall i :: 0 <= i < |rs| ==> rs[i].event in required || Optional(rs[i].event)
  }

  predicate Agree(rs: seq<Record>, k: Key) {
    forall i, j :: 0 <= i < |rs| && 0 <= j < |rs| && k in rs[i].attributes && k in rs[j].attributes ==>
      rs[i].attributes[k] == rs[j].attributes[k]
  }

  function ReasonByOutcome(o: Option<Value>): Option<Value> {
    if o == Some(Say(CapabilityDeniedWord)) then o
    else if o == Some(Say(AuthorizationUnavailable)) then o
    else if o == Some(Say(WorkerUnavailable)) then Some(Say(WorkerFailed))
    else if o == Some(Say(WorkerResultInvalid)) then o
    else None
  }

  function ExpectedOutcome(denied: Option<Record>, finished: Option<Record>): Option<Value> {
    if denied.Some? then
      if Get(denied, ToolReason) == Some(Say(AuthorizationUnavailable)) then Some(Say(AuthorizationUnavailable))
      else Some(Say(CapabilityDeniedWord))
    else Get(finished, WorkerOutcome)
  }

  /** The lifecycle claims of the first record of each stage. */
  predicate StagesAgree(accepted: Option<Record>, running: Option<Record>, request: Option<Record>) {
    && (accepted.Some? ==> Get(accepted, FromState) == Some(Say(Submitted)) && Get(accepted, ToState) == Some(Say(Accepted)))
    && (running.Some? ==> Get(running, FromState) == Some(Say(Accepted)) && Get(running, ToState) == Some(Say(Running)))
    && (request.Some? ==> Get(request, ToolClass) == Some(Say(StatusTool)) && Get(request, ToolTarget) == Some(Say(Platform)))
  }

  predicate DecisionsAgree(allowed: Option<Record>, denied: Option<Record>, finished: Option<Record>) {
    && (allowed.Some? ==>
          && Get(allowed, ToolDecision) == Some(Say(AllowWord))
          && Get(allowed, ToolReason) == Some(Say(CapabilityGranted))
          && Get(allowed, Capability) == Some(Say(StatusRead)))
    && (denied.Some? ==>
          && Get(denied, ToolDecision) == Some(Say(DenyWord))
          && (Get(denied, ToolReason) == Some(Say(CapabilityNotGranted)) || Get(denied, ToolReason) == Some(Say(AuthorizationUnavailable))))
    && (Get(finished, WorkerOutcome).Some? ==>
          Get(finished, WorkerOutcome) in {Some(Say(StatusAvailable)), Some(Say(WorkerUnavailable)), Some(Say(WorkerResultInvalid))})
  }

  predicate OutcomesAgree(expected: Option<Value>, validated: Option<Value>, projected: Option<Value>) {
    && (projected.Some? ==> projected == expected)
    && (validated.Some? ==> validated == expected)
    && (projected.Some? && validated.Some? ==> validated == projected)
  }

  predicate EndsAgree(completed: Option<Record>, failed: Option<Record>, projected: Option<Value>) {
    && (completed.Some? ==>
          && Get(completed, FromState) == Some(Say(Running)) && Get(completed, ToState) == Some(Say(Completed))
          && Get(completed, JobReason) == Some(Say(ExecutionCompleted)) && projected == Some(Say(StatusAvailable)))
    && (failed.Some? ==>
          && Get(failed, FromState) == Some(Say(Running)) && Get(failed, ToState) == Some(Say(Failed))
          && Get(failed, JobReason) == ReasonByOutcome(projected))
  }

  function Judged(good: bool): Tone { if good then Tone(Success, Info) else Tone(Failure, Warning) }

  function ToneOf(r: Record): Option<Tone> {
    match r.event
    case Received | Replayed | JobAccepted | JobRunning | ToolRequested | GateStarted | CapabilityAllowed
      | WorkerStarted | ResultValidated | JobCompleted | ApiPrepared => Some(Tone(Success, Info))
    case AuthorityRejected | IntentInvalid | ContextFailed | ClaimFailed | Conflicted | CapabilityDenied
      | TransitionRejected => Some(Tone(Denied, Warning))
    case WorkerFinished => Some(Judged(Get(Some(r), WorkerOutcome) == Some(Say(StatusAvailable))))
    case ResultProjected => Some(Judged(Get(Some(r), JobOutcome) == Some(Say(StatusAvailable))))
    case JobFailed => Some(Tone(Failure, Warning))
    case ApiResponse =>
      var status := Get(Some(r), HttpStatus);
      Some(if status.Some? && status.value.Number? && status.value.n < 400 then Tone(Success, Info) else Tone(Denied, Warning))
    case ApiFailed => Some(Tone(Failure, Error))
    case _ => None
  }

  predicate ToneOk(r: Record) {
    ToneOf(r).Some? ==> Tone(r.outcome, r.severity) == ToneOf(r).value
  }

  function Count(rs: seq<Record>, prepared: bool): nat {
    if rs == [] then 0
    else
      var counted := if prepared then rs[0].event == ApiPrepared else rs[0].event == ApiResponse || rs[0].event == ApiFailed;
      Count(rs[1..], prepared) + if counted then 1 else 0
  }

  /** The first record of every stage the assessor judges. */
  datatype Stages = Stages(
    accepted: Option<Record>, running: Option<Record>, request: Option<Record>, allowed: Option<Record>, denied: Option<Record>,
    finished: Option<Record>, validated: Option<Record>, projected: Option<Record>, completed: Option<Record>, failed: Option<Record>)

  function StagesOf(rs: seq<Record>): Stages {
    Stages(First(rs, JobAccepted), First(rs, JobRunning), First(rs, ToolRequested), First(rs, CapabilityAllowed),
           First(rs, CapabilityDenied), First(rs, WorkerFinished), First(rs, ResultValidated), First(rs, ResultProjected),
           First(rs, JobCompleted), First(rs, JobFailed))
  }

  predicate Coherent(s: Stages) {
    && StagesAgree(s.accepted, s.running, s.request)
    && DecisionsAgree(s.allowed, s.denied, s.finished)
    && OutcomesAgree(ExpectedOutcome(s.denied, s.finished), Get(s.validated, JobOutcome), Get(s.projected, JobOutcome))
    && EndsAgree(s.completed, s.failed, Get(s.projected, JobOutcome))
  }

  predicate Semantic(rs: seq<Record>) {
    && Agree(rs, JobId) && Agree(rs, ExecutionId) && Agree(rs, Capability)
    && Coherent(StagesOf(rs))
    && (forall i :: 0 <= i < |rs| ==> ToneOk(rs[i]))
    && Count(rs, true) == Count(rs, false)
  }

  predicate Shaped(rs: seq<Record>, required: seq<Event>) {
    && (forall e :: e in required ==> Has(rs, e))
    && InOrder(rs, required) && Linked(Canonical(rs, required)) && ExtrasOk(rs, required)
  }

  predicate Complete(rs: seq<Record>) {
    && rs != [] && RecordsOk(rs) && SpansUnique(rs) && OneRoot(rs) && ParentsExist(rs)
    && Shaped(rs, Expected(rs)) && Semantic(rs)
  }

  predicate Delegates(rs: seq<Record>) { Has(rs, ModelInvocationCreated) }

  // ------------------------------------------------------------- assessing

  datatype Finding =
    | UnsupportedEvent | BadTrace | BadSpan | WrongOwner | BadAttributes | BadRoot | BrokenParent
    | OutOfOrder | NotLinked | ImpossibleStage | Contradiction | WrongTone | Unfinished

  /** What one record owes on its own; `seen` says its span was used before. */
  method CheckRecord(trace: Id, r: Record, seen: bool) returns (errors: seq<Finding>)
    ensures errors == [] <==> RecordOk(trace, r) && !seen
  {
    var rule := RuleOf(r.event);
    if rule.None? {
      return [UnsupportedEvent];
    }
    errors := [];
    if !TraceIdOk(r.trace) || r.trace != trace {
      errors := errors + [BadTrace];
    }
    if !SpanIdOk(r.span) || seen {
      errors := errors + [BadSpan];
    }
    if r.service != rule.value.service {
      errors := errors + [WrongOwner];
    }
    if r.attributes.Keys != rule.value.keys || !Bounded(r.attributes) {
      errors := errors + [BadAttributes];
    }
  }

  /** The first `n` records are clean and their spans distinct. */
  ghost predicate CleanTo(rs: seq<Record>, n: nat)
    requires 0 < |rs| && n <= |rs|
  {
    (forall k :: 0 <= k < n ==> RecordOk(rs[0].trace, rs[k])) && SpansUnique(rs[..n])
  }

  lemma CleanNext(rs: seq<Record>, n: nat)
    requires n < |rs|
    ensures CleanTo(rs, n + 1) <==> CleanTo(rs, n) && RecordOk(rs[0].trace, rs[n]) && !HasSpan(rs[..n], rs[n].span)
    ensures forall s :: HasSpan(rs[..n + 1], s) <==> HasSpan(rs[..n], s) || s == rs[n].span
  {
    assert rs[..n + 1] == rs[..n] + [rs[n]];
    SpansExtend(rs[..n], rs[n]);
  }

  method CheckRecords(rs: seq<Record>) returns (errors: seq<Finding>)
    requires rs != []
    ensures errors == [] <==> RecordsOk(rs) && SpansUnique(rs)
  {
    errors := [];
    var spans: set<Id> := {};
    for i := 0 to |rs|
      invariant errors == [] <==> CleanTo(rs, i)
      invariant errors == [] ==> forall s :: s in spans <==> HasSpan(rs[..i], s)
    {
      CleanNext(rs, i);
      var found := CheckRecord(rs[0].trace, rs[i], rs[i].span in spans);
      errors := errors + found;
      if RuleOf(rs[i].event).Some? {
        spans := spans + {rs[i].span};
      }
    }
    assert rs[..|rs|] == rs;
  }

  method CheckParents(rs: seq<Record>) returns (errors: seq<Finding>)
    ensures errors == [] <==> OneRoot(rs) && ParentsExist(rs)
  {
    errors := [];
    var roots: seq<nat> := [];
    for i := 0 to |rs|
      invariant forall a :: 0 <= a < |roots| ==> roots[a] < |rs|
      invariant forall k :: k in roots <==> 0 <= k < i && rs[k].parent.None?
      invariant forall a, b :: 0 <= a < b < |roots| ==> roots[a] != roots[b]
    {
      if rs[i].parent.None? {
        roots := roots + [i];
      }
    }
    RootsMeaning(rs, roots);
    if |roots| != 1 || rs[roots[0]].event != Received {
      errors := [BadRoot];
    }
    ghost var rootsOk := errors == [];
    for i := 0 to |rs|
      invariant errors == [] <==> rootsOk && forall k :: 0 <= k < i && rs[k].parent.Some? ==> HasSpan(rs, rs[k].parent.value)
    {
      if rs[i].parent.Some? && !HasSpan(rs, rs[i].parent.value) {
        errors := errors + [BrokenParent];
      }
    }
  }

  lemma RootsMeaning(rs: seq<Record>, roots: seq<nat>)
    requires forall k :: k in roots <==> 0 <= k < |rs| && rs[k].parent.None?
    requires forall a, b :: 0 <= a < b < |roots| ==> roots[a] != roots[b]
    ensures OneRoot(rs) <==> |roots| == 1 && roots[0] < |rs| && rs[roots[0]].event == Received
  {
    forall a | 0 <= a < |roots|
      ensures roots[a] < |rs| && rs[roots[a]].parent.None?
    {
      assert roots[a] in roots;
    }
    if |roots| >= 2 {
      TwoRoots(rs, roots[0], roots[1]);
    } else if |roots| == 1 {
      assert forall i :: 0 <= i < |rs| && rs[i].parent.None? ==> i in roots && i == roots[0];
    } else {
      assert forall i :: 0 <= i < |rs| && rs[i].parent.None? ==> i in roots;
    }
  }

  lemma TwoRoots(rs: seq<Record>, a: nat, b: nat)
    requires a < |rs| && b < |rs| && a != b && rs[a].parent.None? && rs[b].parent.None?
    ensures !OneRoot(rs)
  {
  }

  method CheckSequence(rs: seq<Record>, required: seq<Event>) returns (errors: seq<Finding>)
    ensures errors == [] <==> InOrder(rs, required) && Linked(Canonical(rs, required)) && ExtrasOk(rs, required)
  {
    var ordered := CheckOrder(rs, required);
    errors := if ordered then [] else [OutOfOrder];
    var canonical := Canonical(rs, required);
    var i := 1;
    while i < |canonical|
      invariant 1 <= i
      invariant errors == [] <==> ordered && forall k :: 1 <= k < i && k < |canonical| ==> canonical[k].parent == Some(canonical[k - 1].span)
    {
      if canonical[i].parent != Some(canonical[i - 1].span) {
        errors := errors + [NotLinked];
      }
      i := i + 1;
    }
    if exists i :: 0 <= i < |rs| && !(rs[i].event in required || Optional(rs[i].event)) {
      errors := errors + [ImpossibleStage];
    }
  }

  method CheckMeaning(rs: seq<Record>) returns (errors: seq<Finding>)
    ensures errors == [] <==> Semantic(rs)
  {
    errors := [];
    if !(Agree(rs, JobId) && Agree(rs, ExecutionId) && Agree(rs, Capability)) {
      errors := errors + [Contradiction];
    }
    var stages := StagesOf(rs);
    if !StagesAgree(stages.accepted, stages.running, stages.request)
       || !DecisionsAgree(stages.allowed, stages.denied, stages.finished) {
      errors := errors + [Contradiction];
    }
    var projected, validated := Get(stages.projected, JobOutcome), Get(stages.validated, JobOutcome);
    if !OutcomesAgree(ExpectedOutcome(stages.denied, stages.finished), validated, projected) {
      errors := errors + [Contradiction];
    }
    if !EndsAgree(stages.completed, stages.failed, projected) {
      errors := errors + [Contradiction];
    }
    var tones := CheckTones(rs);
    errors := errors + tones;
  }

  method CheckTones(rs: seq<Record>) returns (errors: seq<Finding>)
    ensures errors == [] <==> (forall i :: 0 <= i < |rs| ==> ToneOk(rs[i])) && Count(rs, true) == Count(rs, false)
  {
    errors := [];
    var prepared, finished := 0, 0;
    for i := 0 to |rs|
      invariant errors == [] <==> forall k :: 0 <= k < i ==> ToneOk(rs[k])
      invariant prepared + Count(rs[i..], true) == Count(rs, true)
      invariant finished + Count(rs[i..], false) == Count(rs, false)
    {
      var r := rs[i];
      assert rs[i..][0] == r && rs[i..][1..] == rs[i + 1..];
      if !ToneOk(r) {
        errors := errors + [WrongTone];
      }
      if r.event == ApiPrepared {
        prepared := prepared + 1;
      } else if r.event == ApiResponse || r.event == ApiFailed {
        finished := finished + 1;
      }
    }
    if prepared != finished {
      errors := errors + [Unfinished];
    }
  }

  datatype Verdict = Delegated | Assessed(complete: bool, missing: seq<Event>, errors: seq<Finding>)

  /** The assessor: complete exactly when the trace is one whole, single-rooted,
      well-linked story that does not contradict itself. A trace with a model
      invocation goes to the model assessor. */
  method AssessJobTraceCompleteness(rs: seq<Record>) returns (v: Verdict)
    ensures v.Delegated? <==> Delegates(rs)
    ensures v.Assessed? ==> (v.complete <==> Complete(rs))
    ensures v.Assessed? ==> v.missing == if rs == [] then [Received] else Missing(rs, Expected(rs))
  {
    if exists k :: 0 <= k < |rs| && rs[k].event == ModelInvocationCreated {
      return Delegated;
    }
    if rs == [] {
      return Assessed(false, [Received], [Unfinished]);
    }
    var records := CheckRecords(rs);
    var parents := CheckParents(rs);
    var required := Expected(rs);
    var missing := Missing(rs, required);
    NothingMissing(rs, required);
    var order := CheckSequence(rs, required);
    var meaning := CheckMeaning(rs);
    var errors := records + parents + order + meaning;
    v := Assessed(missing == [] && errors == [], missing, errors);
  }
}
