// The evidence a submission leaves: Relay's accept and execute and the Tool
// Gateway, append by append, and the proof that the assessor accepts exactly
// the traces of submissions that reached an end.

module JobEmission {
  import opened Common
  import opened Evidence
  import opened JobTrace
  import RS = RelayService

  // ----------------------------------------------------------------- inputs

  /** One trace id and the spans drawn for one submission, in drawing roles. */
  datatype Ids = Ids(trace: Id, spans: seq<Id>)

  predicate IdsOk(ids: Ids) {
    && TraceIdOk(ids.trace) && |ids.spans| == 12
    && (forall i :: 0 <= i < 12 ==> SpanIdOk(ids.spans[i]))
    && (forall i, j :: 0 <= i < j < 12 ==> ids.spans[i] != ids.spans[j])
  }

  /** The names that end up in attributes. */
  datatype Facts = Facts(environment: Value, source: Value, job: Value, existing: Value, execution: Value, capability: Value, worker: Value)

  predicate FactsOk(f: Facts) {
    && BoundedValue(f.environment) && BoundedValue(f.source) && BoundedValue(f.job) && BoundedValue(f.existing)
    && BoundedValue(f.execution) && BoundedValue(f.capability) && BoundedValue(f.worker)
  }

  datatype ClaimAnswer = Fresh | Conflicting | Replay | Refused

  datatype GrantAnswer = Unavailable | Grants(includes: bool)

  /** Everything the outside and the shared store may answer along the way:
      every other call that interleaves is somewhere in these. */
  datatype Answers = Answers(
    authorityClaims: nat, validationErrors: nat, contextOk: bool, claim: ClaimAnswer, accepted: bool,
    stillAccepted: bool, started: bool, current: Word, lastSpan: Id, sameEnvironment: bool,
    grants: GrantAnswer, recorded: bool, invoke: bool, worker: RS.WorkerAnswer, committed: bool)

  datatype End = Turned | Conflict | Existing | InvalidState | NotAvailable | NotInvoked | Finished(completed: bool)

  /** An early rejection, a replay, or a committed terminal job. */
  predicate Ended(e: End) {
    e.Turned? || e.Conflict? || e.Existing? || e.Finished?
  }

  // ---------------------------------------------------------------- records

  function At(ids: Ids, span: nat, parent: Option<nat>, service: Service, event: Event, tone: Tone, attributes: map<Key, Value>): Record
    requires IdsOk(ids) && span < 12 && (parent.Some? ==> parent.value < 12)
  {
    Record(ids.trace, ids.spans[span], if parent.None? then None else Some(ids.spans[parent.value]), service, event,
           tone.outcome, tone.severity, attributes)
  }

  const INFO := Tone(Success, Info)
  const WARN := Tone(Denied, Warning)

  function RootRecord(ids: Ids, f: Facts): Record
    requires IdsOk(ids)
  {
    At(ids, 0, None, Relay, Received, INFO, map[Environment := f.environment, RelayContract := Say(RelayV1)])
  }

  function TurnedRecord(ids: Ids, event: Event, attributes: map<Key, Value>): Record
    requires IdsOk(ids)
  {
    At(ids, 1, Some(0), Relay, event, WARN, attributes)
  }

  function ReplayedRecord(ids: Ids, f: Facts): Record
    requires IdsOk(ids)
  {
    At(ids, 1, Some(0), Relay, Replayed, INFO, map[IdempotencyOutcome := Say(ExistingWord), JobId := f.existing])
  }

  function AcceptedRecord(ids: Ids, f: Facts): Record
    requires IdsOk(ids)
  {
    At(ids, 1, Some(0), Relay, JobAccepted, INFO, map[JobId := f.job, FromState := Say(Submitted), ToState := Say(Accepted)])
  }

  function RunningRecord(ids: Ids, f: Facts): Record
    requires IdsOk(ids)
  {
    At(ids, 2, Some(1), Relay, JobRunning, INFO,
       map[JobId := f.job, ExecutionId := f.execution, FromState := Say(Accepted), ToState := Say(Running)])
  }

  function RequestedRecord(ids: Ids, f: Facts): Record
    requires IdsOk(ids)
  {
    At(ids, 3, Some(2), Relay, ToolRequested, INFO,
       map[JobId := f.job, ExecutionId := f.execution, Capability := f.capability, ToolClass := Say(StatusTool), ToolTarget := Say(Platform)])
  }

  function GateRecord(ids: Ids, f: Facts): Record
    requires IdsOk(ids)
  {
    At(ids, 4, Some(3), ToolGateway, GateStarted, INFO, map[JobId := f.job, ExecutionId := f.execution, Capability := f.capability])
  }

  function DecisionRecord(ids: Ids, f: Facts, allowed: bool, reason: Word): Record
    requires IdsOk(ids)
  {
    At(ids, 5, Some(4), ToolGateway, if allowed then CapabilityAllowed else CapabilityDenied, if allowed then INFO else WARN,
       map[JobId := f.job, ExecutionId := f.execution, Capability := f.capability,
           ToolDecision := Say(if allowed then AllowWord else DenyWord), ToolReason := Say(reason)])
  }

  function WorkerStartRecord(ids: Ids, f: Facts): Record
    requires IdsOk(ids)
  {
    At(ids, 6, Some(5), StatusWorker, WorkerStarted, INFO, map[JobId := f.job, ExecutionId := f.execution, WorkerId := f.worker])
  }

  function WorkerEndRecord(ids: Ids, f: Facts, outcome: Word): Record
    requires IdsOk(ids)
  {
    At(ids, 7, Some(6), StatusWorker, WorkerFinished, Judged(outcome == StatusAvailable),
       map[JobId := f.job, ExecutionId := f.execution, WorkerOutcome := Say(outcome)])
  }

  function ValidatedRecord(ids: Ids, f: Facts, parent: nat, outcome: Word): Record
    requires IdsOk(ids) && parent < 12
  {
    At(ids, 8, Some(parent), Relay, ResultValidated, INFO, map[JobId := f.job, ExecutionId := f.execution, JobOutcome := Say(outcome)])
  }

  function ProjectedRecord(ids: Ids, f: Facts, outcome: Word): Record
    requires IdsOk(ids)
  {
    At(ids, 9, Some(8), Relay, ResultProjected, Judged(outcome == StatusAvailable), map[JobId := f.job, JobOutcome := Say(outcome)])
  }

  function ReasonWord(outcome: Word): Word {
    if outcome == StatusAvailable then ExecutionCompleted
    else if outcome == WorkerUnavailable then WorkerFailed
    else outcome
  }

  function TerminalRecord(ids: Ids, f: Facts, outcome: Word): Record
    requires IdsOk(ids)
  {
    At(ids, 10, Some(9), Relay, if outcome == StatusAvailable then JobCompleted else JobFailed, Judged(outcome == StatusAvailable),
       map[JobId := f.job, FromState := Say(Running), ToState := Say(if outcome == StatusAvailable then Completed else Failed),
           JobReason := Say(ReasonWord(outcome))])
  }

  function RejectionRecord(ids: Ids, f: Facts, a: Answers): Record
    requires IdsOk(ids)
  {
    At(ids, 11, None, Relay, TransitionRejected, WARN,
       map[JobId := f.job, CurrentState := Say(a.current), AttemptedState := Say(Running), JobReason := Say(ExecutionStarted)])
      .(parent := Some(a.lastSpan))
  }

  // --------------------------------------------------------- what is emitted

  function OutcomeWord(w: RS.WorkerAnswer): Word {
    match w
    case Threw => WorkerUnavailable
    case Unusable => WorkerResultInvalid
    case Answered(available) => if available then StatusAvailable else WorkerUnavailable
  }

  predicate Allowed(f: Facts, a: Answers) {
    a.grants.Grants? && f.capability == Say(StatusRead) && a.grants.includes
  }

  function ToolReasonWord(f: Facts, a: Answers): Word {
    if Allowed(f, a) then CapabilityGranted
    else if a.grants.Unavailable? then AuthorizationUnavailable else CapabilityNotGranted
  }

  function FinalWord(f: Facts, a: Answers): Word {
    if Allowed(f, a) then OutcomeWord(a.worker)
    else if a.grants.Unavailable? then AuthorizationUnavailable else CapabilityDeniedWord
  }

  function CommitTrace(ids: Ids, f: Facts, a: Answers, parent: nat, outcome: Word): (seq<Record>, End)
    requires IdsOk(ids) && parent < 12
  {
    if !a.committed then ([ValidatedRecord(ids, f, parent, outcome)], NotAvailable)
    else ([ValidatedRecord(ids, f, parent, outcome), ProjectedRecord(ids, f, outcome), TerminalRecord(ids, f, outcome)],
          Finished(outcome == StatusAvailable))
  }

  function GateTrace(ids: Ids, f: Facts, a: Answers): (seq<Record>, End)
    requires IdsOk(ids)
  {
    if !a.sameEnvironment then ([], NotAvailable)
    else
      var opening := [GateRecord(ids, f), DecisionRecord(ids, f, Allowed(f, a), ToolReasonWord(f, a))];
      if !a.recorded then (opening, NotAvailable)
      else if !Allowed(f, a) then
        var (rest, end) := CommitTrace(ids, f, a, 5, FinalWord(f, a));
        (opening + rest, end)
      else if !a.invoke then (opening, NotInvoked)
      else
        var (rest, end) := CommitTrace(ids, f, a, 7, FinalWord(f, a));
        (opening + [WorkerStartRecord(ids, f), WorkerEndRecord(ids, f, FinalWord(f, a))] + rest, end)
  }

  function ExecuteTrace(ids: Ids, f: Facts, a: Answers): (seq<Record>, End)
    requires IdsOk(ids)
  {
    if !a.stillAccepted || !a.started then ([RejectionRecord(ids, f, a)], InvalidState)
    else
      var (rest, end) := GateTrace(ids, f, a);
      ([RunningRecord(ids, f), RequestedRecord(ids, f)] + rest, end)
  }

  function SubmitTrace(ids: Ids, f: Facts, a: Answers): (seq<Record>, End)
    requires IdsOk(ids)
  {
    var root := RootRecord(ids, f);
    if a.authorityClaims > 0 then ([root, TurnedRecord(ids, AuthorityRejected, map[AuthorityClaims := Number(a.authorityClaims)])], Turned)
    else if a.validationErrors > 0 then ([root, TurnedRecord(ids, IntentInvalid, map[ValidationErrors := Number(a.validationErrors)])], Turned)
    else if !a.contextOk then ([root, TurnedRecord(ids, ContextFailed, map[ProviderSource := f.source])], Turned)
    else match a.claim
      case Conflicting => ([root, TurnedRecord(ids, Conflicted, map[IdempotencyOutcome := Say(ConflictWord)])], Conflict)
      case Replay => ([root, ReplayedRecord(ids, f)], Existing)
      case Refused => ([root, TurnedRecord(ids, ClaimFailed, map[])], Turned)
      case Fresh =>
        if !a.accepted then ([root], NotAvailable)
        else
          var (rest, end) := ExecuteTrace(ids, f, a);
          ([root, AcceptedRecord(ids, f)] + rest, end)
  }

  // ------------------------------------------------------- appending evidence

  method CommitTerminal(log: EvidenceLog, ids: Ids, f: Facts, a: Answers, parent: nat, outcome: Word) returns (end: End)
    requires IdsOk(ids) && parent < 12
    modifies log
    ensures var (trace, e) := CommitTrace(ids, f, a, parent, outcome); log.records == old(log.records) + trace && end == e
  {
    log.Append(ValidatedRecord(ids, f, parent, outcome));
    if !a.committed {
      return NotAvailable;
    }
    log.Append(ProjectedRecord(ids, f, outcome));
    log.Append(TerminalRecord(ids, f, outcome));
    return Finished(outcome == StatusAvailable);
  }

  /** The worker's part, once it is to be invoked. */
  method RunWorker(log: EvidenceLog, ids: Ids, f: Facts, a: Answers) returns (end: End)
    requires IdsOk(ids)
    modifies log
    ensures var (trace, e) := CommitTrace(ids, f, a, 7, OutcomeWord(a.worker));
      log.records == old(log.records) + ([WorkerStartRecord(ids, f), WorkerEndRecord(ids, f, OutcomeWord(a.worker))] + trace) && end == e
  {
    log.Append(WorkerStartRecord(ids, f));
    var outcome := OutcomeWord(a.worker);
    log.Append(WorkerEndRecord(ids, f, outcome));
    end := CommitTerminal(log, ids, f, a, 7, outcome);
  }

  /** The Tool Gateway's `execute`. */
  method ExecuteTool(log: EvidenceLog, ids: Ids, f: Facts, a: Answers) returns (end: End)
    requires IdsOk(ids)
    modifies log
    ensures var (trace, e) := GateTrace(ids, f, a); log.records == old(log.records) + trace && end == e
  {
    if !a.sameEnvironment {
      return NotAvailable;
    }
    log.Append(GateRecord(ids, f));
    var allowed := Allowed(f, a);
    log.Append(DecisionRecord(ids, f, allowed, ToolReasonWord(f, a)));
    if !a.recorded {
      return NotAvailable;
    }
    if !allowed {
      end := CommitTerminal(log, ids, f, a, 5, if a.grants.Unavailable? then AuthorizationUnavailable else CapabilityDeniedWord);
      return;
    }
    if !a.invoke {
      return NotInvoked;
    }
    end := RunWorker(log, ids, f, a);
  }

  /** Relay's `execute` without a Scheduler. */
  method Execute(log: EvidenceLog, ids: Ids, f: Facts, a: Answers) returns (end: End)
    requires IdsOk(ids)
    modifies log
    ensures var (trace, e) := ExecuteTrace(ids, f, a); log.records == old(log.records) + trace && end == e
  {
    if !a.stillAccepted || !a.started {
      log.Append(RejectionRecord(ids, f, a));
      return InvalidState;
    }
    log.Append(RunningRecord(ids, f));
    log.Append(RequestedRecord(ids, f));
    end := ExecuteTool(log, ids, f, a);
  }

  /** Relay's `submit`: accept, then execute what was created. */
  method Submit(log: EvidenceLog, ids: Ids, f: Facts, a: Answers) returns (end: End)
    requires IdsOk(ids)
    modifies log
    ensures var (trace, e) := SubmitTrace(ids, f, a); log.records == old(log.records) + trace && end == e
  {
    log.Append(RootRecord(ids, f));
    if a.authorityClaims > 0 {
      log.Append(TurnedRecord(ids, AuthorityRejected, map[AuthorityClaims := Number(a.authorityClaims)]));
      return Turned;
    }
    if a.validationErrors > 0 {
      log.Append(TurnedRecord(ids, IntentInvalid, map[ValidationErrors := Number(a.validationErrors)]));
      return Turned;
    }
    if !a.contextOk {
      log.Append(TurnedRecord(ids, ContextFailed, map[ProviderSource := f.source]));
      return Turned;
    }
    match a.claim {
      case Conflicting =>
        log.Append(TurnedRecord(ids, Conflicted, map[IdempotencyOutcome := Say(ConflictWord)]));
        return Conflict;
      case Replay =>
        log.Append(ReplayedRecord(ids, f));
        return Existing;
      case Refused =>
        log.Append(TurnedRecord(ids, ClaimFailed, map[]));
        return Turned;
      case Fresh =>
    }
    if !a.accepted {
      return NotAvailable;
    }
    log.Append(AcceptedRecord(ids, f));
    end := Execute(log, ids, f, a);
  }
}
