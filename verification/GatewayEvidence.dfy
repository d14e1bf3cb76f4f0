// What the evidence of a submission says of it: how it was turned away, what the
// gateway decided, whether a worker ran and how the job ended.

module GatewayEvidence {
  import opened Common
  import opened Evidence
  import opened JobEmission
  import RS = RelayService

  /** The provider named the capability, and it is the one that is implemented. */
  predicate Permitted(f: Facts, a: Answers) {
    a.grants == Grants(true) && f.capability == Say(StatusRead)
  }

  /** The gateway's record of its decision. */
  predicate TellsDecision(r: Record, f: Facts, a: Answers) {
    if Permitted(f, a) then
      r.event == CapabilityAllowed && Says(r, ToolDecision, AllowWord) && Says(r, ToolReason, CapabilityGranted)
    else
      && r.event == CapabilityDenied && Says(r, ToolDecision, DenyWord)
      && Says(r, ToolReason, if a.grants == Unavailable then AuthorizationUnavailable else CapabilityNotGranted)
  }

  /** The word of the job's end: the decision's when it was denied, otherwise the
      worker's. */
  function EndWord(f: Facts, a: Answers): Word {
    if !Permitted(f, a) then if a.grants == Unavailable then AuthorizationUnavailable else CapabilityDeniedWord
    else if a.worker == RS.Answered(true) then StatusAvailable
    else if a.worker == RS.Unusable then WorkerResultInvalid
    else WorkerUnavailable
  }

  predicate TellsEnd(r: Record, word: Word) {
    && Says(r, FromState, Running)
    && if word == StatusAvailable then r.event == JobCompleted && Says(r, ToState, Completed) && Says(r, JobReason, ExecutionCompleted)
       else
         && r.event == JobFailed && Says(r, ToState, Failed)
         && Says(r, JobReason, if word == WorkerUnavailable then WorkerFailed else word)
  }

  lemma EndTells(ids: Ids, f: Facts, word: Word)
    requires IdsOk(ids)
    ensures TellsEnd(TerminalRecord(ids, f, word), word)
  {
  }

  predicate HasWorker(t: seq<Record>) {
    exists i :: 0 <= i < |t| && t[i].event == WorkerStarted
  }

  lemma CommitTells(ids: Ids, f: Facts, a: Answers, parent: nat, word: Word)
    requires IdsOk(ids) && parent < 12
    ensures var (t, end) := CommitTrace(ids, f, a, parent, word);
      && t != [] && !HasWorker(t)
      && end == (if a.committed then Finished(word == StatusAvailable) else NotAvailable)
      && (a.committed ==> TellsEnd(t[|t| - 1], word))
  {
    EndTells(ids, f, word);
  }

  lemma DecisionTells(ids: Ids, f: Facts, a: Answers)
    requires IdsOk(ids)
    ensures TellsDecision(DecisionRecord(ids, f, Allowed(f, a), ToolReasonWord(f, a)), f, a)
    ensures Allowed(f, a) == Permitted(f, a) && FinalWord(f, a) == EndWord(f, a)
  {
  }

  /** What the gateway's part of a trace has to tell. */
  predicate TellsAll(t: seq<Record>, end: End, f: Facts, a: Answers) {
    && |t| >= 2 && t[0].event == GateStarted && TellsDecision(t[1], f, a)
    && (HasWorker(t) <==> Permitted(f, a) && a.recorded && a.invoke)
    && (end.Finished? <==> a.recorded && (Permitted(f, a) ==> a.invoke) && a.committed)
    && (end.Finished? ==> TellsEnd(t[|t| - 1], EndWord(f, a)) && (end.completed <==> EndWord(f, a) == StatusAvailable))
  }

  lemma OpeningTells(ids: Ids, f: Facts, a: Answers)
    requires IdsOk(ids)
    ensures var opening := [GateRecord(ids, f), DecisionRecord(ids, f, Allowed(f, a), ToolReasonWord(f, a))];
      opening[0].event == GateStarted && TellsDecision(opening[1], f, a) && !HasWorker(opening)
  {
    DecisionTells(ids, f, a);
  }

  lemma JoinTells(opening: seq<Record>, rest: seq<Record>, end: End, f: Facts, a: Answers)
    requires |opening| == 2 && opening[0].event == GateStarted && TellsDecision(opening[1], f, a) && !HasWorker(opening)
    requires HasWorker(rest) <==> Permitted(f, a) && a.recorded && a.invoke
    requires end.Finished? <==> a.recorded && (Permitted(f, a) ==> a.invoke) && a.committed
    requires end.Finished? ==> rest != [] && TellsEnd(rest[|rest| - 1], EndWord(f, a)) && (end.completed <==> EndWord(f, a) == StatusAvailable)
    ensures TellsAll(opening + rest, end, f, a)
  {
    var t := opening + rest;
    if HasWorker(rest) {
      var i :| 0 <= i < |rest| && rest[i].event == WorkerStarted;
      assert t[i + 2].event == WorkerStarted;
    }
    assert rest != [] ==> t[|t| - 1] == rest[|rest| - 1];
  }

  lemma DeniedTells(ids: Ids, f: Facts, a: Answers)
    requires IdsOk(ids) && a.sameEnvironment && a.recorded && !Permitted(f, a)
    ensures TellsAll(GateTrace(ids, f, a).0, GateTrace(ids, f, a).1, f, a)
  {
    OpeningTells(ids, f, a);
    DecisionTells(ids, f, a);
    CommitTells(ids, f, a, 5, EndWord(f, a));
    var (rest, end) := CommitTrace(ids, f, a, 5, EndWord(f, a));
    JoinTells([GateRecord(ids, f), DecisionRecord(ids, f, Allowed(f, a), ToolReasonWord(f, a))], rest, end, f, a);
  }

  lemma WorkedTells(ids: Ids, f: Facts, a: Answers)
    requires IdsOk(ids) && a.sameEnvironment && a.recorded && Permitted(f, a) && a.invoke
    ensures TellsAll(GateTrace(ids, f, a).0, GateTrace(ids, f, a).1, f, a)
  {
    OpeningTells(ids, f, a);
    DecisionTells(ids, f, a);
    CommitTells(ids, f, a, 7, EndWord(f, a));
    var opening := [GateRecord(ids, f), DecisionRecord(ids, f, Allowed(f, a), ToolReasonWord(f, a))];
    var worker := [WorkerStartRecord(ids, f), WorkerEndRecord(ids, f, EndWord(f, a))];
    var (rest, end) := CommitTrace(ids, f, a, 7, EndWord(f, a));
    assert (worker + rest)[0].event == WorkerStarted;
    JoinTells(opening, worker + rest, end, f, a);
    assert opening + (worker + rest) == opening + worker + rest;
  }

  lemma StoppedTells(ids: Ids, f: Facts, a: Answers)
    requires IdsOk(ids) && a.sameEnvironment && (!a.recorded || (Permitted(f, a) && !a.invoke))
    ensures TellsAll(GateTrace(ids, f, a).0, GateTrace(ids, f, a).1, f, a)
  {
    OpeningTells(ids, f, a);
    DecisionTells(ids, f, a);
    var opening := [GateRecord(ids, f), DecisionRecord(ids, f, Allowed(f, a), ToolReasonWord(f, a))];
    JoinTells(opening, [], GateTrace(ids, f, a).1, f, a);
    assert opening + [] == opening;
  }

  /** A gateway of another environment leaves nothing; otherwise the second record
      tells the decision, a worker starts exactly when it was permitted, recorded and
      claimed, and a committed end tells the decision's word or the worker's. */
  lemma GateTells(ids: Ids, f: Facts, a: Answers)
    requires IdsOk(ids)
    ensures var (t, end) := GateTrace(ids, f, a);
      if !a.sameEnvironment then t == [] && end == NotAvailable else TellsAll(t, end, f, a)
  {
    if a.sameEnvironment {
      if !a.recorded || (Permitted(f, a) && !a.invoke) {
        StoppedTells(ids, f, a);
      } else if Permitted(f, a) {
        WorkedTells(ids, f, a);
      } else {
        DeniedTells(ids, f, a);
      }
    }
  }

  /** The first thing that stands in a submission's way is what its second record
      tells; a replay names the job that is there. */
  lemma SubmitTells(ids: Ids, f: Facts, a: Answers)
    requires IdsOk(ids)
    ensures var (t, end) := SubmitTrace(ids, f, a);
      && |t| >= 1 && t[0].event == Received && t[0].parent == None
      && (a.authorityClaims > 0 ==> |t| == 2 && t[1].event == AuthorityRejected && end == Turned)
      && (a.authorityClaims == 0 && a.validationErrors > 0 ==> |t| == 2 && t[1].event == IntentInvalid && end == Turned)
      && (a.authorityClaims == 0 && a.validationErrors == 0 && !a.contextOk ==> |t| == 2 && t[1].event == ContextFailed && end == Turned)
      && (a.authorityClaims == 0 && a.validationErrors == 0 && a.contextOk ==>
           match a.claim
           case Conflicting => |t| == 2 && t[1].event == Conflicted && Says(t[1], IdempotencyOutcome, ConflictWord) && end == Conflict
           case Replay =>
             && |t| == 2 && t[1].event == Replayed && Says(t[1], IdempotencyOutcome, ExistingWord) && end == Existing
             && JobId in t[1].attributes && t[1].attributes[JobId] == f.existing
           case Refused => |t| == 2 && t[1].event == ClaimFailed && end == Turned
           case Fresh => if a.accepted then |t| >= 3 && t[1].event == JobAccepted else |t| == 1 && end == NotAvailable)
  {
  }
}
