// The evidence a context attempt leaves, append by append, and the proof that
// the context assessor accepts it wherever it lands in the job's trace.

module MemoryEmission {
  import opened Common
  import opened Evidence
  import opened MemoryTrace
  import MS = MemorySelection

  // ----------------------------------------------------------- one attempt

  datatype Ids = Ids(trace: Id, spans: seq<Id>, parent: Id)

  predicate IdsOk(ids: Ids) {
    && TraceIdOk(ids.trace) && |ids.spans| == 6 && (forall i :: 0 <= i < 6 ==> SpanIdOk(ids.spans[i]))
  }

  datatype Names = Names(job: Value, department: Value)

  predicate NamesOk(n: Names) {
    && n.job.Name? && 0 < n.job.length <= MAX_TEXT
    && n.department.Name? && 0 < n.department.length <= MAX_TEXT
  }

  /** How `buildContext` leaves once the job is known. */
  datatype Ending = Packaged | NotPackaged | NoStore | BadRecords(count: nat) | WrongEnvironment | WrongState(state: Word) | BadRequest

  predicate EndingOk(e: Ending) {
    && (e.BadRecords? ==> 0 < e.count <= MAX_SAFE)
    && (e.WrongState? ==> e.state in {Submitted, Running, Completed, Failed})
  }

  function Length(e: Ending): nat {
    match e
    case Packaged | NotPackaged => 6
    case NoStore | BadRecords(_) => 3
    case _ => 2
  }

  function Stage(e: Ending, i: nat): Event {
    if i == 0 then ContextRequested
    else if e.WrongEnvironment? || e.WrongState? || e.BadRequest? then ContextRejected
    else if i == 1 then ScopeResolved
    else if i == 2 then CandidatesValidated
    else if i == 3 then ContextFiltered
    else if i == 4 then BudgetApplied
    else if e.Packaged? then PackageCreated else PackageFailed
  }

  function Attributes(n: Names, s: MS.Selection, e: Ending, i: nat): map<Key, Value> {
    if i == 0 then map[JobId := n.job]
    else match e
      case WrongEnvironment => map[MemoryReason := Say(EnvironmentDenied)]
      case WrongState(state) => map[MemoryReason := Say(StateDenied), CurrentState := Say(state)]
      case BadRequest => map[MemoryReason := Say(RequestInvalid)]
      case _ =>
        if i == 1 then map[DepartmentRef := n.department]
        else if i == 2 then
          match e
          case NoStore => map[MemoryReason := Say(StoreUnavailable)]
          case BadRecords(count) => map[MemoryReason := Say(RecordInvalid), InvalidCount := Number(count)]
          case _ => map[CandidateCount := Number(s.candidates)]
        else if i == 3 then
          map[AllowedCount := Number(s.allowed), ScopeCount := Number(s.excluded.scope), RestrictedCount := Number(s.excluded.restricted),
              InactiveCount := Number(s.excluded.inactive), EnvironmentCount := Number(s.excluded.environment),
              IrrelevantCount := Number(s.excluded.irrelevant)]
        else if i == 4 then
          map[IncludedCount := Number(|s.items|), OmittedCount := Number(s.omitted), IncludedChars := Number(s.chars)]
        else if e.Packaged? then
          map[JobId := n.job, IncludedCount := Number(|s.items|), OmittedCount := Number(s.omitted)]
        else map[MemoryReason := Say(PackageInvalid)]
  }

  function ToneAt(e: Ending, i: nat): Tone {
    if i == 1 && (e.WrongEnvironment? || e.WrongState? || e.BadRequest?) then Tone(Denied, Warning)
    else if i == 2 && (e.NoStore? || e.BadRecords?) then Tone(Errored, Error)
    else if i == 5 && e.NotPackaged? then Tone(Errored, Error)
    else Tone(Success, Info)
  }

  /** The `i`-th record: on the job's trace, under the one before it. */
  function RecordAt(ids: Ids, n: Names, s: MS.Selection, e: Ending, i: nat): Record
    requires IdsOk(ids) && i < 6
  {
    Record(ids.trace, ids.spans[i], Some(if i == 0 then ids.parent else ids.spans[i - 1]), Memory, Stage(e, i),
           ToneAt(e, i).outcome, ToneAt(e, i).severity, Attributes(n, s, e, i))
  }

  function AttemptRecords(ids: Ids, n: Names, s: MS.Selection, e: Ending): seq<Record>
    requires IdsOk(ids)
  {
    seq(Length(e), i requires 0 <= i < Length(e) => RecordAt(ids, n, s, e, i))
  }

  // --------------------------------------------------- the code that emits it

  datatype World = World(environmentOk: bool, state: Word, requestOk: bool, store: bool, invalid: nat, packageOk: bool)

  function EndingFor(w: World): Ending {
    if !w.environmentOk then WrongEnvironment
    else if w.state != Accepted then WrongState(w.state)
    else if !w.requestOk then BadRequest
    else if !w.store then NoStore
    else if w.invalid > 0 then BadRecords(w.invalid)
    else if w.packageOk then Packaged else NotPackaged
  }

  /** A failed step: denied with a warning, or unavailable with an error. */
  method ContextFailure(log: EvidenceLog, ids: Ids, i: nat, event: Event, unavailable: bool, reason: Word, extra: map<Key, Value>)
    requires IdsOk(ids) && 0 < i < 6
    modifies log
    ensures log.records == old(log.records) + [
      Record(ids.trace, ids.spans[i], Some(ids.spans[i - 1]), Memory, event, if unavailable then Errored else Denied,
             if unavailable then Error else Warning, map[MemoryReason := Say(reason)] + extra)]
  {
    log.Append(Record(ids.trace, ids.spans[i], Some(ids.spans[i - 1]), Memory, event, if unavailable then Errored else Denied,
                      if unavailable then Error else Warning, map[MemoryReason := Say(reason)] + extra));
  }

  lemma RejectionRecord(ids: Ids, n: Names, s: MS.Selection, w: World)
    requires IdsOk(ids) && (!w.environmentOk || w.state != Accepted || !w.requestOk)
    ensures var reason := if !w.environmentOk then EnvironmentDenied else if w.state != Accepted then StateDenied else RequestInvalid;
      var extra := if reason == StateDenied then map[CurrentState := Say(w.state)] else map[];
      Record(ids.trace, ids.spans[1], Some(ids.spans[0]), Memory, ContextRejected, Denied, Warning, map[MemoryReason := Say(reason)] + extra)
        == RecordAt(ids, n, s, EndingFor(w), 1)
  {
    assert map[MemoryReason := Say(StateDenied)] + map[CurrentState := Say(w.state)]
        == map[MemoryReason := Say(StateDenied), CurrentState := Say(w.state)];
    assert map[MemoryReason := Say(EnvironmentDenied)] + map[] == map[MemoryReason := Say(EnvironmentDenied)];
    assert map[MemoryReason := Say(RequestInvalid)] + map[] == map[MemoryReason := Say(RequestInvalid)];
  }

  lemma CandidateRecord(ids: Ids, n: Names, s: MS.Selection, e: Ending)
    requires IdsOk(ids) && (e.NoStore? || e.BadRecords?)
    ensures var reason, extra := if e.NoStore? then StoreUnavailable else RecordInvalid,
                                 if e.NoStore? then map[] else map[InvalidCount := Number(e.count)];
      Record(ids.trace, ids.spans[2], Some(ids.spans[1]), Memory, CandidatesValidated, Errored, Error, map[MemoryReason := Say(reason)] + extra)
        == RecordAt(ids, n, s, e, 2)
  {
    assert map[MemoryReason := Say(StoreUnavailable)] + map[] == map[MemoryReason := Say(StoreUnavailable)];
    if e.BadRecords? {
      assert map[MemoryReason := Say(RecordInvalid)] + map[InvalidCount := Number(e.count)]
          == map[MemoryReason := Say(RecordInvalid), InvalidCount := Number(e.count)];
    }
  }

  method RejectJob(log: EvidenceLog, ids: Ids, n: Names, w: World, ghost s: MS.Selection)
    requires IdsOk(ids) && (!w.environmentOk || w.state != Accepted || !w.requestOk)
    modifies log
    ensures log.records == old(log.records) + [RecordAt(ids, n, s, EndingFor(w), 1)]
  {
    var reason := if !w.environmentOk then EnvironmentDenied else if w.state != Accepted then StateDenied else RequestInvalid;
    ContextFailure(log, ids, 1, ContextRejected, false, reason, if reason == StateDenied then map[CurrentState := Say(w.state)] else map[]);
    RejectionRecord(ids, n, s, w);
  }

  method RefuseCandidates(log: EvidenceLog, ids: Ids, n: Names, e: Ending, ghost s: MS.Selection)
    requires IdsOk(ids) && (e.NoStore? || e.BadRecords?)
    modifies log
    ensures log.records == old(log.records) + [RecordAt(ids, n, s, e, 2)]
  {
    ContextFailure(log, ids, 2, CandidatesValidated, true, if e.NoStore? then StoreUnavailable else RecordInvalid,
                   if e.NoStore? then map[] else map[InvalidCount := Number(e.count)]);
    CandidateRecord(ids, n, s, e);
  }

  /** `buildContext` from the point where the job is read. */
  method BuildContext(log: EvidenceLog, ids: Ids, n: Names, w: World, candidates: seq<MS.Record>, q: MS.Request)
    returns (s: Option<MS.Selection>)
    requires IdsOk(ids)
    modifies log
    ensures log.records == old(log.records) + AttemptRecords(ids, n, MS.Select(candidates, q), EndingFor(w))
    ensures s == if EndingFor(w).Packaged? then Some(MS.Select(candidates, q)) else None
  {
    ghost var all := MS.Select(candidates, q);
    var e := EndingFor(w);
    log.Append(Record(ids.trace, ids.spans[0], Some(ids.parent), Memory, ContextRequested, Success, Info, map[JobId := n.job]));
    if !w.environmentOk || w.state != Accepted || !w.requestOk {
      RejectJob(log, ids, n, w, all);
      AttemptOf(ids, n, all, e, [RecordAt(ids, n, all, e, 0), RecordAt(ids, n, all, e, 1)]);
      return None;
    }
    log.Append(Record(ids.trace, ids.spans[1], Some(ids.spans[0]), Memory, ScopeResolved, Success, Info, map[DepartmentRef := n.department]));
    if !w.store || w.invalid > 0 {
      RefuseCandidates(log, ids, n, e, all);
      AttemptOf(ids, n, all, e, [RecordAt(ids, n, all, e, 0), RecordAt(ids, n, all, e, 1), RecordAt(ids, n, all, e, 2)]);
      return None;
    }
    s := FinishContext(log, ids, n, w, candidates, q);
    AttemptOf(ids, n, all, e, [RecordAt(ids, n, all, e, 0), RecordAt(ids, n, all, e, 1), RecordAt(ids, n, all, e, 2),
                               RecordAt(ids, n, all, e, 3), RecordAt(ids, n, all, e, 4), RecordAt(ids, n, all, e, 5)]);
  }

  /** Selection and packaging, once the candidates are valid. */
  method FinishContext(log: EvidenceLog, ids: Ids, n: Names, w: World, candidates: seq<MS.Record>, q: MS.Request)
    returns (s: Option<MS.Selection>)
    requires IdsOk(ids)
    modifies log
    ensures var e := if w.packageOk then Packaged else NotPackaged;
      log.records == old(log.records) + [RecordAt(ids, n, MS.Select(candidates, q), e, 2), RecordAt(ids, n, MS.Select(candidates, q), e, 3),
                                         RecordAt(ids, n, MS.Select(candidates, q), e, 4), RecordAt(ids, n, MS.Select(candidates, q), e, 5)]
    ensures s == if w.packageOk then Some(MS.Select(candidates, q)) else None
  {
    log.Append(Record(ids.trace, ids.spans[2], Some(ids.spans[1]), Memory, CandidatesValidated, Success, Info,
                      map[CandidateCount := Number(|candidates|)]));
    var selection := MS.SelectContext(candidates, q);
    log.Append(Record(ids.trace, ids.spans[3], Some(ids.spans[2]), Memory, ContextFiltered, Success, Info,
                      map[AllowedCount := Number(selection.allowed), ScopeCount := Number(selection.excluded.scope),
                          RestrictedCount := Number(selection.excluded.restricted), InactiveCount := Number(selection.excluded.inactive),
                          EnvironmentCount := Number(selection.excluded.environment), IrrelevantCount := Number(selection.excluded.irrelevant)]));
    log.Append(Record(ids.trace, ids.spans[4], Some(ids.spans[3]), Memory, BudgetApplied, Success, Info,
                      map[IncludedCount := Number(|selection.items|), OmittedCount := Number(selection.omitted),
                          IncludedChars := Number(selection.chars)]));
    if !w.packageOk {
      log.Append(Record(ids.trace, ids.spans[5], Some(ids.spans[4]), Memory, PackageFailed, Errored, Error,
                        map[MemoryReason := Say(PackageInvalid)]));
      return None;
    }
    log.Append(Record(ids.trace, ids.spans[5], Some(ids.spans[4]), Memory, PackageCreated, Success, Info,
                      map[JobId := n.job, IncludedCount := Number(|selection.items|), OmittedCount := Number(selection.omitted)]));
    return Some(selection);
  }

  lemma AttemptOf(ids: Ids, n: Names, s: MS.Selection, e: Ending, rs: seq<Record>)
    requires IdsOk(ids) && |rs| == Length(e) && forall i :: 0 <= i < |rs| ==> rs[i] == RecordAt(ids, n, s, e, i)
    ensures rs == AttemptRecords(ids, n, s, e)
  {
  }
}
