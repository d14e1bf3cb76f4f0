// What the evidence of a context attempt tells of how it ended.

module ContextEvidence {
  import opened Common
  import opened Evidence
  import opened MemoryEmission
  import MS = MemorySelection

  predicate Holds(r: Record, k: Key, v: Value) {
    k in r.attributes && r.attributes[k] == v
  }

  predicate Refuses(r: Record, event: Event, reason: Word) {
    r.event == event && Says(r, MemoryReason, reason)
  }

  /** The first thing that stands in the way is what the last record tells: the
      environment, the job's state, the request, the store, the candidates; otherwise
      all six records are there and the last one tells whether a package was made. */
  lemma FirstObstacleTold(ids: Ids, n: Names, s: MS.Selection, w: World)
    requires IdsOk(ids)
    ensures var t := AttemptRecords(ids, n, s, EndingFor(w));
      if !w.environmentOk then |t| == 2 && Refuses(t[1], ContextRejected, EnvironmentDenied)
      else if w.state != Accepted then |t| == 2 && Refuses(t[1], ContextRejected, StateDenied) && Says(t[1], CurrentState, w.state)
      else if !w.requestOk then |t| == 2 && Refuses(t[1], ContextRejected, RequestInvalid)
      else if !w.store then |t| == 3 && Refuses(t[2], CandidatesValidated, StoreUnavailable)
      else if w.invalid > 0 then
        |t| == 3 && Refuses(t[2], CandidatesValidated, RecordInvalid) && Holds(t[2], InvalidCount, Number(w.invalid))
      else
        |t| == 6 && if w.packageOk then t[5].event == PackageCreated else Refuses(t[5], PackageFailed, PackageInvalid)
  {
  }

  /** An attempt that was not stopped tells the selection's own numbers. */
  lemma SelectionTold(ids: Ids, n: Names, s: MS.Selection, w: World)
    requires IdsOk(ids) && w.environmentOk && w.state == Accepted && w.requestOk && w.store && w.invalid == 0
    ensures var t := AttemptRecords(ids, n, s, EndingFor(w));
      && |t| == 6 && Holds(t[0], JobId, n.job) && Holds(t[1], DepartmentRef, n.department)
      && Holds(t[2], CandidateCount, Number(s.candidates))
      && Holds(t[3], AllowedCount, Number(s.allowed)) && Holds(t[3], EnvironmentCount, Number(s.excluded.environment))
      && Holds(t[3], ScopeCount, Number(s.excluded.scope)) && Holds(t[3], RestrictedCount, Number(s.excluded.restricted))
      && Holds(t[3], InactiveCount, Number(s.excluded.inactive)) && Holds(t[3], IrrelevantCount, Number(s.excluded.irrelevant))
      && Holds(t[4], IncludedCount, Number(|s.items|)) && Holds(t[4], OmittedCount, Number(s.omitted)) && Holds(t[4], IncludedChars, Number(s.chars))
      && (w.packageOk ==>
           Holds(t[5], JobId, n.job) && Holds(t[5], IncludedCount, Number(|s.items|)) && Holds(t[5], OmittedCount, Number(s.omitted)))
  {
  }
}
