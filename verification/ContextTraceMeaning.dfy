// What the context assessor's verdict says of the Memory evidence of a trace: the
// attempts it is made of, the stages each of them shows, and the numbers they
// report.

module ContextTraceMeaning {
  import opened Common
  import opened Evidence
  import opened MemoryTrace

  // --------------------------------------------------------------- records

  const EIGHT: set<Event> := {
    ContextRequested, ContextRejected, ScopeResolved, CandidatesValidated, ContextFiltered, BudgetApplied, PackageCreated, PackageFailed}

  /** Whether the record has to carry the attribute. */
  predicate Carries(r: Record, k: Key) {
    match k
    case JobId => r.event == ContextRequested || r.event == PackageCreated
    case DepartmentRef => r.event == ScopeResolved
    case CandidateCount => r.event == CandidatesValidated && r.outcome == Success
    case InvalidCount => r.event == CandidatesValidated && Says(r, MemoryReason, RecordInvalid)
    case MemoryReason =>
      r.event == ContextRejected || r.event == PackageFailed || (r.event == CandidatesValidated && r.outcome != Success)
    case AuthorityClaims => r.event == ContextRejected && Says(r, MemoryReason, AuthorityClaimRejected)
    case CurrentState => r.event == ContextRejected && Says(r, MemoryReason, StateDenied)
    case AllowedCount => r.event == ContextFiltered
    case EnvironmentCount => r.event == ContextFiltered
    case InactiveCount => r.event == ContextFiltered
    case IrrelevantCount => r.event == ContextFiltered
    case RestrictedCount => r.event == ContextFiltered
    case ScopeCount => r.event == ContextFiltered
    case IncludedCount => r.event == BudgetApplied || r.event == PackageCreated
    case OmittedCount => r.event == BudgetApplied || r.event == PackageCreated
    case IncludedChars => r.event == BudgetApplied
    case _ => false
  }

  /** Refused or failed stages are toned as such, every other one as a success. */
  predicate RightTone(r: Record) {
    if r.event == PackageFailed || (r.event == CandidatesValidated && MemoryReason in r.attributes)
       || (r.event == ContextRejected && Says(r, MemoryReason, RelayUnavailable)) then r.outcome == Errored && r.severity == Error
    else if r.event == ContextRejected then r.outcome == Denied && r.severity == Warning
    else r.outcome == Success && r.severity == Info
  }

  /** Memory's own record, with exactly the attributes it has to carry, all of them
      short, plain and safe. */
  predicate Clean(r: Record) {
    && r.event in EIGHT && r.service == Memory
    && (forall k :: k in r.attributes <==> Carries(r, k))
    && (forall k :: k in r.attributes ==>
         && r.attributes[k] != Structured && (r.attributes[k].Name? ==> r.attributes[k].length <= 160)
         && (r.attributes[k].Number? ==> -9007199254740991 <= r.attributes[k].n <= 9007199254740991))
    && RightTone(r)
  }

  lemma RequestKeys(r: Record, k: Key)
    requires r.event in {ContextRequested, ScopeResolved}
    ensures k in KeysOf(r).value <==> Carries(r, k)
  {
    match r.event
    case ContextRequested =>
    case ScopeResolved =>
    case _ => assert false;
  }

  lemma RejectionKeys(r: Record, k: Key)
    requires r.event in {ContextRejected}
    ensures k in KeysOf(r).value <==> Carries(r, k)
  {
  }

  lemma CandidateKeys(r: Record, k: Key)
    requires r.event in {CandidatesValidated}
    ensures k in KeysOf(r).value <==> Carries(r, k)
  {
  }

  lemma FilterKeys(r: Record, k: Key)
    requires r.event in {ContextFiltered, BudgetApplied}
    ensures k in KeysOf(r).value <==> Carries(r, k)
  {
    match r.event
    case ContextFiltered =>
    case BudgetApplied =>
    case _ => assert false;
  }

  lemma PackageKeys(r: Record, k: Key)
    requires r.event in {PackageCreated, PackageFailed}
    ensures k in KeysOf(r).value <==> Carries(r, k)
  {
    match r.event
    case PackageCreated =>
    case PackageFailed =>
    case _ => assert false;
  }

  lemma KeysMean(r: Record, k: Key)
    requires r.event in EIGHT
    ensures k in KeysOf(r).value <==> Carries(r, k)
  {
    if r.event in {ContextRequested, ScopeResolved} {
      RequestKeys(r, k);
    } else if r.event in {ContextRejected} {
      RejectionKeys(r, k);
    } else if r.event in {CandidatesValidated} {
      CandidateKeys(r, k);
    } else if r.event in {ContextFiltered, BudgetApplied} {
      FilterKeys(r, k);
    } else if r.event in {PackageCreated, PackageFailed} {
      PackageKeys(r, k);
    }
  }

  lemma CleanMeans(r: Record)
    ensures MemoryOk(r) <==> Clean(r)
  {
    if r.event in EIGHT {
      forall k
        ensures k in KeysOf(r).value <==> Carries(r, k)
      {
        KeysMean(r, k);
      }
      SameKeys(r.attributes.Keys, KeysOf(r).value, r);
    }
  }

  lemma SameKeys(a: set<Key>, b: set<Key>, r: Record)
    requires forall k :: k in b <==> Carries(r, k)
    ensures a == b <==> forall k :: k in a <==> Carries(r, k)
  {
    if forall k :: k in a <==> Carries(r, k) {
      assert forall k :: k in a <==> k in b;
    }
  }

  // --------------------------------------------------------------- attempts

  /** The five courses an attempt can take. */
  const PACKAGED: seq<Event> :=
    [ContextRequested, ScopeResolved, CandidatesValidated, ContextFiltered, BudgetApplied, PackageCreated]
  const UNPACKAGED: seq<Event> :=
    [ContextRequested, ScopeResolved, CandidatesValidated, ContextFiltered, BudgetApplied, PackageFailed]
  const REFUSED: seq<Event> := [ContextRequested, ScopeResolved, CandidatesValidated]
  const REJECTED: seq<Event> := [ContextRequested, ContextRejected]
  const ALONE: seq<Event> := [ContextRejected]

  predicate IsCourse(es: seq<Event>) {
    es == PACKAGED || es == UNPACKAGED || es == REFUSED || es == REJECTED || es == ALONE
  }

  predicate Distinct(es: seq<Event>) {
    forall i, j :: 0 <= i < j < |es| ==> es[i] != es[j]
  }

  /** The records show the events one by one, each caused by the one before. */
  predicate Shows(g: seq<Record>, es: seq<Event>) {
    && |g| == |es| && (forall i :: 0 <= i < |g| ==> g[i].event == es[i])
    && (forall i :: 1 <= i < |g| ==> g[i].parent == Some(g[i - 1].span))
  }

  lemma CourseIs(g: seq<Record>)
    ensures IsCourse(ContextSequence(g))
  {
    assert OPENING + [ContextFiltered, BudgetApplied, PackageCreated] == PACKAGED;
    assert OPENING + [ContextFiltered, BudgetApplied, PackageFailed] == UNPACKAGED;
    assert OPENING == REFUSED;
  }

  lemma CourseDiffers(es: seq<Event>)
    requires IsCourse(es)
    ensures Distinct(es) && forall e :: e in es ==> e in EIGHT
  {
  }

  lemma CourseOf(g: seq<Record>)
    ensures IsCourse(ContextSequence(g)) && Distinct(ContextSequence(g))
    ensures forall e :: e in ContextSequence(g) ==> e in EIGHT
  {
    CourseIs(g);
    CourseDiffers(ContextSequence(g));
  }

  lemma OnlyPlace(g: seq<Record>, k: nat)
    requires k < |g| && forall i, j :: 0 <= i < j < |g| ==> g[i].event != g[j].event
    ensures FirstIndex(g, g[k].event) == k && First(g, g[k].event) == Some(g[k])
  {
    FirstFromIs(g, g[k].event, 0, k);
  }

  predicate AllDiffer(g: seq<Record>) {
    forall i, j :: 0 <= i < j < |g| ==> g[i].event != g[j].event
  }

  lemma NotBefore(g: seq<Record>, es: seq<Event>, k: nat, m: nat)
    requires AllDiffer(g) && k < |g| && k <= |es| && m < |es| && es[m] == g[k].event && forall i :: 0 <= i < k ==> g[i].event == es[i]
    ensures k <= m
  {
    var there := if m < |g| then g[m].event else es[m];
  }

  lemma NotAfter(g: seq<Record>, es: seq<Event>, k: nat, m: nat)
    requires AllDiffer(g) && Distinct(es) && k < |g| && k <= m < |es| && es[m] == g[k].event
    requires (forall e :: e in es ==> Has(g, e)) && InOrder(g, es) && forall i :: 0 <= i < k ==> g[i].event == es[i]
    ensures m == k
  {
    assert es[k] in es && es[m] in es;
    FirstIndexMeaning(g, es[k]);
    OnlyPlace(g, k);
    var p := FirstIndex(g, es[k]);
    assert g[p].event == es[k] && FirstIndex(g, es[m]) == k;
    assert k < m ==> p < k;
    var there := if p < |es| then es[p] else es[k];
  }

  predicate Stepwise(g: seq<Record>, es: seq<Event>) {
    AllDiffer(g) && Distinct(es) && SequenceOk(g, es)
  }

  lemma NextIs(g: seq<Record>, es: seq<Event>, k: nat)
    requires Stepwise(g, es) && k < |g| && k <= |es| && forall i :: 0 <= i < k ==> g[i].event == es[i]
    ensures k < |es| && g[k].event == es[k]
  {
    assert g[k].event in es;
    var m :| 0 <= m < |es| && es[m] == g[k].event;
    NotBefore(g, es, k, m);
    NotAfter(g, es, k, m);
  }

  lemma {:induction false} OneByOne(g: seq<Record>, es: seq<Event>, n: nat)
    requires n <= |g| && Stepwise(g, es)
    ensures n <= |es| && forall i :: 0 <= i < n ==> g[i].event == es[i]
  {
    if n > 0 {
      OneByOne(g, es, n - 1);
      NextIs(g, es, n - 1);
    }
  }

  lemma NoneLeft(g: seq<Record>, es: seq<Event>, k: nat)
    requires Distinct(es) && |g| <= |es| && k < |es| && Has(g, es[k]) && forall i :: 0 <= i < |g| ==> g[i].event == es[i]
    ensures k < |g|
  {
    var p :| 0 <= p < |g| && g[p].event == es[k];
    assert es[p] == es[k];
  }

  lemma {:induction false} FirstsAre(g: seq<Record>, es: seq<Event>, n: nat)
    requires n <= |g| == |es| && AllDiffer(g) && forall i :: 0 <= i < |g| ==> g[i].event == es[i]
    ensures Firsts(g, es, n) == g[..n]
  {
    if n > 0 {
      FirstsAre(g, es, n - 1);
      OnlyPlace(g, n - 1);
      assert g[..n] == g[..n - 1] + [g[n - 1]];
    }
  }

  lemma CourseShown(g: seq<Record>, es: seq<Event>)
    requires Stepwise(g, es)
    ensures Shows(g, es)
  {
    OneByOne(g, es, |g|);
    if |es| > 0 {
      assert es[|es| - 1] in es;
      NoneLeft(g, es, |es| - 1);
    }
    FirstsAre(g, es, |g|);
    assert g[..|g|] == g;
  }

  lemma EventsDiffer(g: seq<Record>, es: seq<Event>)
    requires NoDuplicates(g) && (forall i :: 0 <= i < |g| ==> g[i].event in es) && forall e :: e in es ==> e in EIGHT
    ensures AllDiffer(g)
  {
    forall i, j | 0 <= i < j < |g|
      ensures g[i].event != g[j].event
    {
      assert g[i].event in es;
    }
  }

  /** A good attempt takes one of the five courses, stage by stage. */
  lemma AttemptShows(rs: seq<Record>, root: Record, g: seq<Record>)
    requires AttemptOk(rs, root, g)
    ensures IsCourse(ContextSequence(g)) && Shows(g, ContextSequence(g)) && AllDiffer(g)
  {
    CourseOf(g);
    EventsDiffer(g, ContextSequence(g));
    CourseShown(g, ContextSequence(g));
  }

  // ------------------------------------------------------------ what it says

  function NumberIn(r: Record, k: Key): int {
    if k in r.attributes && r.attributes[k].Number? then r.attributes[k].n else -1
  }

  /** A count, as opposed to anything else an attribute may hold. */
  predicate IsCount(r: Record, k: Key) {
    0 <= NumberIn(r, k) <= 9007199254740991
  }

  /** The filter's counts account for every candidate, the budget for every allowed
      record, and the budget keeps its bounds. */
  predicate Reconciled(candidates: Record, filtered: Record, budget: Record) {
    && IsCount(candidates, CandidateCount)
    && (forall k :: k in {AllowedCount, EnvironmentCount, InactiveCount, IrrelevantCount, RestrictedCount, ScopeCount} ==> IsCount(filtered, k))
    && NumberIn(candidates, CandidateCount) == NumberIn(filtered, AllowedCount) + NumberIn(filtered, EnvironmentCount)
         + NumberIn(filtered, InactiveCount) + NumberIn(filtered, IrrelevantCount) + NumberIn(filtered, RestrictedCount)
         + NumberIn(filtered, ScopeCount)
    && IsCount(budget, IncludedCount) && IsCount(budget, OmittedCount) && IsCount(budget, IncludedChars)
    && NumberIn(filtered, AllowedCount) == NumberIn(budget, IncludedCount) + NumberIn(budget, OmittedCount)
    && NumberIn(budget, IncludedCount) <= 4 && NumberIn(budget, IncludedChars) <= 2048
    && (NumberIn(budget, IncludedCount) == 0 <==> NumberIn(budget, IncludedChars) == 0)
  }

  lemma FilterReconciles(filtered: Record, candidates: Record)
    requires FilterMeans(Some(filtered), Some(candidates)) && CandidatesMean(Some(candidates), false) && candidates.outcome == Success
    ensures IsCount(candidates, CandidateCount)
    ensures forall k :: k in {AllowedCount, EnvironmentCount, InactiveCount, IrrelevantCount, RestrictedCount, ScopeCount} ==> IsCount(filtered, k)
    ensures NumberIn(candidates, CandidateCount) == NumberIn(filtered, AllowedCount) + NumberIn(filtered, EnvironmentCount)
         + NumberIn(filtered, InactiveCount) + NumberIn(filtered, IrrelevantCount) + NumberIn(filtered, RestrictedCount)
         + NumberIn(filtered, ScopeCount)
  {
  }

  lemma BudgetReconciles(budget: Record, filtered: Record)
    requires BudgetMeans(Some(budget), Some(filtered))
    ensures IsCount(budget, IncludedCount) && IsCount(budget, OmittedCount) && IsCount(budget, IncludedChars)
    ensures NumberIn(filtered, AllowedCount) == NumberIn(budget, IncludedCount) + NumberIn(budget, OmittedCount)
    ensures NumberIn(budget, IncludedCount) <= 4 && NumberIn(budget, IncludedChars) <= 2048
    ensures NumberIn(budget, IncludedCount) == 0 <==> NumberIn(budget, IncludedChars) == 0
  {
  }

  ghost predicate AllClean(g: seq<Record>) {
    forall i :: 0 <= i < |g| ==> Clean(g[i])
  }

  predicate Reaches(g: seq<Record>) {
    |g| == 6 && (forall i :: 0 <= i < 5 ==> g[i].event == PACKAGED[i]) && (g[5].event == PackageCreated || g[5].event == PackageFailed)
  }

  lemma SixStages(g: seq<Record>)
    requires AllDiffer(g) && Reaches(g)
    ensures First(g, ContextRequested) == Some(g[0]) && First(g, ScopeResolved) == Some(g[1])
    ensures First(g, CandidatesValidated) == Some(g[2]) && First(g, ContextFiltered) == Some(g[3])
    ensures First(g, BudgetApplied) == Some(g[4]) && First(g, g[5].event) == Some(g[5])
  {
    OnlyPlace(g, 0);
    OnlyPlace(g, 1);
    OnlyPlace(g, 2);
    OnlyPlace(g, 3);
    OnlyPlace(g, 4);
    OnlyPlace(g, 5);
  }

  lemma WentOn(candidates: Record)
    requires Clean(candidates) && candidates.event == CandidatesValidated && CandidatesMean(Some(candidates), false)
    ensures candidates.outcome == Success
  {
  }

  /** An attempt that got as far as the budget: its numbers reconcile, and what it
      packaged is for the job it was requested for, as the budget left it; or the
      package was invalid. */
  lemma SixStagesReconcile(g: seq<Record>)
    requires AllDiffer(g) && AllClean(g) && Reaches(g) && Coherent(StagesOf(g))
    ensures Reconciled(g[2], g[3], g[4])
    ensures JobId in g[0].attributes && g[0].attributes[JobId].Name? && g[0].attributes[JobId].length > 0
    ensures g[5].event == PackageCreated ==>
      && JobId in g[5].attributes && g[5].attributes[JobId] == g[0].attributes[JobId]
      && NumberIn(g[5], IncludedCount) == NumberIn(g[4], IncludedCount) && NumberIn(g[5], OmittedCount) == NumberIn(g[4], OmittedCount)
    ensures g[5].event == PackageFailed ==> Says(g[5], MemoryReason, PackageInvalid)
  {
    SixStages(g);
    SixMeans(StagesOf(g), g[0], g[2], g[3], g[4], g[5]);
  }

  lemma SixMeans(s: Stages, requested: Record, candidates: Record, filtered: Record, budget: Record, last: Record)
    requires s.requested == Some(requested) && s.candidates == Some(candidates) && s.filtered == Some(filtered) && s.budget == Some(budget)
    requires if last.event == PackageCreated then s.packaged == Some(last) else s.failed == Some(last)
    requires Coherent(s) && Clean(candidates) && candidates.event == CandidatesValidated
    ensures Reconciled(candidates, filtered, budget)
    ensures JobId in requested.attributes && requested.attributes[JobId].Name? && requested.attributes[JobId].length > 0
    ensures last.event == PackageCreated ==>
      && JobId in last.attributes && last.attributes[JobId] == requested.attributes[JobId]
      && NumberIn(last, IncludedCount) == NumberIn(budget, IncludedCount) && NumberIn(last, OmittedCount) == NumberIn(budget, OmittedCount)
    ensures last.event != PackageCreated ==> Says(last, MemoryReason, PackageInvalid)
  {
    WentOn(candidates);
    FilterReconciles(filtered, candidates);
    BudgetReconciles(budget, filtered);
    if last.event == PackageCreated {
      PackageCarries(last, budget, requested);
    }
  }

  lemma PackageCarries(packaged: Record, budget: Record, requested: Record)
    requires PackageMeans(Some(packaged), Some(budget), Some(requested))
    ensures JobId in packaged.attributes && JobId in requested.attributes && packaged.attributes[JobId] == requested.attributes[JobId]
    ensures NumberIn(packaged, IncludedCount) == NumberIn(budget, IncludedCount) && NumberIn(packaged, OmittedCount) == NumberIn(budget, OmittedCount)
  {
  }

  lemma ShortCourse(g: seq<Record>)
    requires |ContextSequence(g)| == 3
    ensures First(g, CandidatesValidated).Some? && First(g, CandidatesValidated).value.outcome == Errored
  {
    assert |OPENING + [ContextFiltered, BudgetApplied, PackageCreated]| == 6 && |OPENING + [ContextFiltered, BudgetApplied, PackageFailed]| == 6;
  }

  lemma CandidatesRefused(r: Record)
    requires r.outcome == Errored && (exists last :: CandidatesMean(Some(r), last))
    ensures Says(r, MemoryReason, StoreUnavailable) || (Says(r, MemoryReason, RecordInvalid) && NumberIn(r, InvalidCount) > 0)
  {
  }

  /** An attempt that stopped at the candidates could not read them, or found a
      positive number of invalid ones. */
  lemma ThreeStagesMean(g: seq<Record>)
    requires AllDiffer(g) && Shows(g, REFUSED) && ContextSequence(g) == REFUSED && Coherent(StagesOf(g))
    ensures Says(g[2], MemoryReason, StoreUnavailable) || (Says(g[2], MemoryReason, RecordInvalid) && NumberIn(g[2], InvalidCount) > 0)
  {
    assert g[2].event == REFUSED[2] == CandidatesValidated;
    OnlyPlace(g, 2);
    ShortCourse(g);
    var s := StagesOf(g);
    assert CandidatesMean(Some(g[2]), s.filtered.None? && s.budget.None? && s.packaged.None? && s.failed.None?);
    CandidatesRefused(g[2]);
  }

  lemma RejectionReads(rejected: Option<Record>, r: Record)
    requires rejected == Some(r) && RejectionMeans(rejected)
    ensures Says(r, MemoryReason, StateDenied) ==>
      CurrentState in r.attributes && r.attributes[CurrentState] in {Say(Submitted), Say(Running), Say(Completed), Say(Failed)}
    ensures Says(r, MemoryReason, AuthorityClaimRejected) ==> NumberIn(r, AuthorityClaims) > 0
  {
  }

  /** A rejected request gives one of three reasons. */
  predicate NeedsJob(r: Record) {
    Says(r, MemoryReason, EnvironmentDenied) || Says(r, MemoryReason, StateDenied) || Says(r, MemoryReason, RequestInvalid)
  }

  /** One that needs no job gives one of six. */
  predicate NeedsNoJob(r: Record) {
    || Says(r, MemoryReason, AuthorityClaimRejected) || Says(r, MemoryReason, InputInvalid) || Says(r, MemoryReason, RelayUnavailable)
    || Says(r, MemoryReason, JobInvalid) || Says(r, MemoryReason, JobNotFound) || Says(r, MemoryReason, JobIdMismatch)
  }

  lemma ReasonsMean(r: Record)
    ensures Get(Some(r), MemoryReason) in AFTER_REQUEST <==> NeedsJob(r)
    ensures Get(Some(r), MemoryReason) in STANDALONE <==> NeedsNoJob(r)
  {
  }

  lemma RootReasons(rs: seq<Record>, root: Record, g: seq<Record>)
    requires RootOk(rs, root, g)
    ensures root.event == ContextRequested && First(g, ContextRejected).Some? ==> NeedsJob(First(g, ContextRejected).value)
    ensures root.event != ContextRequested ==> NeedsNoJob(root)
  {
    if First(g, ContextRejected).Some? {
      ReasonsMean(First(g, ContextRejected).value);
    }
    ReasonsMean(root);
  }

  lemma LastOf(g: seq<Record>, es: seq<Event>)
    requires Shows(g, es) && AllDiffer(g) && (es == REJECTED || es == ALONE)
    ensures First(g, ContextRejected) == Some(g[|g| - 1])
  {
    assert REJECTED[1] == ContextRejected && ALONE[0] == ContextRejected;
    OnlyPlace(g, |g| - 1);
  }

  /** A rejected request gives one of its three reasons, and a state other than
      ACCEPTED when it was the state. */
  lemma TwoStagesMean(rs: seq<Record>, root: Record, g: seq<Record>)
    requires AllDiffer(g) && Shows(g, REJECTED) && Coherent(StagesOf(g)) && root.event == ContextRequested && RootOk(rs, root, g)
    ensures NeedsJob(g[1])
    ensures Says(g[1], MemoryReason, StateDenied) ==>
      CurrentState in g[1].attributes
      && g[1].attributes[CurrentState] in {Say(Submitted), Say(Running), Say(Completed), Say(Failed)}
  {
    LastOf(g, REJECTED);
    RootReasons(rs, root, g);
    RejectionReads(StagesOf(g).rejected, g[1]);
  }

  /** A rejection on its own gives one of its six, and a positive number of claims
      when it was those. */
  lemma OneStageMeans(rs: seq<Record>, root: Record, g: seq<Record>)
    requires AllDiffer(g) && Shows(g, ALONE) && Coherent(StagesOf(g)) && root == g[0] && RootOk(rs, root, g)
    ensures NeedsNoJob(g[0])
    ensures Says(g[0], MemoryReason, AuthorityClaimRejected) ==> NumberIn(g[0], AuthorityClaims) > 0
  {
    LastOf(g, ALONE);
    assert g[0].event == ALONE[0];
    RootReasons(rs, root, g);
    RejectionReads(StagesOf(g).rejected, g[0]);
  }

  // ----------------------------------------------------- what it hangs under

  predicate Fine(p: Record) { p.service == Relay && p.outcome == Success && p.severity == Info }

  /** Relay's record of the job having come to the state. */
  predicate Marks(p: Record, job: Value, state: Word) {
    match state
    case Submitted =>
      && Fine(p) && p.event == Received && p.attributes.Keys == {Environment, RelayContract}
      && p.attributes[Environment].Name? && p.attributes[RelayContract] == Say(RelayV1)
    case Accepted =>
      && Fine(p) && p.event == JobAccepted && p.attributes == map[JobId := job, FromState := Say(Submitted), ToState := Say(Accepted)]
    case Running =>
      && Fine(p) && p.event == JobRunning && p.attributes.Keys == {JobId, ExecutionId, FromState, ToState} && p.attributes[JobId] == job
      && p.attributes[ExecutionId].Name? && p.attributes[ExecutionId].length > 0
      && p.attributes[FromState] == Say(Accepted) && p.attributes[ToState] == Say(Running)
    case Completed =>
      && Fine(p) && p.event == JobCompleted
      && p.attributes == map[JobId := job, FromState := Say(Running), ToState := Say(Completed), JobReason := Say(ExecutionCompleted)]
    case Failed =>
      && p.service == Relay && p.outcome == Failure && p.severity == Warning && p.event == JobFailed
      && p.attributes.Keys == {JobId, FromState, ToState, JobReason} && p.attributes[JobId] == job
      && p.attributes[FromState] == Say(Running) && p.attributes[ToState] == Say(Failed)
      && p.attributes[JobReason] in {Say(CapabilityDeniedWord), Say(AuthorizationUnavailable), Say(WorkerFailed), Say(WorkerResultInvalid)}
    case _ => false
  }

  lemma MarksMean(p: Record, job: Value, state: Word)
    requires state in {Submitted, Accepted, Running, Completed, Failed}
    ensures RelayParent(Some(p), Some(job), Some(Say(state))) <==> Marks(p, job, state)
  {
  }

  lemma {:induction false} SpanFound(rs: seq<Record>, span: Option<Id>)
    ensures BySpan(rs, span).Some? ==> BySpan(rs, span).value in rs && span == Some(BySpan(rs, span).value.span)
  {
    if span.Some? && rs != [] && rs[|rs| - 1].span != span.value {
      SpanFound(rs[..|rs| - 1], span);
    }
  }

  /** The record marks the state of the job: the one that the rejection names, any
      when the environment was refused, ACCEPTED otherwise. */
  ghost predicate Continues(p: Record, job: Value, rejected: Option<Record>) {
    if rejected.Some? && Says(rejected.value, MemoryReason, StateDenied) then
      exists state :: Says(rejected.value, CurrentState, state) && Marks(p, job, state)
    else if rejected.Some? && Says(rejected.value, MemoryReason, EnvironmentDenied) then
      exists state :: state in {Submitted, Accepted, Running, Completed, Failed} && Marks(p, job, state)
    else Marks(p, job, Accepted)
  }

  lemma ParentMarks(rs: seq<Record>, root: Record, g: seq<Record>, p: Record, job: Value)
    requires ParentOk(rs, root, g) && RejectionMeans(First(g, ContextRejected))
    requires Get(Some(root), JobId) == Some(job) && BySpan(rs, root.parent) == Some(p)
    ensures Continues(p, job, First(g, ContextRejected))
  {
    MarksMean(p, job, Submitted);
    MarksMean(p, job, Accepted);
    MarksMean(p, job, Running);
    MarksMean(p, job, Completed);
    MarksMean(p, job, Failed);
    var rejected := First(g, ContextRejected);
    if rejected.Some? && Says(rejected.value, MemoryReason, StateDenied) {
      var state := rejected.value.attributes[CurrentState].word;
      assert Says(rejected.value, CurrentState, state);
    }
  }

  lemma AttemptParts(rs: seq<Record>, root: Record, g: seq<Record>)
    requires AttemptOk(rs, root, g)
    ensures RootOk(rs, root, g) && Coherent(StagesOf(g))
  {
  }

  lemma ParentThere(rs: seq<Record>, root: Record, g: seq<Record>)
    requires RootOk(rs, root, g) && root.event == ContextRequested
    ensures BySpan(rs, root.parent).Some? && ParentOk(rs, root, g)
  {
  }

  lemma RejectionThere(s: Stages)
    requires Coherent(s)
    ensures RejectionMeans(s.rejected)
  {
  }

  /** A request continues Relay's record of the state of its job. */
  lemma RequestContinues(rs: seq<Record>, root: Record, g: seq<Record>) returns (p: Record)
    requires AttemptOk(rs, root, g) && root.event == ContextRequested && JobId in root.attributes
    ensures p in rs && root.parent == Some(p.span) && Continues(p, root.attributes[JobId], First(g, ContextRejected))
  {
    AttemptParts(rs, root, g);
    ParentThere(rs, root, g);
    RejectionThere(StagesOf(g));
    SpanFound(rs, root.parent);
    p := BySpan(rs, root.parent).value;
    ParentMarks(rs, root, g, p, root.attributes[JobId]);
  }

  // ------------------------------------------------------- the whole verdict

  lemma {:induction false} InAttempt(ms: seq<Record>, n: nat, root: Record, r: Record)
    requires n <= |ms|
    ensures r in Attempt(ms, n, root) <==> exists i :: 0 <= i < n && ms[i] == r && RootIs(ms, i, root)
  {
    if n > 0 {
      InAttempt(ms, n - 1, root, r);
      assert RootOf(ms, ms[n - 1]) == Some(root) <==> RootIs(ms, n - 1, root);
    }
  }

  lemma {:induction false} InMemory(rs: seq<Record>, r: Record)
    ensures r in MemoryRecords(rs) <==> r in rs && IsMemory(r)
  {
    if rs != [] {
      InMemory(rs[..|rs| - 1], r);
      assert rs == rs[..|rs| - 1] + [rs[|rs| - 1]];
    }
  }

  /** From a record up its parents, one at a time, to a root. */
  ghost predicate Leads(ms: seq<Record>, path: seq<Record>, r: Record, root: Record) {
    && |path| > 0 && path[0] == r && path[|path| - 1] == root && IsRoot(root)
    && (forall i :: 0 <= i < |path| ==> path[i] in ms)
    && (forall i :: 1 <= i < |path| ==> path[i - 1].parent == Some(path[i].span))
  }

  lemma {:induction false} WalkLeads(ms: seq<Record>, r: Record, visited: set<Record>) returns (path: seq<Record>)
    requires r in ms && Walk(ms, r, visited).Some?
    ensures Leads(ms, path, r, Walk(ms, r, visited).value)
    decreases Members(ms) - visited
  {
    if IsRoot(r) {
      path := [r];
    } else {
      SpanFound(ms, r.parent);
      var next := BySpan(ms, r.parent).value;
      assert r in Members(ms) - visited;
      var rest := WalkLeads(ms, next, visited + {r});
      path := [r] + rest;
    }
  }

  /** In a trace that is judged complete, every Memory record belongs to the attempt
      of a root above it; the attempt begins with the root, takes one of the five
      courses, and all its records are clean and of the trace. */
  lemma EveryRecordBelongs(rs: seq<Record>, r: Record) returns (root: Record, g: seq<Record>, path: seq<Record>)
    requires ContextComplete(rs) && r in rs && IsMemory(r)
    ensures r in g && (forall x :: x in g ==> x in rs) && AllClean(g) && AttemptOk(rs, root, g)
    ensures IsCourse(ContextSequence(g)) && Shows(g, ContextSequence(g)) && g[0] == root
    ensures Leads(MemoryRecords(rs), path, r, root)
  {
    var ms := MemoryRecords(rs);
    InMemory(rs, r);
    var i :| 0 <= i < |ms| && ms[i] == r;
    assert RootedAt(rs, ms, i);
    root := RootOf(ms, r).value;
    g := Attempt(ms, |ms|, root);
    path := WalkLeads(ms, r, {});
    assert RootIs(ms, i, root);
    InAttempt(ms, |ms|, root, r);
    AttemptShows(rs, root, g);
    CleanAttempt(rs, ms, root, g);
    RootInAttempt(ms, root, path[|path| - 1]);
    RootComesFirst(g, root);
  }

  lemma CleanAttempt(rs: seq<Record>, ms: seq<Record>, root: Record, g: seq<Record>)
    requires CommonOk(rs) && ms == MemoryRecords(rs) && g == Attempt(ms, |ms|, root)
    ensures AllClean(g) && forall x :: x in g ==> x in rs
  {
    forall x | x in g
      ensures x in rs && Clean(x)
    {
      InAttempt(ms, |ms|, root, x);
      InMemory(rs, x);
      var k :| 0 <= k < |rs| && rs[k] == x;
      assert RecordFits(rs, k);
      CleanMeans(x);
    }
    forall i | 0 <= i < |g|
      ensures Clean(g[i])
    {
      assert g[i] in g;
    }
  }

  lemma RootInAttempt(ms: seq<Record>, root: Record, last: Record)
    requires last == root && root in ms && IsRoot(root)
    ensures root in Attempt(ms, |ms|, root)
  {
    var k :| 0 <= k < |ms| && ms[k] == root;
    assert RootIs(ms, k, root);
    InAttempt(ms, |ms|, root, root);
  }

  lemma RootComesFirst(g: seq<Record>, root: Record)
    requires root in g && IsRoot(root) && AllDiffer(g) && IsCourse(ContextSequence(g)) && Shows(g, ContextSequence(g))
    ensures g[0] == root
  {
    var k :| 0 <= k < |g| && g[k] == root;
    var es, parent := ContextSequence(g), g[k].parent;
    assert es[k] == root.event;
    assert k > 0 ==> parent.Some?;
  }

  predicate OfMemory(r: Record) {
    r.event in EIGHT || r.event == OtherMemory || r.service == Memory
  }

  /** One trace, spans of their own, and Memory's records clean and caused by a
      record that was there before them, if by any. */
  ghost predicate OneTrace(rs: seq<Record>) {
    && (forall i, j :: 0 <= i < j < |rs| ==> rs[i].span != rs[j].span)
    && (forall i :: 0 <= i < |rs| ==>
         && 0 < rs[i].trace < 0x1_0000_0000_0000_0000_0000_0000_0000_0000 && rs[i].trace == rs[0].trace
         && 0 < rs[i].span < 0x1_0000_0000_0000_0000
         && (OfMemory(rs[i]) ==> Clean(rs[i]))
         && (OfMemory(rs[i]) && rs[i].parent.Some? ==> exists k :: 0 <= k < i && rs[k].span == rs[i].parent.value))
  }

  lemma CommonMeans(rs: seq<Record>)
    ensures CommonOk(rs) <==> OneTrace(rs)
  {
    forall i | 0 <= i < |rs|
      ensures RecordFits(rs, i) <==>
        && 0 < rs[i].trace < 0x1_0000_0000_0000_0000_0000_0000_0000_0000 && rs[i].trace == rs[0].trace
        && 0 < rs[i].span < 0x1_0000_0000_0000_0000
        && (OfMemory(rs[i]) ==> Clean(rs[i]))
        && (OfMemory(rs[i]) && rs[i].parent.Some? ==> exists k :: 0 <= k < i && rs[k].span == rs[i].parent.value)
    {
      CleanMeans(rs[i]);
    }
    if OneTrace(rs) {
      forall i | 0 <= i < |rs|
        ensures RecordFits(rs, i)
      {
      }
    }
    if CommonOk(rs) {
      forall i | 0 <= i < |rs|
        ensures rs[i].trace == rs[0].trace
      {
        assert RecordFits(rs, i);
      }
    }
  }

  lemma CompleteIsOneTrace(rs: seq<Record>)
    requires ContextComplete(rs)
    ensures OneTrace(rs) && MemoryRecords(rs) != []
  {
    CommonMeans(rs);
  }

  lemma HasRoot(rs: seq<Record>, x: Record) returns (i: nat)
    requires ContextComplete(rs) && x in MemoryRecords(rs)
    ensures var ms := MemoryRecords(rs); RootOf(ms, x).Some? && i < |ms| && RootIs(ms, i, RootOf(ms, x).value)
  {
    var ms := MemoryRecords(rs);
    i :| 0 <= i < |ms| && ms[i] == x;
    assert RootedAt(rs, ms, i);
  }

  /** With several attempts on a trace, each of them is a request. */
  lemma AttemptsApart(rs: seq<Record>, x: Record, y: Record)
    requires ContextComplete(rs) && x in MemoryRecords(rs) && y in MemoryRecords(rs)
    requires RootOf(MemoryRecords(rs), x) != RootOf(MemoryRecords(rs), y)
    ensures RootOf(MemoryRecords(rs), x).Some? && RootOf(MemoryRecords(rs), x).value.event == ContextRequested
    ensures RootOf(MemoryRecords(rs), y).Some? && RootOf(MemoryRecords(rs), y).value.event == ContextRequested
  {
    var i := HasRoot(rs, x);
    var j := HasRoot(rs, y);
    BothRequest(MemoryRecords(rs), i, j, RootOf(MemoryRecords(rs), x).value, RootOf(MemoryRecords(rs), y).value);
  }

  lemma BothRequest(ms: seq<Record>, i: nat, j: nat, a: Record, b: Record)
    requires NotMixed(ms) && i < |ms| && j < |ms| && RootIs(ms, i, a) && RootIs(ms, j, b) && a != b
    ensures a.event == ContextRequested && b.event == ContextRequested
  {
  }
}
