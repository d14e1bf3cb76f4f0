// The context assessor accepts every attempt `buildContext` leaves, in every
// trace that weaves such attempts with other services' evidence.

module MemoryAcceptance {
  import opened Common
  import opened Evidence
  import opened MemoryTrace
  import opened MemoryEmission
  import MS = MemorySelection

  // ------------------------------------------------------ one record at a time

  /** A selection whose numbers conserve, stay in bounds and fit a number. */
  predicate Conserved(s: MS.Selection) {
    && s.allowed + s.excluded.environment + s.excluded.scope + s.excluded.restricted + s.excluded.inactive + s.excluded.irrelevant
       == s.candidates <= MAX_SAFE
    && |s.items| + s.omitted == s.allowed && |s.items| <= 4 && s.chars <= 2048 && (|s.items| == 0 <==> s.chars == 0)
  }

  lemma SelectionConserved(rs: seq<MS.Record>, q: MS.Request)
    requires |rs| <= MAX_SAFE && forall r :: r in rs ==> MS.ValidRecord(r)
    ensures Conserved(MS.Select(rs, q))
  {
    MS.SelectConserves(rs, q);
  }

  lemma OpeningOk(ids: Ids, n: Names, s: MS.Selection, e: Ending, i: nat)
    requires IdsOk(ids) && NamesOk(n) && Conserved(s) && EndingOk(e) && i < Length(e) && i <= 1
    ensures MemoryOk(RecordAt(ids, n, s, e, i))
  {
  }

  lemma CandidatesOk(ids: Ids, n: Names, s: MS.Selection, e: Ending)
    requires IdsOk(ids) && NamesOk(n) && Conserved(s) && EndingOk(e) && 2 < Length(e)
    ensures MemoryOk(RecordAt(ids, n, s, e, 2))
  {
  }

  lemma FilteredOk(ids: Ids, n: Names, s: MS.Selection, e: Ending)
    requires IdsOk(ids) && Conserved(s) && 3 < Length(e)
    ensures MemoryOk(RecordAt(ids, n, s, e, 3))
  {
  }

  lemma BudgetOk(ids: Ids, n: Names, s: MS.Selection, e: Ending)
    requires IdsOk(ids) && Conserved(s) && 4 < Length(e)
    ensures MemoryOk(RecordAt(ids, n, s, e, 4))
  {
  }

  lemma PackageOk(ids: Ids, n: Names, s: MS.Selection, e: Ending)
    requires IdsOk(ids) && NamesOk(n) && Conserved(s) && 5 < Length(e)
    ensures MemoryOk(RecordAt(ids, n, s, e, 5))
  {
  }

  lemma EveryRecordOk(ids: Ids, n: Names, s: MS.Selection, e: Ending, i: nat)
    requires IdsOk(ids) && NamesOk(n) && Conserved(s) && EndingOk(e) && i < Length(e)
    ensures MemoryOk(RecordAt(ids, n, s, e, i))
  {
    if i <= 1 {
      OpeningOk(ids, n, s, e, i);
    } else if i == 2 {
      CandidatesOk(ids, n, s, e);
    } else if i == 3 {
      FilteredOk(ids, n, s, e);
    } else if i == 4 {
      BudgetOk(ids, n, s, e);
    } else {
      PackageOk(ids, n, s, e);
    }
  }

  // ------------------------------------------------------------- the sequence

  predicate Spelled(g: seq<Record>, e: Ending) {
    |g| == Length(e) && forall i {:trigger g[i]} :: 0 <= i < |g| ==> g[i].event == Stage(e, i)
  }

  lemma StagesDiffer(e: Ending, i: nat, j: nat)
    requires i < j < Length(e)
    ensures Stage(e, i) != Stage(e, j)
  {
  }

  lemma FirstIs(g: seq<Record>, e: Ending, k: nat)
    requires Spelled(g, e) && k < |g|
    ensures First(g, Stage(e, k)) == Some(g[k]) && FirstIndex(g, Stage(e, k)) == k && Has(g, Stage(e, k))
  {
    forall j | 0 <= j < k
      ensures g[j].event != Stage(e, k)
    {
      StagesDiffer(e, j, k);
    }
    FirstFromIs(g, Stage(e, k), 0, k);
  }

  predicate OffStage(e: Ending, ev: Event) {
    forall i {:trigger Stage(e, i)} :: 0 <= i < Length(e) ==> Stage(e, i) != ev
  }

  lemma FirstNone(g: seq<Record>, e: Ending, ev: Event)
    requires Spelled(g, e) && OffStage(e, ev)
    ensures First(g, ev) == None && !Has(g, ev)
  {
    FirstIndexMeaning(g, ev);
    forall k | 0 <= k < |g|
      ensures g[k].event != ev
    {
      assert g[k].event == Stage(e, k);
    }
  }

  function Events(e: Ending): seq<Event> {
    seq(Length(e), i requires i >= 0 => Stage(e, i))
  }

  lemma {:induction false} FirstsAll(g: seq<Record>, required: seq<Event>, n: nat)
    requires n <= |g| == |required|
    requires forall i {:trigger required[i]} :: 0 <= i < |g| ==> First(g, required[i]) == Some(g[i])
    ensures Firsts(g, required, n) == g[..n]
  {
    if n > 0 {
      FirstsAll(g, required, n - 1);
      assert First(g, required[n - 1]) == Some(g[n - 1]);
      assert g[..n] == g[..n - 1] + [g[n - 1]];
    }
  }

  lemma AllPresent(g: seq<Record>, e: Ending)
    requires Spelled(g, e)
    ensures forall ev :: ev in Events(e) ==> Has(g, ev)
    ensures forall i :: 0 <= i < |g| ==> g[i].event in Events(e)
  {
    var required := Events(e);
    forall ev | ev in required
      ensures Has(g, ev)
    {
      var k :| 0 <= k < |required| && required[k] == ev;
      FirstIs(g, e, k);
    }
    forall i | 0 <= i < |g|
      ensures g[i].event in required
    {
      assert required[i] in required;
    }
  }

  lemma AllInOrder(g: seq<Record>, e: Ending)
    requires Spelled(g, e)
    ensures InOrder(g, Events(e))
  {
    var required := Events(e);
    forall i, j | 0 <= i < j < |required| && Has(g, required[i]) && Has(g, required[j])
      ensures FirstIndex(g, required[i]) < FirstIndex(g, required[j])
    {
      FirstIs(g, e, i);
      FirstIs(g, e, j);
    }
  }

  lemma AllDistinct(g: seq<Record>, e: Ending)
    requires Spelled(g, e)
    ensures NoDuplicates(g)
  {
    forall i, j | 0 <= i < j < |g|
      ensures g[i].event != g[j].event
    {
      StagesDiffer(e, i, j);
    }
  }

  lemma Sequenced(g: seq<Record>, e: Ending)
    requires Spelled(g, e) && Linked(g)
    ensures SequenceOk(g, Events(e))
  {
    forall i | 0 <= i < |g|
      ensures First(g, Events(e)[i]) == Some(g[i])
    {
      FirstIs(g, e, i);
    }
    FirstsAll(g, Events(e), |g|);
    assert g[..|g|] == g;
    AllPresent(g, e);
    AllInOrder(g, e);
  }

  lemma EventsOf(e: Ending)
    ensures e.Packaged? ==> Events(e) == OPENING + [ContextFiltered, BudgetApplied, PackageCreated]
    ensures e.NotPackaged? ==> Events(e) == OPENING + [ContextFiltered, BudgetApplied, PackageFailed]
    ensures e.NoStore? || e.BadRecords? ==> Events(e) == OPENING
    ensures e.WrongEnvironment? || e.WrongState? || e.BadRequest? ==> Events(e) == [ContextRequested, ContextRejected]
  {
  }

  lemma NoPackage(g: seq<Record>, e: Ending)
    requires Spelled(g, e) && !e.Packaged?
    ensures !Has(g, PackageCreated) && (!e.NotPackaged? ==> !Has(g, PackageFailed))
  {
    FirstNone(g, e, PackageCreated);
    if !e.NotPackaged? {
      FirstNone(g, e, PackageFailed);
    }
  }

  lemma PackageEvents(e: Ending)
    requires e.Packaged? || e.NotPackaged?
    ensures Events(e) == OPENING + [ContextFiltered, BudgetApplied, Stage(e, 5)]
  {
  }

  lemma CreatedChosen(g: seq<Record>)
    requires Has(g, PackageCreated)
    ensures ContextSequence(g) == OPENING + [ContextFiltered, BudgetApplied, PackageCreated]
  {
  }

  lemma FailedChosen(g: seq<Record>)
    requires !Has(g, PackageCreated) && Has(g, PackageFailed)
    ensures ContextSequence(g) == OPENING + [ContextFiltered, BudgetApplied, PackageFailed]
  {
  }

  lemma PackageChosen(g: seq<Record>, e: Ending)
    requires Spelled(g, e) && (e.Packaged? || e.NotPackaged?)
    ensures ContextSequence(g) == Events(e)
  {
    FirstIs(g, e, 5);
    if e.Packaged? {
      CreatedChosen(g);
    } else {
      NoPackage(g, e);
      FailedChosen(g);
    }
    PackageEvents(e);
  }

  lemma CandidatesChosen(g: seq<Record>, e: Ending)
    requires Spelled(g, e) && (e.NoStore? || e.BadRecords?) && g[2].outcome == Errored
    ensures ContextSequence(g) == Events(e)
  {
    EventsOf(e);
    NoPackage(g, e);
    FirstIs(g, e, 2);
  }

  lemma SequenceChosen(g: seq<Record>, e: Ending)
    requires Spelled(g, e)
    requires e.NoStore? || e.BadRecords? ==> g[2].outcome == Errored
    ensures ContextSequence(g) == Events(e)
  {
    if e.Packaged? || e.NotPackaged? {
      PackageChosen(g, e);
    } else if e.NoStore? || e.BadRecords? {
      CandidatesChosen(g, e);
    } else {
      EventsOf(e);
      NoPackage(g, e);
      RejectionChosen(g, e);
    }
  }

  lemma RejectionChosen(g: seq<Record>, e: Ending)
    requires Spelled(g, e) && (e.WrongEnvironment? || e.WrongState? || e.BadRequest?)
    ensures First(g, CandidatesValidated) == None && Has(g, ContextRequested) && Has(g, ContextRejected)
  {
    FirstNone(g, e, CandidatesValidated);
    FirstIs(g, e, 0);
    FirstIs(g, e, 1);
  }

  // ------------------------------------------------------------- the meaning

  /** `g` is the attempt, record for record. */
  ghost predicate Emitted(ids: Ids, n: Names, s: MS.Selection, e: Ending, g: seq<Record>)
    requires IdsOk(ids)
  {
    |g| == Length(e) && forall i {:trigger g[i]} :: 0 <= i < |g| ==> g[i] == RecordAt(ids, n, s, e, i)
  }

  lemma EmittedShape(ids: Ids, n: Names, s: MS.Selection, e: Ending, g: seq<Record>)
    requires IdsOk(ids) && Emitted(ids, n, s, e, g)
    ensures Spelled(g, e) && Linked(g)
  {
  }

  /** Packaged or not, the numbers told are the numbers of the selection. */
  lemma FilterTells(ids: Ids, n: Names, s: MS.Selection, e: Ending)
    requires IdsOk(ids) && Conserved(s) && (e.Packaged? || e.NotPackaged?)
    ensures CandidatesMean(Some(RecordAt(ids, n, s, e, 2)), false)
    ensures FilterMeans(Some(RecordAt(ids, n, s, e, 3)), Some(RecordAt(ids, n, s, e, 2)))
  {
  }

  lemma BudgetTells(ids: Ids, n: Names, s: MS.Selection, e: Ending)
    requires IdsOk(ids) && Conserved(s) && (e.Packaged? || e.NotPackaged?)
    ensures BudgetMeans(Some(RecordAt(ids, n, s, e, 4)), Some(RecordAt(ids, n, s, e, 3)))
  {
  }

  lemma PackageTells(ids: Ids, n: Names, s: MS.Selection, e: Ending)
    requires IdsOk(ids) && NamesOk(n)
    ensures e.Packaged? ==> PackageMeans(Some(RecordAt(ids, n, s, e, 5)), Some(RecordAt(ids, n, s, e, 4)), Some(RecordAt(ids, n, s, e, 0)))
    ensures e.NotPackaged? ==> Get(Some(RecordAt(ids, n, s, e, 5)), MemoryReason) == Some(Say(PackageInvalid))
  {
  }

  lemma OpeningMeans(ids: Ids, n: Names, s: MS.Selection, e: Ending)
    requires IdsOk(ids) && NamesOk(n)
    ensures Identifier(Get(Some(RecordAt(ids, n, s, e, 0)), JobId))
    ensures Length(e) > 2 ==> ShortText(Get(Some(RecordAt(ids, n, s, e, 1)), DepartmentRef))
    ensures Length(e) == 2 && EndingOk(e) ==> RejectionMeans(Some(RecordAt(ids, n, s, e, 1)))
  {
  }

  lemma CandidatesTell(ids: Ids, n: Names, s: MS.Selection, e: Ending)
    requires IdsOk(ids) && EndingOk(e) && (e.NoStore? || e.BadRecords?)
    ensures CandidatesMean(Some(RecordAt(ids, n, s, e, 2)), true)
  {
  }

  /** The stages an attempt with ending `e` went through. */
  function StagesFor(ids: Ids, n: Names, s: MS.Selection, e: Ending): Stages
    requires IdsOk(ids)
  {
    var rejected, whole := Length(e) == 2, Length(e) == 6;
    Stages(Some(RecordAt(ids, n, s, e, 0)),
           if rejected then Some(RecordAt(ids, n, s, e, 1)) else None,
           if rejected then None else Some(RecordAt(ids, n, s, e, 1)),
           if rejected then None else Some(RecordAt(ids, n, s, e, 2)),
           if whole then Some(RecordAt(ids, n, s, e, 3)) else None,
           if whole then Some(RecordAt(ids, n, s, e, 4)) else None,
           if e.Packaged? then Some(RecordAt(ids, n, s, e, 5)) else None,
           if e.NotPackaged? then Some(RecordAt(ids, n, s, e, 5)) else None)
  }

  lemma AttemptCoherent(ids: Ids, n: Names, s: MS.Selection, e: Ending)
    requires IdsOk(ids) && NamesOk(n) && Conserved(s) && EndingOk(e)
    ensures Coherent(StagesFor(ids, n, s, e))
  {
    OpeningMeans(ids, n, s, e);
    if e.Packaged? || e.NotPackaged? {
      FilterTells(ids, n, s, e);
      BudgetTells(ids, n, s, e);
      PackageTells(ids, n, s, e);
    } else if e.NoStore? || e.BadRecords? {
      CandidatesTell(ids, n, s, e);
    }
  }

  lemma WholeOff(e: Ending)
    requires Length(e) == 6
    ensures OffStage(e, ContextRejected) && OffStage(e, if e.Packaged? then PackageFailed else PackageCreated)
  {
  }

  lemma RefusedOff(e: Ending)
    requires Length(e) == 3
    ensures OffStage(e, ContextRejected) && OffStage(e, ContextFiltered) && OffStage(e, BudgetApplied)
    ensures OffStage(e, PackageCreated) && OffStage(e, PackageFailed)
  {
  }

  lemma RejectedOff(e: Ending)
    requires Length(e) == 2
    ensures OffStage(e, ScopeResolved) && OffStage(e, CandidatesValidated) && OffStage(e, ContextFiltered)
    ensures OffStage(e, BudgetApplied) && OffStage(e, PackageCreated) && OffStage(e, PackageFailed)
  {
  }

  /** The same by position. */
  function StagesAt(g: seq<Record>, e: Ending): Stages
    requires |g| == Length(e)
  {
    var rejected, whole := Length(e) == 2, Length(e) == 6;
    Stages(Some(g[0]), if rejected then Some(g[1]) else None, if rejected then None else Some(g[1]),
           if rejected then None else Some(g[2]), if whole then Some(g[3]) else None, if whole then Some(g[4]) else None,
           if e.Packaged? then Some(g[5]) else None, if e.NotPackaged? then Some(g[5]) else None)
  }

  lemma WholeStages(g: seq<Record>, e: Ending)
    requires Spelled(g, e) && Length(e) == 6
    ensures StagesOf(g) == StagesAt(g, e)
  {
    WholeOff(e);
    FirstIs(g, e, 0);
    FirstIs(g, e, 1);
    FirstIs(g, e, 2);
    FirstIs(g, e, 3);
    FirstIs(g, e, 4);
    FirstIs(g, e, 5);
    FirstNone(g, e, ContextRejected);
    FirstNone(g, e, if e.Packaged? then PackageFailed else PackageCreated);
  }

  lemma RefusedStages(g: seq<Record>, e: Ending)
    requires Spelled(g, e) && Length(e) == 3
    ensures StagesOf(g) == StagesAt(g, e)
  {
    RefusedOff(e);
    FirstIs(g, e, 0);
    FirstIs(g, e, 1);
    FirstIs(g, e, 2);
    FirstNone(g, e, ContextRejected);
    FirstNone(g, e, ContextFiltered);
    FirstNone(g, e, BudgetApplied);
    FirstNone(g, e, PackageCreated);
    FirstNone(g, e, PackageFailed);
  }

  lemma RejectedStages(g: seq<Record>, e: Ending)
    requires Spelled(g, e) && Length(e) == 2
    ensures StagesOf(g) == StagesAt(g, e)
  {
    RejectedOff(e);
    FirstIs(g, e, 0);
    FirstIs(g, e, 1);
    FirstNone(g, e, ScopeResolved);
    FirstNone(g, e, CandidatesValidated);
    FirstNone(g, e, ContextFiltered);
    FirstNone(g, e, BudgetApplied);
    FirstNone(g, e, PackageCreated);
    FirstNone(g, e, PackageFailed);
  }

  lemma StagesByEnding(g: seq<Record>, e: Ending)
    requires Spelled(g, e)
    ensures StagesOf(g) == StagesAt(g, e)
  {
    if Length(e) == 6 {
      WholeStages(g, e);
    } else if Length(e) == 3 {
      RefusedStages(g, e);
    } else {
      RejectedStages(g, e);
    }
  }

  lemma StagesMatch(ids: Ids, n: Names, s: MS.Selection, e: Ending, g: seq<Record>)
    requires IdsOk(ids) && Emitted(ids, n, s, e, g)
    ensures StagesAt(g, e) == StagesFor(ids, n, s, e)
  {
  }

  lemma AttemptMeans(ids: Ids, n: Names, s: MS.Selection, e: Ending, g: seq<Record>)
    requires IdsOk(ids) && NamesOk(n) && Conserved(s) && EndingOk(e) && Emitted(ids, n, s, e, g)
    ensures StagesOf(g) == StagesFor(ids, n, s, e) && Coherent(StagesOf(g))
  {
    EmittedShape(ids, n, s, e, g);
    StagesByEnding(g, e);
    StagesMatch(ids, n, s, e, g);
    AttemptCoherent(ids, n, s, e);
  }

  // ---------------------------------------------------------- one attempt

  /** The state the parent record must show, by how the attempt ended. */
  predicate ParentFits(parent: Record, n: Names, e: Ending) {
    match e
    case WrongState(state) => RelayParent(Some(parent), Some(n.job), Some(Say(state)))
    case WrongEnvironment =>
      || RelayParent(Some(parent), Some(n.job), Some(Say(Submitted))) || RelayParent(Some(parent), Some(n.job), Some(Say(Accepted)))
      || RelayParent(Some(parent), Some(n.job), Some(Say(Running))) || RelayParent(Some(parent), Some(n.job), Some(Say(Completed)))
      || RelayParent(Some(parent), Some(n.job), Some(Say(Failed)))
    case _ => RelayParent(Some(parent), Some(n.job), Some(Say(Accepted)))
  }

  function ReasonFor(e: Ending): Option<Value> {
    match e
    case WrongEnvironment => Some(Say(EnvironmentDenied))
    case WrongState(_) => Some(Say(StateDenied))
    case BadRequest => Some(Say(RequestInvalid))
    case _ => None
  }

  lemma RejectionSays(ids: Ids, n: Names, s: MS.Selection, e: Ending)
    requires IdsOk(ids) && Length(e) == 2
    ensures Get(Some(RecordAt(ids, n, s, e, 1)), MemoryReason) == ReasonFor(e)
    ensures e.WrongState? ==> Get(Some(RecordAt(ids, n, s, e, 1)), CurrentState) == Some(Say(e.state))
  {
  }

  lemma RequestSays(ids: Ids, n: Names, s: MS.Selection, e: Ending)
    requires IdsOk(ids)
    ensures var r := RecordAt(ids, n, s, e, 0);
      r.event == ContextRequested && r.parent == Some(ids.parent) && Get(Some(r), JobId) == Some(n.job)
  {
  }

  /** What the root must satisfy, from what was said at both ends. */
  lemma RootFits(rs: seq<Record>, root: Record, rejected: Option<Record>, g: seq<Record>, n: Names, e: Ending, parent: Record)
    requires root.event == ContextRequested && Get(Some(root), JobId) == Some(n.job)
    requires BySpan(rs, root.parent) == Some(parent) && ParentFits(parent, n, e)
    requires rejected == First(g, ContextRejected) && (rejected.Some? <==> ReasonFor(e).Some?)
    requires Get(rejected, MemoryReason) == ReasonFor(e)
    requires e.WrongState? ==> Get(rejected, CurrentState) == Some(Say(e.state))
    ensures RootOk(rs, root, g)
  {
  }

  lemma AttemptRooted(rs: seq<Record>, ids: Ids, n: Names, s: MS.Selection, e: Ending, g: seq<Record>, parent: Record)
    requires IdsOk(ids) && Emitted(ids, n, s, e, g) && First(g, ContextRejected) == StagesFor(ids, n, s, e).rejected
    requires BySpan(rs, Some(ids.parent)) == Some(parent) && ParentFits(parent, n, e)
    ensures RootOk(rs, g[0], g)
  {
    if Length(e) == 2 {
      RejectionSays(ids, n, s, e);
    }
    RequestSays(ids, n, s, e);
    RootFits(rs, RecordAt(ids, n, s, e, 0), First(g, ContextRejected), g, n, e, parent);
  }

  /** Every attempt, however it ended, is judged good on its own. */
  lemma AttemptAccepted(rs: seq<Record>, ids: Ids, n: Names, s: MS.Selection, e: Ending, g: seq<Record>, parent: Record)
    requires IdsOk(ids) && NamesOk(n) && Conserved(s) && EndingOk(e) && Emitted(ids, n, s, e, g)
    requires BySpan(rs, Some(ids.parent)) == Some(parent) && ParentFits(parent, n, e)
    ensures AttemptOk(rs, g[0], g)
  {
    AttemptMeans(ids, n, s, e, g);
    assert First(g, ContextRejected) == StagesOf(g).rejected;
    AttemptRooted(rs, ids, n, s, e, g, parent);
    EmittedShape(ids, n, s, e, g);
    AllDistinct(g, e);
    Sequenced(g, e);
    assert e.NoStore? || e.BadRecords? ==> g[2] == RecordAt(ids, n, s, e, 2);
    SequenceChosen(g, e);
  }
}
