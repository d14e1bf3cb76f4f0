// The assessor accepts exactly the traces of submissions that reached an end,
// and keeps accepting them when rejected-transition evidence is mixed in.

module JobCompleteness {
  import opened Common
  import opened Evidence
  import opened JobTrace
  import opened JobEmission

  // -------------------------------------------------- the paths of a submission

  datatype Path = EarlyPath(e: Event) | DeniedPath | WorkedPath(completed: bool)

  function Length(p: Path): nat {
    match p case EarlyPath(_) => 2 case DeniedPath => 9 case WorkedPath(_) => 11
  }

  function OpeningEvent(i: nat): Event {
    if i == 0 then Received else if i == 1 then JobAccepted else if i == 2 then JobRunning
    else if i == 3 then ToolRequested else GateStarted
  }

  function EventAt(p: Path, i: nat): Event {
    match p
    case EarlyPath(e) => if i == 0 then Received else e
    case DeniedPath =>
      if i < 5 then OpeningEvent(i) else if i == 5 then CapabilityDenied else if i == 6 then ResultValidated
      else if i == 7 then ResultProjected else JobFailed
    case WorkedPath(completed) =>
      if i < 5 then OpeningEvent(i) else if i == 5 then CapabilityAllowed else if i == 6 then WorkerStarted
      else if i == 7 then WorkerFinished else if i == 8 then ResultValidated else if i == 9 then ResultProjected
      else if completed then JobCompleted else JobFailed
  }

  function Events(p: Path): seq<Event> {
    seq(Length(p), i requires i >= 0 => EventAt(p, i))
  }

  predicate PathOk(p: Path) { p.EarlyPath? ==> Early(p.e) }

  lemma EventsDiffer(p: Path, i: nat, j: nat)
    requires PathOk(p) && i < j < Length(p)
    ensures EventAt(p, i) != EventAt(p, j)
  {
  }

  /** Which of the submission's spans the record at `i` carries. */
  function SpanAt(p: Path, i: nat): nat {
    if p.DeniedPath? && i >= 6 then i + 2 else i
  }

  /** A stretch of the path from `base` on: its events, spans and links. */
  ghost predicate Placed(ids: Ids, p: Path, rs: seq<Record>, base: nat)
    requires IdsOk(ids)
  {
    && base + |rs| <= Length(p)
    && forall i {:trigger rs[i]} :: 0 <= i < |rs| ==> PlacedAt(ids, p, rs[i], base + i)
  }

  predicate PlacedAt(ids: Ids, p: Path, r: Record, i: nat)
    requires IdsOk(ids) && i < Length(p)
  {
    && r.event == EventAt(p, i) && r.span == ids.spans[SpanAt(p, i)]
    && r.parent == if i == 0 then None else Some(ids.spans[SpanAt(p, i - 1)])
  }

  lemma PlacedJoins(ids: Ids, p: Path, a: seq<Record>, b: seq<Record>, base: nat)
    requires IdsOk(ids) && Placed(ids, p, a, base) && Placed(ids, p, b, base + |a|)
    ensures Placed(ids, p, a + b, base)
  {
    var rs := a + b;
    forall i | 0 <= i < |rs|
      ensures PlacedAt(ids, p, rs[i], base + i)
    {
      if i >= |a| {
        assert rs[i] == b[i - |a|] && base + i == base + |a| + (i - |a|);
      }
    }
  }

  predicate DistinctEvents(rs: seq<Record>) {
    forall i, j :: 0 <= i < j < |rs| ==> rs[i].event != rs[j].event
  }

  lemma PlacedDistinct(ids: Ids, p: Path, rs: seq<Record>)
    requires IdsOk(ids) && PathOk(p) && Placed(ids, p, rs, 0)
    ensures DistinctEvents(rs) && SpansUnique(rs)
  {
    forall i, j | 0 <= i < j < |rs|
      ensures rs[i].event != rs[j].event && rs[i].span != rs[j].span
    {
      EventsDiffer(p, i, j);
    }
  }

  lemma PlacedLinked(ids: Ids, p: Path, rs: seq<Record>)
    requires IdsOk(ids) && Placed(ids, p, rs, 0) && rs != []
    ensures Linked(rs) && rs[0].parent.None? && rs[0].event == Received
  {
    forall i | 1 <= i < |rs|
      ensures rs[i].parent == Some(rs[i - 1].span)
    {
      assert PlacedAt(ids, p, rs[i], i) && PlacedAt(ids, p, rs[i - 1], i - 1);
    }
  }

  // --------------------------------------------------- chains have the shape

  lemma FirstOf(rs: seq<Record>, k: nat)
    requires DistinctEvents(rs) && k < |rs|
    ensures FirstIndex(rs, rs[k].event) == k && First(rs, rs[k].event) == Some(rs[k])
  {
    FirstIndexMeaning(rs, rs[k].event);
  }

  lemma FirstNone(rs: seq<Record>, e: Event)
    requires forall k :: 0 <= k < |rs| ==> rs[k].event != e
    ensures First(rs, e) == None && !Has(rs, e)
  {
    FirstIndexMeaning(rs, e);
  }

  lemma {:induction false} CanonicalAll(rs: seq<Record>, required: seq<Event>)
    requires forall k :: 0 <= k < |rs| ==> rs[k].event in required
    ensures Canonical(rs, required) == rs
  {
    if rs != [] {
      CanonicalAll(rs[1..], required);
    }
  }

  /** A chain that spells its required events, link by link, has their shape. */
  lemma ChainShaped(rs: seq<Record>, required: seq<Event>)
    requires DistinctEvents(rs) && Linked(rs)
    requires |rs| == |required| && forall i :: 0 <= i < |rs| ==> rs[i].event == required[i]
    ensures Shaped(rs, required)
  {
    forall e | e in required
      ensures Has(rs, e)
    {
      var k :| 0 <= k < |required| && required[k] == e;
      assert rs[k].event == e;
    }
    forall k | 0 <= k < |rs|
      ensures rs[k].event in required && FirstIndex(rs, required[k]) == k
    {
      FirstOf(rs, k);
      assert required[k] in required;
    }
    CanonicalAll(rs, required);
  }

  lemma ChainRooted(rs: seq<Record>)
    requires rs != [] && rs[0].parent.None? && rs[0].event == Received && Linked(rs)
    ensures OneRoot(rs) && ParentsExist(rs)
  {
    forall i | 1 <= i < |rs|
      ensures rs[i].parent.Some?
    {
      assert rs[i].parent == Some(rs[i - 1].span);
    }
    forall i | 0 <= i < |rs| && rs[i].parent.Some?
      ensures HasSpan(rs, rs[i].parent.value)
    {
      assert rs[i].parent.value == rs[i - 1].span;
    }
  }

  // --------------------------------------------------- what each record owes

  predicate Same(f: Facts, a: map<Key, Value>) {
    && (JobId in a ==> a[JobId] == f.job)
    && (ExecutionId in a ==> a[ExecutionId] == f.execution)
    && (Capability in a ==> a[Capability] == f.capability)
  }

  predicate Good(ids: Ids, f: Facts, r: Record) {
    && RecordOk(ids.trace, r) && Same(f, r.attributes) && ToneOk(r)
    && r.event != ApiPrepared && r.event != ApiResponse && r.event != ApiFailed
  }

  ghost predicate Goods(ids: Ids, f: Facts, rs: seq<Record>) {
    forall k {:trigger rs[k]} :: 0 <= k < |rs| ==> Good(ids, f, rs[k])
  }

  lemma GoodsJoin(ids: Ids, f: Facts, a: seq<Record>, b: seq<Record>)
    requires Goods(ids, f, a) && Goods(ids, f, b)
    ensures Goods(ids, f, a + b)
  {
    var rs := a + b;
    forall k | 0 <= k < |rs|
      ensures Good(ids, f, rs[k])
    {
      assert rs[k] == if k < |a| then a[k] else b[k - |a|];
    }
  }

  lemma {:induction false} NoApi(rs: seq<Record>)
    requires forall k :: 0 <= k < |rs| ==> rs[k].event != ApiPrepared && rs[k].event != ApiResponse && rs[k].event != ApiFailed
    ensures Count(rs, true) == 0 && Count(rs, false) == 0
  {
    if rs != [] {
      NoApi(rs[1..]);
    }
  }

  lemma AllGood(ids: Ids, f: Facts, rs: seq<Record>)
    requires Goods(ids, f, rs)
    ensures RecordsOk(rs) && Agree(rs, JobId) && Agree(rs, ExecutionId) && Agree(rs, Capability)
    ensures (forall k :: 0 <= k < |rs| ==> ToneOk(rs[k])) && Count(rs, true) == Count(rs, false)
  {
    assert forall k :: 0 <= k < |rs| ==> Good(ids, f, rs[k]) ==> Same(f, rs[k].attributes);
    NoApi(rs);
  }

  lemma RootGood(ids: Ids, f: Facts)
    requires IdsOk(ids) && FactsOk(f)
    ensures Good(ids, f, RootRecord(ids, f))
  {
  }

  lemma AcceptedGood(ids: Ids, f: Facts)
    requires IdsOk(ids) && FactsOk(f)
    ensures Good(ids, f, AcceptedRecord(ids, f))
  {
  }

  lemma RunningGood(ids: Ids, f: Facts)
    requires IdsOk(ids) && FactsOk(f)
    ensures Good(ids, f, RunningRecord(ids, f))
  {
  }

  lemma RequestedGood(ids: Ids, f: Facts)
    requires IdsOk(ids) && FactsOk(f)
    ensures Good(ids, f, RequestedRecord(ids, f))
  {
  }

  lemma GateGood(ids: Ids, f: Facts)
    requires IdsOk(ids) && FactsOk(f)
    ensures Good(ids, f, GateRecord(ids, f))
  {
  }

  lemma DecisionGood(ids: Ids, f: Facts, allowed: bool, reason: Word)
    requires IdsOk(ids) && FactsOk(f)
    ensures Good(ids, f, DecisionRecord(ids, f, allowed, reason))
  {
  }

  lemma WorkerStartGood(ids: Ids, f: Facts)
    requires IdsOk(ids) && FactsOk(f)
    ensures Good(ids, f, WorkerStartRecord(ids, f))
  {
  }

  lemma WorkerEndGood(ids: Ids, f: Facts, outcome: Word)
    requires IdsOk(ids) && FactsOk(f)
    ensures Good(ids, f, WorkerEndRecord(ids, f, outcome))
  {
  }

  lemma ValidatedGood(ids: Ids, f: Facts, parent: nat, outcome: Word)
    requires IdsOk(ids) && FactsOk(f) && parent < 12
    ensures Good(ids, f, ValidatedRecord(ids, f, parent, outcome))
  {
  }

  lemma ProjectedGood(ids: Ids, f: Facts, outcome: Word)
    requires IdsOk(ids) && FactsOk(f)
    ensures Good(ids, f, ProjectedRecord(ids, f, outcome))
  {
  }

  lemma TerminalGood(ids: Ids, f: Facts, outcome: Word)
    requires IdsOk(ids) && FactsOk(f)
    ensures Good(ids, f, TerminalRecord(ids, f, outcome))
  {
    TerminalClean(ids, f, outcome);
    TerminalToned(ids, f, outcome);
  }

  lemma TerminalClean(ids: Ids, f: Facts, outcome: Word)
    requires IdsOk(ids) && FactsOk(f)
    ensures RecordOk(ids.trace, TerminalRecord(ids, f, outcome))
  {
  }

  lemma TerminalToned(ids: Ids, f: Facts, outcome: Word)
    requires IdsOk(ids) && FactsOk(f)
    ensures ToneOk(TerminalRecord(ids, f, outcome)) && Same(f, TerminalRecord(ids, f, outcome).attributes)
  {
  }

  // ---------------------------------------------------------- the stretches

  function Opening(ids: Ids, f: Facts): seq<Record>
    requires IdsOk(ids)
  {
    [RootRecord(ids, f), AcceptedRecord(ids, f), RunningRecord(ids, f), RequestedRecord(ids, f), GateRecord(ids, f)]
  }

  function Working(ids: Ids, f: Facts, outcome: Word): seq<Record>
    requires IdsOk(ids)
  {
    [DecisionRecord(ids, f, true, CapabilityGranted), WorkerStartRecord(ids, f), WorkerEndRecord(ids, f, outcome)]
  }

  function Closing(ids: Ids, f: Facts, parent: nat, outcome: Word): seq<Record>
    requires IdsOk(ids) && parent < 12
  {
    [ValidatedRecord(ids, f, parent, outcome), ProjectedRecord(ids, f, outcome), TerminalRecord(ids, f, outcome)]
  }

  function DeniedTrace(ids: Ids, f: Facts, reason: Word, outcome: Word): seq<Record>
    requires IdsOk(ids)
  {
    Opening(ids, f) + [DecisionRecord(ids, f, false, reason)] + Closing(ids, f, 5, outcome)
  }

  function WorkedTrace(ids: Ids, f: Facts, outcome: Word): seq<Record>
    requires IdsOk(ids)
  {
    Opening(ids, f) + Working(ids, f, outcome) + Closing(ids, f, 7, outcome)
  }

  lemma OpeningPlaced(ids: Ids, f: Facts, p: Path)
    requires IdsOk(ids) && !p.EarlyPath?
    ensures Placed(ids, p, Opening(ids, f), 0)
  {
  }

  lemma ClosingPlaced(ids: Ids, f: Facts, p: Path, outcome: Word)
    requires IdsOk(ids) && !p.EarlyPath? && (p.DeniedPath? ==> outcome != StatusAvailable)
    requires p.WorkedPath? ==> p.completed == (outcome == StatusAvailable)
    ensures Placed(ids, p, Closing(ids, f, if p.DeniedPath? then 5 else 7, outcome), if p.DeniedPath? then 6 else 8)
  {
  }

  lemma DeniedPlaced(ids: Ids, f: Facts, reason: Word, outcome: Word)
    requires IdsOk(ids) && outcome != StatusAvailable
    ensures Placed(ids, DeniedPath, DeniedTrace(ids, f, reason, outcome), 0)
  {
    OpeningPlaced(ids, f, DeniedPath);
    ClosingPlaced(ids, f, DeniedPath, outcome);
    var decision := [DecisionRecord(ids, f, false, reason)];
    assert Placed(ids, DeniedPath, decision, 5);
    PlacedJoins(ids, DeniedPath, Opening(ids, f), decision, 0);
    PlacedJoins(ids, DeniedPath, Opening(ids, f) + decision, Closing(ids, f, 5, outcome), 0);
  }

  lemma WorkingPlaced(ids: Ids, f: Facts, outcome: Word)
    requires IdsOk(ids)
    ensures Placed(ids, WorkedPath(outcome == StatusAvailable), Working(ids, f, outcome), 5)
  {
  }

  lemma WorkedPlaced(ids: Ids, f: Facts, outcome: Word)
    requires IdsOk(ids)
    ensures Placed(ids, WorkedPath(outcome == StatusAvailable), WorkedTrace(ids, f, outcome), 0)
  {
    var p := WorkedPath(outcome == StatusAvailable);
    OpeningPlaced(ids, f, p);
    ClosingPlaced(ids, f, p, outcome);
    WorkingPlaced(ids, f, outcome);
    PlacedJoins(ids, p, Opening(ids, f), Working(ids, f, outcome), 0);
    PlacedJoins(ids, p, Opening(ids, f) + Working(ids, f, outcome), Closing(ids, f, 7, outcome), 0);
  }

  lemma OpeningGood(ids: Ids, f: Facts)
    requires IdsOk(ids) && FactsOk(f)
    ensures Goods(ids, f, Opening(ids, f))
  {
    RootGood(ids, f);
    AcceptedGood(ids, f);
    RunningGood(ids, f);
    RequestedGood(ids, f);
    GateGood(ids, f);
  }

  lemma WorkingGood(ids: Ids, f: Facts, outcome: Word)
    requires IdsOk(ids) && FactsOk(f)
    ensures Goods(ids, f, Working(ids, f, outcome))
  {
    DecisionGood(ids, f, true, CapabilityGranted);
    WorkerStartGood(ids, f);
    WorkerEndGood(ids, f, outcome);
  }

  lemma ClosingGood(ids: Ids, f: Facts, parent: nat, outcome: Word)
    requires IdsOk(ids) && FactsOk(f) && parent < 12
    ensures Goods(ids, f, Closing(ids, f, parent, outcome))
  {
    ValidatedGood(ids, f, parent, outcome);
    ProjectedGood(ids, f, outcome);
    TerminalGood(ids, f, outcome);
  }

  lemma DeniedGood(ids: Ids, f: Facts, reason: Word, outcome: Word)
    requires IdsOk(ids) && FactsOk(f)
    ensures Goods(ids, f, DeniedTrace(ids, f, reason, outcome))
  {
    OpeningGood(ids, f);
    DecisionGood(ids, f, false, reason);
    ClosingGood(ids, f, 5, outcome);
    var decision := [DecisionRecord(ids, f, false, reason)];
    GoodsJoin(ids, f, Opening(ids, f), decision);
    GoodsJoin(ids, f, Opening(ids, f) + decision, Closing(ids, f, 5, outcome));
  }

  lemma WorkedGood(ids: Ids, f: Facts, outcome: Word)
    requires IdsOk(ids) && FactsOk(f)
    ensures Goods(ids, f, WorkedTrace(ids, f, outcome))
  {
    OpeningGood(ids, f);
    WorkingGood(ids, f, outcome);
    ClosingGood(ids, f, 7, outcome);
    GoodsJoin(ids, f, Opening(ids, f), Working(ids, f, outcome));
    GoodsJoin(ids, f, Opening(ids, f) + Working(ids, f, outcome), Closing(ids, f, 7, outcome));
  }

  // --------------------------------------------------------- what was expected

  lemma {:induction false} NoEarly(rs: seq<Record>)
    requires forall k :: 0 <= k < |rs| ==> !Early(rs[k].event)
    ensures FirstEarly(rs).None?
  {
    if rs != [] {
      NoEarly(rs[1..]);
    }
  }

  lemma PathEvents(p: Path)
    ensures Events(DeniedPath) == PREFIX + [CapabilityDenied, ResultValidated, ResultProjected, JobFailed]
    ensures p.WorkedPath? ==> Events(p) == PREFIX + [CapabilityAllowed, WorkerStarted, WorkerFinished, ResultValidated,
                                                     ResultProjected, if p.completed then JobCompleted else JobFailed]
    ensures p.EarlyPath? ==> Events(p) == [Received, p.e]
  {
  }

  lemma FirstAt(ids: Ids, p: Path, rs: seq<Record>, k: nat)
    requires IdsOk(ids) && PathOk(p) && Placed(ids, p, rs, 0) && k < |rs|
    ensures First(rs, EventAt(p, k)) == Some(rs[k]) && Has(rs, EventAt(p, k))
  {
    PlacedDistinct(ids, p, rs);
    assert PlacedAt(ids, p, rs[k], k);
    FirstOf(rs, k);
  }

  predicate OffPath(p: Path, e: Event) {
    forall i {:trigger EventAt(p, i)} :: 0 <= i < Length(p) ==> EventAt(p, i) != e
  }

  lemma NotAt(ids: Ids, p: Path, rs: seq<Record>, e: Event)
    requires IdsOk(ids) && Placed(ids, p, rs, 0) && OffPath(p, e)
    ensures First(rs, e) == None && !Has(rs, e)
  {
    forall k | 0 <= k < |rs|
      ensures rs[k].event != e
    {
      assert PlacedAt(ids, p, rs[k], k);
    }
    FirstNone(rs, e);
  }

  lemma PathSpelled(ids: Ids, p: Path, rs: seq<Record>)
    requires IdsOk(ids) && Placed(ids, p, rs, 0)
    ensures forall k :: 0 <= k < |rs| ==> rs[k].event == EventAt(p, k)
  {
    forall k | 0 <= k < |rs|
      ensures rs[k].event == EventAt(p, k)
    {
      assert PlacedAt(ids, p, rs[k], k);
    }
  }

  lemma PathNotEarly(ids: Ids, p: Path, rs: seq<Record>)
    requires IdsOk(ids) && Placed(ids, p, rs, 0) && !p.EarlyPath?
    ensures FirstEarly(rs).None?
  {
    PathSpelled(ids, p, rs);
    NoEarly(rs);
  }

  lemma EarlyExpected(ids: Ids, p: Path, rs: seq<Record>)
    requires IdsOk(ids) && PathOk(p) && p.EarlyPath? && Placed(ids, p, rs, 0) && |rs| == 2
    ensures Expected(rs) == [Received, p.e]
  {
    PathSpelled(ids, p, rs);
    assert rs[1..][0].event == p.e;
    assert FirstEarly(rs[1..]) == Some(p.e);
  }

  lemma DeniedExpected(ids: Ids, rs: seq<Record>)
    requires IdsOk(ids) && Placed(ids, DeniedPath, rs, 0) && |rs| == Length(DeniedPath)
    ensures Expected(rs) == Events(DeniedPath)
  {
    PathEvents(DeniedPath);
    PathNotEarly(ids, DeniedPath, rs);
    FirstAt(ids, DeniedPath, rs, 5);
  }

  lemma WorkedExpected(ids: Ids, completed: bool, rs: seq<Record>)
    requires IdsOk(ids) && Placed(ids, WorkedPath(completed), rs, 0) && |rs| == Length(WorkedPath(completed))
    ensures Expected(rs) == Events(WorkedPath(completed))
  {
    var p := WorkedPath(completed);
    PathEvents(p);
    PathNotEarly(ids, p, rs);
    NotAt(ids, p, rs, CapabilityDenied);
    if completed {
      FirstAt(ids, p, rs, 10);
    } else {
      NotAt(ids, p, rs, JobCompleted);
    }
  }

  lemma PathExpected(ids: Ids, p: Path, rs: seq<Record>)
    requires IdsOk(ids) && PathOk(p) && Placed(ids, p, rs, 0) && |rs| == Length(p)
    ensures Expected(rs) == Events(p)
  {
    match p
    case EarlyPath(e) =>
      PathEvents(p);
      EarlyExpected(ids, p, rs);
    case DeniedPath => DeniedExpected(ids, rs);
    case WorkedPath(completed) => WorkedExpected(ids, completed, rs);
  }

  // ------------------------------------------------------------- what it says

  lemma PathShaped(ids: Ids, p: Path, rs: seq<Record>)
    requires IdsOk(ids) && PathOk(p) && Placed(ids, p, rs, 0) && |rs| == Length(p)
    ensures Shaped(rs, Expected(rs)) && OneRoot(rs) && ParentsExist(rs) && SpansUnique(rs)
  {
    PlacedDistinct(ids, p, rs);
    PlacedLinked(ids, p, rs);
    PathExpected(ids, p, rs);
    PathSpelled(ids, p, rs);
    ChainShaped(rs, Events(p));
    ChainRooted(rs);
  }

  lemma PathComplete(ids: Ids, f: Facts, p: Path, rs: seq<Record>)
    requires IdsOk(ids) && PathOk(p) && Placed(ids, p, rs, 0) && |rs| == Length(p) && Goods(ids, f, rs) && Coherent(StagesOf(rs))
    ensures Complete(rs)
  {
    PathShaped(ids, p, rs);
    MeaningOf(ids, f, rs);
  }

  lemma MeaningOf(ids: Ids, f: Facts, rs: seq<Record>)
    requires Goods(ids, f, rs) && Coherent(StagesOf(rs))
    ensures RecordsOk(rs) && Semantic(rs)
  {
    AllGood(ids, f, rs);
  }

  predicate Says(r: Record, k: Key, w: Word) {
    k in r.attributes && r.attributes[k] == Say(w)
  }

  predicate StagesSay(accepted: Record, running: Record, request: Record) {
    && Says(accepted, FromState, Submitted) && Says(accepted, ToState, Accepted)
    && Says(running, FromState, Accepted) && Says(running, ToState, Running)
    && Says(request, ToolClass, StatusTool) && Says(request, ToolTarget, Platform)
  }

  predicate EndSays(validated: Record, projected: Record, terminal: Record, outcome: Word) {
    && Says(validated, JobOutcome, outcome) && Says(projected, JobOutcome, outcome)
    && Says(terminal, FromState, Running) && Says(terminal, ToState, if outcome == StatusAvailable then Completed else Failed)
    && Says(terminal, JobReason, ReasonWord(outcome))
  }

  predicate DeniedWords(reason: Word, outcome: Word) {
    || (reason == AuthorizationUnavailable && outcome == AuthorizationUnavailable)
    || (reason == CapabilityNotGranted && outcome == CapabilityDeniedWord)
  }

  predicate WorkerWord(outcome: Word) {
    outcome == StatusAvailable || outcome == WorkerUnavailable || outcome == WorkerResultInvalid
  }

  lemma OpeningSays(ids: Ids, f: Facts)
    requires IdsOk(ids)
    ensures StagesSay(AcceptedRecord(ids, f), RunningRecord(ids, f), RequestedRecord(ids, f))
  {
  }

  lemma ClosingSays(ids: Ids, f: Facts, parent: nat, outcome: Word)
    requires IdsOk(ids) && parent < 12
    ensures EndSays(ValidatedRecord(ids, f, parent, outcome), ProjectedRecord(ids, f, outcome), TerminalRecord(ids, f, outcome), outcome)
  {
  }

  /** The last three records agree with the outcome they close. */
  lemma EndConsistent(validated: Record, projected: Record, terminal: Record, outcome: Word)
    requires EndSays(validated, projected, terminal, outcome)
    requires WorkerWord(outcome) || outcome == AuthorizationUnavailable || outcome == CapabilityDeniedWord
    ensures Get(Some(validated), JobOutcome) == Some(Say(outcome)) && Get(Some(projected), JobOutcome) == Some(Say(outcome))
    ensures outcome == StatusAvailable ==> EndsAgree(Some(terminal), None, Some(Say(outcome)))
    ensures outcome != StatusAvailable ==> EndsAgree(None, Some(terminal), Some(Say(outcome)))
  {
  }

  // ------------------------------------------------------------ denied jobs

  predicate DeniedStory(rs: seq<Record>, reason: Word, outcome: Word) {
    && |rs| == 9 && StagesSay(rs[1], rs[2], rs[3])
    && Says(rs[5], ToolDecision, DenyWord) && Says(rs[5], ToolReason, reason)
    && EndSays(rs[6], rs[7], rs[8], outcome)
  }

  lemma DeniedTells(ids: Ids, f: Facts, reason: Word, outcome: Word)
    requires IdsOk(ids)
    ensures DeniedStory(DeniedTrace(ids, f, reason, outcome), reason, outcome)
  {
    OpeningSays(ids, f);
    ClosingSays(ids, f, 5, outcome);
  }

  function DeniedStages(rs: seq<Record>): Stages
    requires |rs| == 9
  {
    Stages(Some(rs[1]), Some(rs[2]), Some(rs[3]), None, Some(rs[5]), None, Some(rs[6]), Some(rs[7]), None, Some(rs[8]))
  }

  lemma DeniedOff()
    ensures OffPath(DeniedPath, CapabilityAllowed) && OffPath(DeniedPath, WorkerFinished) && OffPath(DeniedPath, JobCompleted)
  {
  }

  lemma DeniedStagesOf(ids: Ids, rs: seq<Record>)
    requires IdsOk(ids) && Placed(ids, DeniedPath, rs, 0) && |rs| == 9
    ensures StagesOf(rs) == DeniedStages(rs)
  {
    FirstAt(ids, DeniedPath, rs, 1);
    FirstAt(ids, DeniedPath, rs, 2);
    FirstAt(ids, DeniedPath, rs, 3);
    FirstAt(ids, DeniedPath, rs, 5);
    FirstAt(ids, DeniedPath, rs, 6);
    FirstAt(ids, DeniedPath, rs, 7);
    FirstAt(ids, DeniedPath, rs, 8);
    DeniedOff();
    NotAt(ids, DeniedPath, rs, CapabilityAllowed);
    NotAt(ids, DeniedPath, rs, WorkerFinished);
    NotAt(ids, DeniedPath, rs, JobCompleted);
  }

  lemma DeniedCoherent(rs: seq<Record>, reason: Word, outcome: Word)
    requires DeniedStory(rs, reason, outcome) && DeniedWords(reason, outcome)
    ensures Coherent(DeniedStages(rs))
  {
    EndConsistent(rs[6], rs[7], rs[8], outcome);
  }

  lemma DeniedComplete(ids: Ids, f: Facts, reason: Word, outcome: Word)
    requires IdsOk(ids) && FactsOk(f) && DeniedWords(reason, outcome)
    ensures Complete(DeniedTrace(ids, f, reason, outcome))
  {
    var rs := DeniedTrace(ids, f, reason, outcome);
    DeniedPlaced(ids, f, reason, outcome);
    DeniedGood(ids, f, reason, outcome);
    DeniedTells(ids, f, reason, outcome);
    DeniedCoherent(rs, reason, outcome);
    DeniedStagesOf(ids, rs);
    PathComplete(ids, f, DeniedPath, rs);
  }

  // ------------------------------------------------------------ worked jobs

  predicate WorkedStory(rs: seq<Record>, outcome: Word) {
    && |rs| == 11 && StagesSay(rs[1], rs[2], rs[3])
    && Says(rs[5], ToolDecision, AllowWord) && Says(rs[5], ToolReason, CapabilityGranted) && Says(rs[5], Capability, StatusRead)
    && Says(rs[7], WorkerOutcome, outcome)
    && EndSays(rs[8], rs[9], rs[10], outcome)
  }

  lemma WorkedTells(ids: Ids, f: Facts, outcome: Word)
    requires IdsOk(ids) && f.capability == Say(StatusRead)
    ensures WorkedStory(WorkedTrace(ids, f, outcome), outcome)
  {
    OpeningSays(ids, f);
    ClosingSays(ids, f, 7, outcome);
  }

  function WorkedStages(rs: seq<Record>, completed: bool): Stages
    requires |rs| == 11
  {
    Stages(Some(rs[1]), Some(rs[2]), Some(rs[3]), Some(rs[5]), None, Some(rs[7]), Some(rs[8]), Some(rs[9]),
           if completed then Some(rs[10]) else None, if completed then None else Some(rs[10]))
  }

  lemma WorkedOff(completed: bool)
    ensures OffPath(WorkedPath(completed), CapabilityDenied)
    ensures OffPath(WorkedPath(completed), if completed then JobFailed else JobCompleted)
  {
  }

  lemma WorkedOpening(ids: Ids, rs: seq<Record>, completed: bool)
    requires IdsOk(ids) && Placed(ids, WorkedPath(completed), rs, 0) && |rs| == 11
    ensures First(rs, JobAccepted) == Some(rs[1]) && First(rs, JobRunning) == Some(rs[2])
    ensures First(rs, ToolRequested) == Some(rs[3]) && First(rs, CapabilityAllowed) == Some(rs[5])
  {
    var p := WorkedPath(completed);
    FirstAt(ids, p, rs, 1);
    FirstAt(ids, p, rs, 2);
    FirstAt(ids, p, rs, 3);
    FirstAt(ids, p, rs, 5);
  }

  lemma WorkedClosing(ids: Ids, rs: seq<Record>, completed: bool)
    requires IdsOk(ids) && Placed(ids, WorkedPath(completed), rs, 0) && |rs| == 11
    ensures First(rs, WorkerFinished) == Some(rs[7]) && First(rs, ResultValidated) == Some(rs[8])
    ensures First(rs, ResultProjected) == Some(rs[9])
  {
    var p := WorkedPath(completed);
    FirstAt(ids, p, rs, 7);
    FirstAt(ids, p, rs, 8);
    FirstAt(ids, p, rs, 9);
  }

  lemma WorkedEnd(ids: Ids, rs: seq<Record>, completed: bool)
    requires IdsOk(ids) && Placed(ids, WorkedPath(completed), rs, 0) && |rs| == 11
    ensures First(rs, if completed then JobCompleted else JobFailed) == Some(rs[10])
  {
    FirstAt(ids, WorkedPath(completed), rs, 10);
  }

  lemma WorkedAbsent(ids: Ids, rs: seq<Record>, completed: bool)
    requires IdsOk(ids) && Placed(ids, WorkedPath(completed), rs, 0) && |rs| == 11
    ensures First(rs, CapabilityDenied) == None && First(rs, if completed then JobFailed else JobCompleted) == None
  {
    var p := WorkedPath(completed);
    WorkedOff(completed);
    NotAt(ids, p, rs, CapabilityDenied);
    NotAt(ids, p, rs, if completed then JobFailed else JobCompleted);
  }

  lemma WorkedStagesOf(ids: Ids, rs: seq<Record>, completed: bool)
    requires IdsOk(ids) && Placed(ids, WorkedPath(completed), rs, 0) && |rs| == 11
    ensures StagesOf(rs) == WorkedStages(rs, completed)
  {
    WorkedOpening(ids, rs, completed);
    WorkedClosing(ids, rs, completed);
    WorkedEnd(ids, rs, completed);
    WorkedAbsent(ids, rs, completed);
  }

  lemma WorkedCoherent(rs: seq<Record>, outcome: Word)
    requires WorkedStory(rs, outcome) && WorkerWord(outcome)
    ensures Coherent(WorkedStages(rs, outcome == StatusAvailable))
  {
    EndConsistent(rs[8], rs[9], rs[10], outcome);
  }

  lemma WorkedComplete(ids: Ids, f: Facts, outcome: Word)
    requires IdsOk(ids) && FactsOk(f) && WorkerWord(outcome) && f.capability == Say(StatusRead)
    ensures Complete(WorkedTrace(ids, f, outcome))
  {
    var rs := WorkedTrace(ids, f, outcome);
    WorkedPlaced(ids, f, outcome);
    WorkedGood(ids, f, outcome);
    WorkedTells(ids, f, outcome);
    WorkedCoherent(rs, outcome);
    WorkedStagesOf(ids, rs, outcome == StatusAvailable);
    PathComplete(ids, f, WorkedPath(outcome == StatusAvailable), rs);
  }

  // ------------------------------------------------- submissions turned away

  lemma EarlyNone(ids: Ids, rs: seq<Record>, p: Path, e: Event)
    requires IdsOk(ids) && Placed(ids, p, rs, 0) && p.EarlyPath? && e != Received && e != p.e
    ensures First(rs, e) == None
  {
    NotAt(ids, p, rs, e);
  }

  lemma EarlyStagesOf(ids: Ids, rs: seq<Record>, p: Path)
    requires IdsOk(ids) && Placed(ids, p, rs, 0) && p.EarlyPath? && Early(p.e)
    ensures StagesOf(rs) == Stages(None, None, None, None, None, None, None, None, None, None)
  {
    EarlyNone(ids, rs, p, JobAccepted);
    EarlyNone(ids, rs, p, JobRunning);
    EarlyNone(ids, rs, p, ToolRequested);
    EarlyNone(ids, rs, p, CapabilityAllowed);
    EarlyNone(ids, rs, p, CapabilityDenied);
    EarlyNone(ids, rs, p, WorkerFinished);
    EarlyNone(ids, rs, p, ResultValidated);
    EarlyNone(ids, rs, p, ResultProjected);
    EarlyNone(ids, rs, p, JobCompleted);
    EarlyNone(ids, rs, p, JobFailed);
  }

  lemma EarlyComplete(ids: Ids, f: Facts, rs: seq<Record>, p: Path)
    requires IdsOk(ids) && p.EarlyPath? && Early(p.e) && |rs| == 2 && Placed(ids, p, rs, 0) && Goods(ids, f, rs)
    ensures Complete(rs)
  {
    EarlyStagesOf(ids, rs, p);
    PathComplete(ids, f, p, rs);
  }

  // ---------------------------------------------------- traces left unfinished

  predicate Unfinished(rs: seq<Record>) {
    forall k :: 0 <= k < |rs| ==> !Early(rs[k].event) && rs[k].event != JobCompleted && rs[k].event != JobFailed
  }

  lemma UnfinishedIncomplete(rs: seq<Record>)
    requires Unfinished(rs)
    ensures !Complete(rs)
  {
    NoEarly(rs);
    FirstNone(rs, JobCompleted);
    FirstNone(rs, JobFailed);
    assert Expected(rs)[|Expected(rs)| - 1] == JobFailed;
  }

  /** What `submit` leaves is judged complete if and only if the submission
      ended: an early rejection, a conflict, a replay, or a committed COMPLETED
      or FAILED job, whatever the grants, the worker and the store answered. */
  lemma CompleteIffEnded(ids: Ids, f: Facts, a: Answers)
    requires IdsOk(ids) && FactsOk(f)
    ensures var (trace, end) := SubmitTrace(ids, f, a); Complete(trace) <==> Ended(end)
  {
    var (trace, end) := SubmitTrace(ids, f, a);
    if Ended(end) {
      EndedComplete(ids, f, a);
    } else {
      NotEndedUnfinished(ids, f, a);
      UnfinishedIncomplete(trace);
    }
  }

  /** A replay names the existing job, not the one that was not created. */
  function Naming(f: Facts, a: Answers): Facts {
    if a.claim.Replay? then f.(job := f.existing) else f
  }

  lemma TurnedTrace(ids: Ids, f: Facts, a: Answers)
    requires IdsOk(ids) && var end := SubmitTrace(ids, f, a).1; end.Turned? || end.Conflict? || end.Existing?
    ensures var trace := SubmitTrace(ids, f, a).0;
      && |trace| == 2 && Early(trace[1].event) && trace[0] == RootRecord(ids, f)
      && PlacedAt(ids, EarlyPath(trace[1].event), trace[1], 1)
  {
  }

  lemma TurnedGood(ids: Ids, f: Facts, a: Answers)
    requires IdsOk(ids) && FactsOk(f) && |SubmitTrace(ids, f, a).0| == 2 && Early(SubmitTrace(ids, f, a).0[1].event)
    ensures Good(ids, Naming(f, a), SubmitTrace(ids, f, a).0[1])
  {
  }

  lemma TurnedComplete(ids: Ids, f: Facts, a: Answers)
    requires IdsOk(ids) && FactsOk(f) && var end := SubmitTrace(ids, f, a).1; end.Turned? || end.Conflict? || end.Existing?
    ensures Complete(SubmitTrace(ids, f, a).0)
  {
    var trace := SubmitTrace(ids, f, a).0;
    TurnedTrace(ids, f, a);
    TurnedGood(ids, f, a);
    RootGood(ids, Naming(f, a));
    assert RootRecord(ids, f) == RootRecord(ids, Naming(f, a));
    EarlyComplete(ids, Naming(f, a), trace, EarlyPath(trace[1].event));
  }

  lemma FinishedTrace(ids: Ids, f: Facts, a: Answers)
    requires IdsOk(ids) && SubmitTrace(ids, f, a).1.Finished?
    ensures SubmitTrace(ids, f, a).0 ==
      if Allowed(f, a) then WorkedTrace(ids, f, FinalWord(f, a))
      else DeniedTrace(ids, f, ToolReasonWord(f, a), FinalWord(f, a))
  {
    var gate, closing := GateTrace(ids, f, a).0, CommitTrace(ids, f, a, if Allowed(f, a) then 7 else 5, FinalWord(f, a)).0;
    var opening := Opening(ids, f);
    assert opening == [RootRecord(ids, f), AcceptedRecord(ids, f)] + ([RunningRecord(ids, f), RequestedRecord(ids, f)] + [GateRecord(ids, f)]);
    assert SubmitTrace(ids, f, a).0 == [RootRecord(ids, f), AcceptedRecord(ids, f)] + ([RunningRecord(ids, f), RequestedRecord(ids, f)] + gate);
  }

  lemma EndedComplete(ids: Ids, f: Facts, a: Answers)
    requires IdsOk(ids) && FactsOk(f) && Ended(SubmitTrace(ids, f, a).1)
    ensures Complete(SubmitTrace(ids, f, a).0)
  {
    if !SubmitTrace(ids, f, a).1.Finished? {
      TurnedComplete(ids, f, a);
    } else {
      FinishedTrace(ids, f, a);
      if Allowed(f, a) {
        WorkedComplete(ids, f, FinalWord(f, a));
      } else {
        DeniedComplete(ids, f, ToolReasonWord(f, a), FinalWord(f, a));
      }
    }
  }

  lemma ExecuteUnfinished(ids: Ids, f: Facts, a: Answers)
    requires IdsOk(ids) && !Ended(ExecuteTrace(ids, f, a).1)
    ensures Unfinished(ExecuteTrace(ids, f, a).0)
  {
  }

  lemma NotEndedUnfinished(ids: Ids, f: Facts, a: Answers)
    requires IdsOk(ids) && !Ended(SubmitTrace(ids, f, a).1)
    ensures Unfinished(SubmitTrace(ids, f, a).0)
  {
    if a.accepted {
      ExecuteUnfinished(ids, f, a);
    }
  }

}
