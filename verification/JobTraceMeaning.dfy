// What it takes for the evidence of a trace to be judged complete, record by
// record, and the one story a complete trace tells.

module JobTraceMeaning {
  import opened Common
  import opened Evidence
  import opened JobTrace

  // --------------------------------------------------------------- records

  const BY_GATEWAY: set<Event> := {GateStarted, CapabilityAllowed, CapabilityDenied}
  const BY_WORKER: set<Event> := {WorkerStarted, WorkerFinished}
  const BY_API: set<Event> := {ApiFailed, ApiPrepared, ApiResponse}
  const BY_RELAY: set<Event> := {
    Received, AuthorityRejected, IntentInvalid, ContextFailed, ClaimFailed, Conflicted, Replayed, JobAccepted, JobRunning,
    ToolRequested, ResultValidated, ResultProjected, JobCompleted, JobFailed, TransitionRejected}

  predicate Owns(s: Service, e: Event) {
    || (s == Relay && e in BY_RELAY) || (s == ToolGateway && e in BY_GATEWAY)
    || (s == StatusWorker && e in BY_WORKER) || (s == RelayApi && e in BY_API)
  }

  /** Which events carry an attribute. */
  function Carriers(k: Key): set<Event> {
    match k
    case Environment => {Received}
    case RelayContract => {Received}
    case AuthorityClaims => {AuthorityRejected}
    case ValidationErrors => {IntentInvalid}
    case ProviderSource => {ContextFailed}
    case IdempotencyOutcome => {Conflicted, Replayed}
    case JobId => {Replayed, JobAccepted, JobRunning, ToolRequested, GateStarted, CapabilityAllowed, CapabilityDenied, WorkerStarted,
                   WorkerFinished, ResultValidated, ResultProjected, JobCompleted, JobFailed, TransitionRejected}
    case FromState => {JobAccepted, JobRunning, JobCompleted, JobFailed}
    case ToState => {JobAccepted, JobRunning, JobCompleted, JobFailed}
    case ExecutionId => {JobRunning, ToolRequested, GateStarted, CapabilityAllowed, CapabilityDenied, WorkerStarted, WorkerFinished, ResultValidated}
    case Capability => {ToolRequested, GateStarted, CapabilityAllowed, CapabilityDenied}
    case ToolClass => {ToolRequested}
    case ToolTarget => {ToolRequested}
    case ToolDecision => {CapabilityAllowed, CapabilityDenied}
    case ToolReason => {CapabilityAllowed, CapabilityDenied}
    case WorkerId => {WorkerStarted}
    case WorkerOutcome => {WorkerFinished}
    case JobOutcome => {ResultValidated, ResultProjected}
    case JobReason => {JobCompleted, JobFailed, TransitionRejected}
    case CurrentState => {TransitionRejected}
    case AttemptedState => {TransitionRejected}
    case HttpMethod => BY_API
    case HttpRoute => BY_API
    case HttpStatus => BY_API
    case Disposition => BY_API
    case _ => {}
  }

  /** A record of the trace, from the service that owns its event, with exactly the
      attributes of its event, all of them short and plain. */
  predicate Clean(trace: Id, r: Record) {
    && 0 < r.trace < 0x1_0000_0000_0000_0000_0000_0000_0000_0000 && r.trace == trace
    && 0 < r.span < 0x1_0000_0000_0000_0000
    && Owns(r.service, r.event)
    && (forall k :: k in r.attributes <==> r.event in Carriers(k))
    && (forall k :: k in r.attributes ==> r.attributes[k] != Structured && (r.attributes[k].Name? ==> r.attributes[k].length <= 160))
  }

  lemma OwnerMeans(e: Event, s: Service)
    ensures Owns(s, e) <==> RuleOf(e).Some? && s == RuleOf(e).value.service
  {
  }

  lemma RefusalKeys(e: Event, k: Key)
    requires e in {Received, AuthorityRejected, IntentInvalid}
    ensures k in RuleOf(e).value.keys <==> e in Carriers(k)
  {
    match e
    case Received =>
    case AuthorityRejected =>
    case IntentInvalid =>
    case _ => assert false;
  }

  lemma ClaimKeys(e: Event, k: Key)
    requires e in {ContextFailed, ClaimFailed, Conflicted}
    ensures k in RuleOf(e).value.keys <==> e in Carriers(k)
  {
    match e
    case ContextFailed =>
    case ClaimFailed =>
    case Conflicted =>
    case _ => assert false;
  }

  lemma ReplayKeys(e: Event, k: Key)
    requires e in {Replayed, JobAccepted}
    ensures k in RuleOf(e).value.keys <==> e in Carriers(k)
  {
    match e
    case Replayed =>
    case JobAccepted =>
    case _ => assert false;
  }

  lemma RequestKeys(e: Event, k: Key)
    requires e in {JobRunning, ToolRequested}
    ensures k in RuleOf(e).value.keys <==> e in Carriers(k)
  {
    match e
    case JobRunning =>
    case ToolRequested =>
    case _ => assert false;
  }

  lemma GateKeys(e: Event, k: Key)
    requires e in {GateStarted, WorkerStarted}
    ensures k in RuleOf(e).value.keys <==> e in Carriers(k)
  {
    match e
    case GateStarted =>
    case WorkerStarted =>
    case _ => assert false;
  }

  lemma DecisionKeys(e: Event, k: Key)
    requires e in {CapabilityAllowed, CapabilityDenied}
    ensures k in RuleOf(e).value.keys <==> e in Carriers(k)
  {
    match e
    case CapabilityAllowed =>
    case CapabilityDenied =>
    case _ => assert false;
  }

  lemma WorkerKeys(e: Event, k: Key)
    requires e in {WorkerFinished, ResultValidated}
    ensures k in RuleOf(e).value.keys <==> e in Carriers(k)
  {
    match e
    case WorkerFinished =>
    case ResultValidated =>
    case _ => assert false;
  }

  lemma ResultKeys(e: Event, k: Key)
    requires e in {ResultProjected, JobCompleted}
    ensures k in RuleOf(e).value.keys <==> e in Carriers(k)
  {
    match e
    case ResultProjected =>
    case JobCompleted =>
    case _ => assert false;
  }

  lemma EndKeys(e: Event, k: Key)
    requires e in {JobFailed, TransitionRejected}
    ensures k in RuleOf(e).value.keys <==> e in Carriers(k)
  {
    match e
    case JobFailed =>
    case TransitionRejected =>
    case _ => assert false;
  }

  lemma ApiKeys(e: Event, k: Key)
    requires e in {ApiFailed, ApiPrepared}
    ensures k in RuleOf(e).value.keys <==> e in Carriers(k)
  {
    match e
    case ApiFailed =>
    case ApiPrepared =>
    case _ => assert false;
  }

  lemma ResponseKeys(k: Key)
    ensures k in RuleOf(ApiResponse).value.keys <==> ApiResponse in Carriers(k)
  {
  }

  lemma KeysMean(e: Event, k: Key)
    requires RuleOf(e).Some?
    ensures k in RuleOf(e).value.keys <==> e in Carriers(k)
  {
    if e in {Received, AuthorityRejected, IntentInvalid} {
      RefusalKeys(e, k);
    } else if e in {ContextFailed, ClaimFailed, Conflicted} {
      ClaimKeys(e, k);
    } else if e in {Replayed, JobAccepted} {
      ReplayKeys(e, k);
    } else if e in {JobRunning, ToolRequested} {
      RequestKeys(e, k);
    } else if e in {GateStarted, WorkerStarted} {
      GateKeys(e, k);
    } else if e in {CapabilityAllowed, CapabilityDenied} {
      DecisionKeys(e, k);
    } else if e in {WorkerFinished, ResultValidated} {
      WorkerKeys(e, k);
    } else if e in {ResultProjected, JobCompleted} {
      ResultKeys(e, k);
    } else if e in {JobFailed, TransitionRejected} {
      EndKeys(e, k);
    } else if e in {ApiFailed, ApiPrepared} {
      ApiKeys(e, k);
    } else if e == ApiResponse {
      ResponseKeys(k);
    }
  }

  lemma CleanMeans(trace: Id, r: Record)
    ensures RecordOk(trace, r) <==> Clean(trace, r)
  {
    OwnerMeans(r.event, r.service);
    if RuleOf(r.event).Some? {
      var keys := RuleOf(r.event).value.keys;
      forall k
        ensures k in keys <==> r.event in Carriers(k)
      {
        KeysMean(r.event, k);
      }
      SameKeys(r.attributes.Keys, keys, r.event);
    }
  }

  lemma SameKeys(a: set<Key>, b: set<Key>, e: Event)
    requires forall k :: k in b <==> e in Carriers(k)
    ensures a == b <==> forall k :: k in a <==> e in Carriers(k)
  {
    if forall k :: k in a <==> e in Carriers(k) {
      assert forall k :: k in a <==> k in b;
    }
  }

  // ------------------------------------------------------------- the shape

  const EARLY: set<Event> := {AuthorityRejected, IntentInvalid, ContextFailed, ClaimFailed, Conflicted, Replayed}
  const SIDE: set<Event> := {TransitionRejected, ApiPrepared, ApiResponse, ApiFailed}

  predicate Occurs(rs: seq<Record>, e: Event) {
    exists k :: 0 <= k < |rs| && rs[k].event == e
  }

  predicate FirstEarlyAt(rs: seq<Record>, k: nat) {
    k < |rs| && rs[k].event in EARLY && forall i :: 0 <= i < k ==> rs[i].event !in EARLY
  }

  const DENIED_STAGES: seq<Event> := [
    Received, JobAccepted, JobRunning, ToolRequested, GateStarted, CapabilityDenied, ResultValidated, ResultProjected, JobFailed]

  function WorkedStages(end: Event): seq<Event> {
    [Received, JobAccepted, JobRunning, ToolRequested, GateStarted, CapabilityAllowed, WorkerStarted, WorkerFinished,
     ResultValidated, ResultProjected, end]
  }

  predicate TurnedAway(rs: seq<Record>) {
    exists k :: 0 <= k < |rs| && rs[k].event in EARLY
  }

  /** The stages the trace has to show: two when it was turned away, nine when the
      capability was denied, eleven when the worker ran. */
  ghost predicate HasToShow(rs: seq<Record>, stages: seq<Event>) {
    if TurnedAway(rs) then exists k: nat :: FirstEarlyAt(rs, k) && stages == [Received, rs[k].event]
    else if Occurs(rs, CapabilityDenied) then stages == DENIED_STAGES
    else stages == WorkedStages(if Occurs(rs, JobCompleted) then JobCompleted else JobFailed)
  }

  lemma {:induction false} FirstEarlyMeans(rs: seq<Record>)
    ensures if FirstEarly(rs).Some? then exists k: nat :: FirstEarlyAt(rs, k) && rs[k].event == FirstEarly(rs).value
            else !TurnedAway(rs)
  {
    if rs != [] && !Early(rs[0].event) {
      FirstEarlyMeans(rs[1..]);
      if FirstEarly(rs).Some? {
        var k: nat :| FirstEarlyAt(rs[1..], k) && rs[1..][k].event == FirstEarly(rs).value;
        forall i | 0 <= i < k + 1
          ensures rs[i].event !in EARLY
        {
          assert i > 0 ==> rs[i] == rs[1..][i - 1];
        }
        assert FirstEarlyAt(rs, k + 1);
      } else {
        forall i | 0 <= i < |rs|
          ensures rs[i].event !in EARLY
        {
          assert i > 0 ==> rs[i] == rs[1..][i - 1];
        }
      }
    } else if rs != [] {
      assert FirstEarlyAt(rs, 0);
    }
  }

  lemma OneFirstEarly(rs: seq<Record>, i: nat, k: nat)
    requires FirstEarlyAt(rs, i) && FirstEarlyAt(rs, k)
    ensures i == k
  {
  }

  lemma ExpectedMeans(rs: seq<Record>, stages: seq<Event>)
    ensures stages == Expected(rs) <==> HasToShow(rs, stages)
  {
    FirstEarlyMeans(rs);
    assert forall e :: Has(rs, e) <==> Occurs(rs, e);
    if FirstEarly(rs).Some? {
      var k: nat :| FirstEarlyAt(rs, k) && rs[k].event == FirstEarly(rs).value;
      forall i: nat | FirstEarlyAt(rs, i)
        ensures i == k
      {
        OneFirstEarly(rs, i, k);
      }
    }
  }

  /** Every stage occurs, first after the first of every stage before it. */
  predicate InSequence(rs: seq<Record>, stages: seq<Event>) {
    && (forall e :: e in stages ==> Occurs(rs, e))
    && forall i, j, b :: 0 <= i < j < |stages| && 0 <= b < |rs| && rs[b].event == stages[j] ==>
         exists a :: 0 <= a < b && rs[a].event == stages[i]
  }

  lemma SequenceMeans(rs: seq<Record>, stages: seq<Event>)
    requires forall i, j :: 0 <= i < j < |stages| ==> stages[i] != stages[j]
    ensures (forall e :: e in stages ==> Has(rs, e)) && InOrder(rs, stages) <==> InSequence(rs, stages)
  {
    assert forall e :: Has(rs, e) <==> Occurs(rs, e);
    forall e
      ensures var k := FirstIndex(rs, e); (k < |rs| ==> rs[k].event == e) && forall n :: 0 <= n < k ==> rs[n].event != e
    {
      FirstIndexMeaning(rs, e);
    }
    if (forall e :: e in stages ==> Has(rs, e)) && InOrder(rs, stages) {
      forall i, j, b | 0 <= i < j < |stages| && 0 <= b < |rs| && rs[b].event == stages[j]
        ensures exists a :: 0 <= a < b && rs[a].event == stages[i]
      {
        assert stages[i] in stages && stages[j] in stages;
        assert FirstIndex(rs, stages[i]) < FirstIndex(rs, stages[j]) <= b;
        assert rs[FirstIndex(rs, stages[i])].event == stages[i];
      }
    }
    if InSequence(rs, stages) {
      forall i, j | 0 <= i < j < |stages| && Has(rs, stages[i]) && Has(rs, stages[j])
        ensures FirstIndex(rs, stages[i]) < FirstIndex(rs, stages[j])
      {
        var b := FirstIndex(rs, stages[j]);
        assert rs[b].event == stages[j];
        var a :| 0 <= a < b && rs[a].event == stages[i];
      }
    }
  }

  /** Positions `a` and `b` hold stages with none in between. */
  predicate Consecutive(rs: seq<Record>, stages: seq<Event>, a: nat, b: nat) {
    a < b < |rs| && rs[a].event in stages && rs[b].event in stages && forall k :: a < k < b ==> rs[k].event !in stages
  }

  /** Each stage's record was caused by the one before it. */
  ghost predicate Chained(rs: seq<Record>, stages: seq<Event>) {
    forall a: nat, b: nat :: Consecutive(rs, stages, a, b) ==> rs[b].parent == Some(rs[a].span)
  }

  lemma {:induction false} CanonicalFirst(rs: seq<Record>, stages: seq<Event>) returns (b: nat)
    ensures b <= |rs| && forall k :: 0 <= k < b ==> rs[k].event !in stages
    ensures if b < |rs| then rs[b].event in stages && Canonical(rs, stages) != [] && Canonical(rs, stages)[0] == rs[b]
            else Canonical(rs, stages) == []
  {
    if rs == [] || rs[0].event in stages {
      b := 0;
    } else {
      b := CanonicalFirst(rs[1..], stages);
      b := b + 1;
      forall k | 0 <= k < b
        ensures rs[k].event !in stages
      {
        assert k > 0 ==> rs[k] == rs[1..][k - 1];
      }
    }
  }

  lemma ShiftChain(rs: seq<Record>, stages: seq<Event>, a: nat, b: nat)
    requires rs != []
    ensures Consecutive(rs[1..], stages, a, b) <==> Consecutive(rs, stages, a + 1, b + 1)
  {
    var rest := rs[1..];
    if Consecutive(rest, stages, a, b) {
      forall k | a + 1 < k < b + 1
        ensures rs[k].event !in stages
      {
        assert rs[k] == rest[k - 1];
      }
    }
    if Consecutive(rs, stages, a + 1, b + 1) {
      forall k | a < k < b
        ensures rest[k].event !in stages
      {
        assert rest[k] == rs[k + 1];
      }
    }
  }

  lemma ChainTail(rs: seq<Record>, stages: seq<Event>)
    requires rs != []
    ensures Chained(rs, stages) <==>
      Chained(rs[1..], stages) && forall b: nat :: Consecutive(rs, stages, 0, b) ==> rs[b].parent == Some(rs[0].span)
  {
    forall a: nat, b: nat
      ensures Consecutive(rs[1..], stages, a, b) <==> Consecutive(rs, stages, a + 1, b + 1)
    {
      ShiftChain(rs, stages, a, b);
    }
    if Chained(rs, stages) {
      forall a: nat, b: nat | Consecutive(rs[1..], stages, a, b)
        ensures rs[1..][b].parent == Some(rs[1..][a].span)
      {
        assert Consecutive(rs, stages, a + 1, b + 1);
      }
    }
    if Chained(rs[1..], stages) && forall b: nat :: Consecutive(rs, stages, 0, b) ==> rs[b].parent == Some(rs[0].span) {
      forall a: nat, b: nat | Consecutive(rs, stages, a, b)
        ensures rs[b].parent == Some(rs[a].span)
      {
        if a > 0 {
          ShiftChain(rs, stages, a - 1, b - 1);
          assert Consecutive(rs[1..], stages, a - 1, b - 1);
        }
      }
    }
  }

  lemma LinkedFront(r: Record, rest: seq<Record>)
    ensures Linked([r] + rest) <==> Linked(rest) && (rest != [] ==> rest[0].parent == Some(r.span))
  {
    var all := [r] + rest;
    if Linked(rest) && (rest != [] ==> rest[0].parent == Some(r.span)) {
      forall i | 1 <= i < |all|
        ensures all[i].parent == Some(all[i - 1].span)
      {
        assert i > 1 ==> all[i] == rest[i - 1] && all[i - 1] == rest[i - 2];
      }
    }
    if Linked(all) {
      forall i | 1 <= i < |rest|
        ensures rest[i].parent == Some(rest[i - 1].span)
      {
        assert all[i + 1] == rest[i] && all[i] == rest[i - 1];
      }
      if rest != [] {
        assert all[1] == rest[0] && all[1].parent == Some(all[0].span);
      }
    }
  }

  lemma {:induction false} ChainMeans(rs: seq<Record>, stages: seq<Event>)
    ensures Linked(Canonical(rs, stages)) <==> Chained(rs, stages)
  {
    if rs != [] {
      var rest := rs[1..];
      ChainMeans(rest, stages);
      ChainTail(rs, stages);
      if rs[0].event in stages {
        LinkedFront(rs[0], Canonical(rest, stages));
        var b := CanonicalFirst(rest, stages);
        FirstLink(rs, stages, b);
      }
    }
  }

  lemma FirstLink(rs: seq<Record>, stages: seq<Event>, b: nat)
    requires rs != [] && rs[0].event in stages && b <= |rs| - 1
    requires forall k :: 0 <= k < b ==> rs[1..][k].event !in stages
    requires b < |rs| - 1 ==> rs[1..][b].event in stages
    ensures (forall c: nat :: Consecutive(rs, stages, 0, c) ==> rs[c].parent == Some(rs[0].span)) <==>
      (b < |rs| - 1 ==> rs[1..][b].parent == Some(rs[0].span))
  {
    forall k | 1 <= k < b + 1
      ensures rs[k].event !in stages
    {
      assert rs[k] == rs[1..][k - 1];
    }
    if b < |rs| - 1 {
      assert rs[b + 1] == rs[1..][b];
      assert Consecutive(rs, stages, 0, b + 1);
      forall c: nat | Consecutive(rs, stages, 0, c)
        ensures c == b + 1
      {
      }
    }
  }

  ghost predicate ShapedBy(rs: seq<Record>, stages: seq<Event>) {
    && HasToShow(rs, stages) && InSequence(rs, stages) && Chained(rs, stages)
    && forall i :: 0 <= i < |rs| ==> rs[i].event in stages || rs[i].event in SIDE
  }

  lemma StagesDiffer(rs: seq<Record>)
    ensures forall i, j :: 0 <= i < j < |Expected(rs)| ==> Expected(rs)[i] != Expected(rs)[j]
  {
    FirstEarlyMeans(rs);
  }

  lemma ExtrasMean(rs: seq<Record>, stages: seq<Event>)
    ensures ExtrasOk(rs, stages) <==> forall i :: 0 <= i < |rs| ==> rs[i].event in stages || rs[i].event in SIDE
  {
  }

  lemma ShapeMeans(rs: seq<Record>, stages: seq<Event>)
    ensures stages == Expected(rs) && Shaped(rs, stages) <==> ShapedBy(rs, stages)
  {
    ExpectedMeans(rs, stages);
    if stages == Expected(rs) {
      StagesDiffer(rs);
      SequenceMeans(rs, stages);
      ChainMeans(rs, stages);
      ExtrasMean(rs, stages);
    }
  }

  // ------------------------------------------------------------- the root

  /** One record was caused by nothing, the submission, and every other one by a
      record of the trace. */
  predicate Rooted(rs: seq<Record>) {
    && (exists k :: 0 <= k < |rs| && rs[k].parent == None && rs[k].event == Received)
    && (forall i, k :: 0 <= i < |rs| && 0 <= k < |rs| && rs[i].parent == None && rs[k].parent == None ==> i == k)
    && (forall i :: 0 <= i < |rs| && rs[i].parent != None ==> exists k :: 0 <= k < |rs| && rs[i].parent == Some(rs[k].span))
  }

  lemma RootMeans(rs: seq<Record>)
    ensures OneRoot(rs) && ParentsExist(rs) <==> Rooted(rs)
  {
    if OneRoot(rs) && ParentsExist(rs) {
      forall i | 0 <= i < |rs| && rs[i].parent != None
        ensures exists k :: 0 <= k < |rs| && rs[i].parent == Some(rs[k].span)
      {
        assert HasSpan(rs, rs[i].parent.value);
        var k :| 0 <= k < |rs| && rs[k].span == rs[i].parent.value;
        assert rs[i].parent == Some(rs[k].span);
      }
    }
    if Rooted(rs) {
      forall i | 0 <= i < |rs| && rs[i].parent.Some?
        ensures HasSpan(rs, rs[i].parent.value)
      {
        var k :| 0 <= k < |rs| && rs[i].parent == Some(rs[k].span);
        assert rs[k].span == rs[i].parent.value;
      }
    }
  }

  // -------------------------------------------------------------- the tones

  const FINE: set<Event> := {
    Received, Replayed, JobAccepted, JobRunning, ToolRequested, GateStarted, CapabilityAllowed, WorkerStarted, ResultValidated,
    JobCompleted, ApiPrepared}
  const REFUSING: set<Event> := {
    AuthorityRejected, IntentInvalid, ContextFailed, ClaimFailed, Conflicted, CapabilityDenied, TransitionRejected}

  /** Outcome and severity are those of the event, or of what it reports. */
  predicate RightTone(r: Record) {
    && (r.event in FINE ==> r.outcome == Success && r.severity == Info)
    && (r.event in REFUSING ==> r.outcome == Denied && r.severity == Warning)
    && (r.event == JobFailed ==> r.outcome == Failure && r.severity == Warning)
    && (r.event == ApiFailed ==> r.outcome == Failure && r.severity == Error)
    && (r.event == WorkerFinished ==>
         if Says(r, WorkerOutcome, StatusAvailable) then r.outcome == Success && r.severity == Info
         else r.outcome == Failure && r.severity == Warning)
    && (r.event == ResultProjected ==>
         if Says(r, JobOutcome, StatusAvailable) then r.outcome == Success && r.severity == Info
         else r.outcome == Failure && r.severity == Warning)
    && (r.event == ApiResponse ==>
         if HttpStatus in r.attributes && r.attributes[HttpStatus].Number? && r.attributes[HttpStatus].n < 400
         then r.outcome == Success && r.severity == Info
         else r.outcome == Denied && r.severity == Warning)
  }

  lemma ToneMeans(r: Record)
    ensures ToneOk(r) <==> RightTone(r)
  {
  }

  function Positions(rs: seq<Record>, es: set<Event>): set<nat> {
    set i: nat | i < |rs| && rs[i].event in es
  }

  lemma PositionsNext(rs: seq<Record>, es: set<Event>)
    requires rs != []
    ensures var front := Positions(rs[..|rs| - 1], es);
      |Positions(rs, es)| == |front| + if rs[|rs| - 1].event in es then 1 else 0
  {
    var front, n := rs[..|rs| - 1], |rs| - 1;
    forall i: nat | i < n
      ensures front[i] == rs[i]
    {
    }
    assert Positions(rs, es) == (if rs[n].event in es then Positions(front, es) + {n} else Positions(front, es));
    assert n !in Positions(front, es);
  }

  predicate Counts(r: Record, prepared: bool) {
    if prepared then r.event == ApiPrepared else r.event == ApiResponse || r.event == ApiFailed
  }

  lemma {:induction false} CountLast(rs: seq<Record>, prepared: bool)
    requires rs != []
    ensures Count(rs, prepared) == Count(rs[..|rs| - 1], prepared) + if Counts(rs[|rs| - 1], prepared) then 1 else 0
  {
    if |rs| > 1 {
      CountLast(rs[1..], prepared);
      assert rs[1..][..|rs| - 2] == rs[..|rs| - 1][1..];
    }
  }

  /** As many responses were prepared as were given or failed. */
  lemma {:induction false} CountMeans(rs: seq<Record>)
    ensures Count(rs, true) == |Positions(rs, {ApiPrepared})|
    ensures Count(rs, false) == |Positions(rs, {ApiResponse, ApiFailed})|
  {
    if rs == [] {
      assert Positions(rs, {ApiPrepared}) == {} && Positions(rs, {ApiResponse, ApiFailed}) == {};
    } else {
      CountMeans(rs[..|rs| - 1]);
      CountLast(rs, true);
      CountLast(rs, false);
      PositionsNext(rs, {ApiPrepared});
      PositionsNext(rs, {ApiResponse, ApiFailed});
    }
  }

  // ------------------------------------------------------------ consistency

  /** Records that name the job, the execution or the capability name the same. */
  predicate SameJob(rs: seq<Record>) {
    forall i, j, k :: 0 <= i < |rs| && 0 <= j < |rs| && k in {JobId, ExecutionId, Capability} && k in rs[i].attributes && k in rs[j].attributes ==>
      rs[i].attributes[k] == rs[j].attributes[k]
  }

  lemma AgreeMeans(rs: seq<Record>)
    ensures Agree(rs, JobId) && Agree(rs, ExecutionId) && Agree(rs, Capability) <==> SameJob(rs)
  {
    if SameJob(rs) {
      forall k, i, j | k in {JobId, ExecutionId, Capability} && 0 <= i < |rs| && 0 <= j < |rs| && k in rs[i].attributes && k in rs[j].attributes
        ensures rs[i].attributes[k] == rs[j].attributes[k]
      {
      }
    }
  }

  /** The record, if there is one, moves the job from one state to the other. */
  predicate Moves(r: Option<Record>, from: Word, to: Word) {
    r.Some? ==> Says(r.value, FromState, from) && Says(r.value, ToState, to)
  }

  predicate Asks(r: Option<Record>) {
    r.Some? ==> Says(r.value, ToolClass, StatusTool) && Says(r.value, ToolTarget, Platform)
  }

  predicate Allows(r: Option<Record>) {
    r.Some? ==> Says(r.value, ToolDecision, AllowWord) && Says(r.value, ToolReason, CapabilityGranted) && Says(r.value, Capability, StatusRead)
  }

  predicate Denies(r: Option<Record>) {
    r.Some? ==>
      Says(r.value, ToolDecision, DenyWord) && (Says(r.value, ToolReason, CapabilityNotGranted) || Says(r.value, ToolReason, AuthorizationUnavailable))
  }

  predicate Reports(r: Option<Record>) {
    r.Some? && WorkerOutcome in r.value.attributes ==>
      Says(r.value, WorkerOutcome, StatusAvailable) || Says(r.value, WorkerOutcome, WorkerUnavailable)
      || Says(r.value, WorkerOutcome, WorkerResultInvalid)
  }

  /** The outcome the decision or the worker leads to. */
  function DueOutcome(denied: Option<Record>, finished: Option<Record>): Option<Value> {
    if denied.None? then Get(finished, WorkerOutcome)
    else Some(Say(if Says(denied.value, ToolReason, AuthorizationUnavailable) then AuthorizationUnavailable else CapabilityDeniedWord))
  }

  predicate Carries(r: Option<Record>, due: Option<Value>) {
    Get(r, JobOutcome).Some? ==> Get(r, JobOutcome) == due
  }

  predicate Completes(r: Option<Record>, projected: Option<Record>) {
    r.Some? ==> Says(r.value, JobReason, ExecutionCompleted) && Get(projected, JobOutcome) == Some(Say(StatusAvailable))
  }

  /** A failed job names the reason that goes with the projected outcome. */
  predicate Fails(r: Option<Record>, projected: Option<Record>) {
    r.Some? ==>
      Get(r, JobReason) ==
        match Get(projected, JobOutcome)
        case Some(Say(CapabilityDeniedWord)) => Some(Say(CapabilityDeniedWord))
        case Some(Say(AuthorizationUnavailable)) => Some(Say(AuthorizationUnavailable))
        case Some(Say(WorkerUnavailable)) => Some(Say(WorkerFailed))
        case Some(Say(WorkerResultInvalid)) => Some(Say(WorkerResultInvalid))
        case _ => None
  }

  /** The first record of each stage fits the others. */
  predicate Fitting(rs: seq<Record>) {
    && Moves(First(rs, JobAccepted), Submitted, Accepted) && Moves(First(rs, JobRunning), Accepted, Running)
    && Moves(First(rs, JobCompleted), Running, Completed) && Moves(First(rs, JobFailed), Running, Failed)
    && Asks(First(rs, ToolRequested)) && Allows(First(rs, CapabilityAllowed)) && Denies(First(rs, CapabilityDenied))
    && Reports(First(rs, WorkerFinished))
    && Carries(First(rs, ResultValidated), DueOutcome(First(rs, CapabilityDenied), First(rs, WorkerFinished)))
    && Carries(First(rs, ResultProjected), DueOutcome(First(rs, CapabilityDenied), First(rs, WorkerFinished)))
    && Completes(First(rs, JobCompleted), First(rs, ResultProjected)) && Fails(First(rs, JobFailed), First(rs, ResultProjected))
  }

  lemma StagesMean(accepted: Option<Record>, running: Option<Record>, request: Option<Record>)
    ensures StagesAgree(accepted, running, request) <==> Moves(accepted, Submitted, Accepted) && Moves(running, Accepted, Running) && Asks(request)
  {
  }

  lemma DecisionsMean(allowed: Option<Record>, denied: Option<Record>, finished: Option<Record>)
    ensures DecisionsAgree(allowed, denied, finished) <==> Allows(allowed) && Denies(denied) && Reports(finished)
  {
  }

  lemma OutcomesMean(denied: Option<Record>, finished: Option<Record>, validated: Option<Record>, projected: Option<Record>)
    ensures OutcomesAgree(ExpectedOutcome(denied, finished), Get(validated, JobOutcome), Get(projected, JobOutcome)) <==>
      Carries(validated, DueOutcome(denied, finished)) && Carries(projected, DueOutcome(denied, finished))
  {
    assert ExpectedOutcome(denied, finished) == DueOutcome(denied, finished);
  }

  lemma EndsMean(completed: Option<Record>, failed: Option<Record>, projected: Option<Record>)
    ensures EndsAgree(completed, failed, Get(projected, JobOutcome)) <==>
      && Moves(completed, Running, Completed) && Completes(completed, projected)
      && Moves(failed, Running, Failed) && Fails(failed, projected)
  {
  }

  lemma CoherentMeans(rs: seq<Record>)
    ensures Coherent(StagesOf(rs)) <==> Fitting(rs)
  {
    var s := StagesOf(rs);
    StagesMean(s.accepted, s.running, s.request);
    DecisionsMean(s.allowed, s.denied, s.finished);
    OutcomesMean(s.denied, s.finished, s.validated, s.projected);
    EndsMean(s.completed, s.failed, s.projected);
  }

  // -------------------------------------------------------------- theorems

  predicate AllClean(rs: seq<Record>) {
    forall i :: 0 <= i < |rs| ==> Clean(rs[0].trace, rs[i])
  }

  predicate AllToned(rs: seq<Record>) {
    forall i :: 0 <= i < |rs| ==> RightTone(rs[i])
  }

  predicate OwnSpans(rs: seq<Record>) {
    forall i, j :: 0 <= i < j < |rs| ==> rs[i].span != rs[j].span
  }

  ghost predicate HasShape(rs: seq<Record>) {
    exists stages :: ShapedBy(rs, stages)
  }

  /** As many responses were prepared as were given or failed. */
  predicate Paired(rs: seq<Record>) {
    |Positions(rs, {ApiPrepared})| == |Positions(rs, {ApiResponse, ApiFailed})|
  }

  lemma RecordsMean(rs: seq<Record>)
    ensures RecordsOk(rs) <==> AllClean(rs)
  {
    forall i | 0 <= i < |rs|
      ensures RecordOk(rs[0].trace, rs[i]) <==> Clean(rs[0].trace, rs[i])
    {
      CleanMeans(rs[0].trace, rs[i]);
    }
  }

  lemma TonesMean(rs: seq<Record>)
    ensures (forall i :: 0 <= i < |rs| ==> ToneOk(rs[i])) <==> AllToned(rs)
  {
    forall i | 0 <= i < |rs|
      ensures ToneOk(rs[i]) <==> RightTone(rs[i])
    {
      ToneMeans(rs[i]);
    }
  }

  lemma SomeShape(rs: seq<Record>)
    ensures Shaped(rs, Expected(rs)) <==> HasShape(rs)
  {
    ShapeMeans(rs, Expected(rs));
    if HasShape(rs) {
      var stages :| ShapedBy(rs, stages);
      ShapeMeans(rs, stages);
    }
  }

  lemma PairedMeans(rs: seq<Record>)
    ensures Count(rs, true) == Count(rs, false) <==> Paired(rs)
  {
    CountMeans(rs);
  }

  lemma SemanticMeans(rs: seq<Record>)
    ensures Semantic(rs) <==> SameJob(rs) && Fitting(rs) && AllToned(rs) && Paired(rs)
  {
    AgreeMeans(rs);
    CoherentMeans(rs);
    TonesMean(rs);
    PairedMeans(rs);
  }

  /** A trace is judged complete if and only if its records are clean and of their
      own spans, rooted, shaped by the stages it has to show, about one job, fitting
      and rightly toned, and every prepared response was given or failed. */
  lemma CompleteIff(rs: seq<Record>)
    ensures Complete(rs) <==>
      && rs != [] && AllClean(rs) && OwnSpans(rs) && Rooted(rs) && HasShape(rs)
      && SameJob(rs) && Fitting(rs) && AllToned(rs) && Paired(rs)
  {
    RecordsMean(rs);
    RootMeans(rs);
    SomeShape(rs);
    SemanticMeans(rs);
  }

  /** The first record of an event that occurs says something under each of the
      event's attributes. */
  lemma FirstCarries(rs: seq<Record>, e: Event, k: Key)
    requires AllClean(rs) && Occurs(rs, e) && e in Carriers(k)
    ensures First(rs, e).Some? && First(rs, e).value.event == e && k in First(rs, e).value.attributes
  {
    FirstIndexMeaning(rs, e);
  }

  lemma NotFirst(rs: seq<Record>, e: Event)
    requires !Occurs(rs, e)
    ensures First(rs, e).None?
  {
    FirstIndexMeaning(rs, e);
  }

  /** What the trace says of the job's outcome. */
  function OutcomeIn(rs: seq<Record>): Option<Value> {
    Get(First(rs, ResultProjected), JobOutcome)
  }

  function StagesFor(rs: seq<Record>): seq<Event> {
    if Occurs(rs, CapabilityDenied) then DENIED_STAGES else WorkedStages(if Occurs(rs, JobCompleted) then JobCompleted else JobFailed)
  }

  lemma Shows(rs: seq<Record>, e: Event)
    requires HasShape(rs) && !TurnedAway(rs)
    ensures e in StagesFor(rs) ==> Occurs(rs, e)
    ensures Occurs(rs, e) ==> e in StagesFor(rs) || e in SIDE
  {
    var stages :| ShapedBy(rs, stages);
    assert stages == StagesFor(rs);
    if Occurs(rs, e) {
      var k :| 0 <= k < |rs| && rs[k].event == e;
      assert rs[k].event in stages || rs[k].event in SIDE;
    }
  }

  lemma InDenied(e: Event)
    ensures e in DENIED_STAGES <==>
      e in {Received, JobAccepted, JobRunning, ToolRequested, GateStarted, CapabilityDenied, ResultValidated, ResultProjected, JobFailed}
  {
    var s := DENIED_STAGES;
    assert s[0] in s && s[1] in s && s[2] in s && s[3] in s && s[4] in s && s[5] in s && s[6] in s && s[7] in s && s[8] in s;
  }

  lemma InWorked(end: Event)
    requires end == JobCompleted || end == JobFailed
    ensures var s := WorkedStages(end);
      ResultProjected in s && CapabilityAllowed in s && WorkerFinished in s && end in s && (JobFailed in s <==> end == JobFailed)
  {
    var s := WorkedStages(end);
    assert s[9] in s && s[5] in s && s[7] in s && s[10] in s;
  }

  lemma DeniedShows(rs: seq<Record>, e: Event)
    requires HasShape(rs) && !TurnedAway(rs) && Occurs(rs, CapabilityDenied)
    ensures e in {ResultProjected, JobFailed} ==> Occurs(rs, e)
    ensures e in {WorkerStarted, CapabilityAllowed, JobCompleted} ==> !Occurs(rs, e)
  {
    Shows(rs, e);
    InDenied(e);
  }

  lemma WorkedShows(rs: seq<Record>, e: Event)
    requires HasShape(rs) && !TurnedAway(rs) && e in StagesFor(rs)
    ensures Occurs(rs, e)
  {
    Shows(rs, e);
  }

  lemma WorkedHolds(rs: seq<Record>)
    requires !Occurs(rs, CapabilityDenied)
    ensures ResultProjected in StagesFor(rs) && CapabilityAllowed in StagesFor(rs)
    ensures if Occurs(rs, JobCompleted) then JobFailed !in StagesFor(rs) else JobFailed in StagesFor(rs)
  {
    InWorked(if Occurs(rs, JobCompleted) then JobCompleted else JobFailed);
  }

  lemma WorkedEnds(rs: seq<Record>)
    requires HasShape(rs) && !TurnedAway(rs)
    requires if Occurs(rs, JobCompleted) then JobFailed !in StagesFor(rs) else JobFailed in StagesFor(rs)
    ensures Occurs(rs, JobFailed) <==> !Occurs(rs, JobCompleted)
  {
    Shows(rs, JobFailed);
  }

  lemma DeniedFits(denied: Option<Record>, finished: Option<Record>, projected: Option<Record>, failed: Option<Record>)
    requires denied.Some? && failed.Some? && Get(projected, JobOutcome).Some?
    requires Carries(projected, DueOutcome(denied, finished)) && Fails(failed, projected)
    ensures var unavailable := Get(denied, ToolReason) == Some(Say(AuthorizationUnavailable));
      Get(projected, JobOutcome) == Some(Say(if unavailable then AuthorizationUnavailable else CapabilityDeniedWord))
    ensures Get(failed, JobReason) == Get(projected, JobOutcome)
  {
  }

  lemma WorkedFits(allowed: Option<Record>, finished: Option<Record>, projected: Option<Record>, completed: Option<Record>, failed: Option<Record>)
    requires allowed.Some? && Get(projected, JobOutcome).Some? && (completed.Some? <==> failed.None?)
    requires failed.Some? ==> Get(failed, JobReason).Some?
    requires Allows(allowed) && Carries(projected, DueOutcome(None, finished)) && Completes(completed, projected) && Fails(failed, projected)
    ensures Get(allowed, Capability) == Some(Say(StatusRead)) && Get(finished, WorkerOutcome) == Get(projected, JobOutcome)
    ensures completed.Some? <==> Get(projected, JobOutcome) == Some(Say(StatusAvailable))
  {
  }

  lemma CompleteFits(rs: seq<Record>)
    requires Complete(rs)
    ensures Fitting(rs)
  {
    CompleteIff(rs);
  }

  /** What the first records of the deciding stages say of a denied job. */
  ghost predicate ToldDenied(rs: seq<Record>) {
    var unavailable := Get(First(rs, CapabilityDenied), ToolReason) == Some(Say(AuthorizationUnavailable));
    && OutcomeIn(rs) == Some(Say(if unavailable then AuthorizationUnavailable else CapabilityDeniedWord))
    && Get(First(rs, JobFailed), JobReason) == OutcomeIn(rs)
  }

  lemma DeniedOccurs(rs: seq<Record>)
    requires HasShape(rs) && !TurnedAway(rs) && Occurs(rs, CapabilityDenied)
    ensures !Occurs(rs, WorkerStarted) && !Occurs(rs, CapabilityAllowed) && !Occurs(rs, JobCompleted)
    ensures Occurs(rs, JobFailed) && Occurs(rs, ResultProjected)
  {
    DeniedShows(rs, WorkerStarted);
    DeniedShows(rs, CapabilityAllowed);
    DeniedShows(rs, JobCompleted);
    DeniedShows(rs, JobFailed);
    DeniedShows(rs, ResultProjected);
  }

  predicate Speaks(rs: seq<Record>, e: Event, k: Key) {
    Occurs(rs, e) ==> Get(First(rs, e), k).Some?
  }

  lemma CleanSpeaks(rs: seq<Record>, e: Event, k: Key)
    requires AllClean(rs) && e in Carriers(k)
    ensures Speaks(rs, e, k)
  {
    if Occurs(rs, e) {
      FirstCarries(rs, e, k);
    }
  }

  /** The first records of the stages that decide say what their events carry. */
  predicate FirstsSpeak(rs: seq<Record>) {
    && Speaks(rs, ResultProjected, JobOutcome) && Speaks(rs, CapabilityDenied, ToolReason)
    && Speaks(rs, CapabilityAllowed, Capability) && Speaks(rs, JobFailed, JobReason) && Speaks(rs, JobCompleted, JobReason)
  }

  lemma DecidingCarry()
    ensures ResultProjected in Carriers(JobOutcome) && CapabilityDenied in Carriers(ToolReason)
    ensures CapabilityAllowed in Carriers(Capability) && JobFailed in Carriers(JobReason) && JobCompleted in Carriers(JobReason)
  {
  }

  lemma AllSpeak(rs: seq<Record>)
    requires AllClean(rs)
    ensures FirstsSpeak(rs)
  {
    DecidingCarry();
    CleanSpeaks(rs, ResultProjected, JobOutcome);
    CleanSpeaks(rs, CapabilityDenied, ToolReason);
    CleanSpeaks(rs, CapabilityAllowed, Capability);
    CleanSpeaks(rs, JobFailed, JobReason);
    CleanSpeaks(rs, JobCompleted, JobReason);
  }

  lemma CompleteSpeaks(rs: seq<Record>)
    requires Complete(rs)
    ensures FirstsSpeak(rs)
  {
    CompleteIff(rs);
    AllSpeak(rs);
  }

  lemma DeniedTold(rs: seq<Record>)
    requires Fitting(rs) && FirstsSpeak(rs) && Occurs(rs, CapabilityDenied) && Occurs(rs, ResultProjected) && Occurs(rs, JobFailed)
    ensures ToldDenied(rs)
  {
    DeniedFits(First(rs, CapabilityDenied), First(rs, WorkerFinished), First(rs, ResultProjected), First(rs, JobFailed));
  }

  /** Which stages a denied trace shows, and which it does not. */
  predicate ShowsDenied(rs: seq<Record>) {
    && !Occurs(rs, WorkerStarted) && !Occurs(rs, CapabilityAllowed) && !Occurs(rs, JobCompleted)
    && Occurs(rs, CapabilityDenied) && Occurs(rs, JobFailed) && Occurs(rs, ResultProjected)
  }

  lemma CompleteDenied(rs: seq<Record>)
    requires Complete(rs) && !TurnedAway(rs) && Occurs(rs, CapabilityDenied)
    ensures ShowsDenied(rs)
  {
    CompleteIff(rs);
    DeniedOccurs(rs);
  }

  /** A complete trace whose capability was denied: no worker, no completion, and
      the job failed for the reason of the decision. */
  lemma DeniedStory(rs: seq<Record>)
    requires Complete(rs) && !TurnedAway(rs) && Occurs(rs, CapabilityDenied)
    ensures ShowsDenied(rs) && ToldDenied(rs)
  {
    CompleteDenied(rs);
    CompleteFits(rs);
    CompleteSpeaks(rs);
    DeniedTold(rs);
  }

  /** And of one whose worker ran: the capability was the one that is implemented,
      the worker's word is the job's outcome, and the job completed exactly when
      that word was good. */
  ghost predicate ToldWorked(rs: seq<Record>) {
    && Get(First(rs, CapabilityAllowed), Capability) == Some(Say(StatusRead))
    && OutcomeIn(rs).Some? && Get(First(rs, WorkerFinished), WorkerOutcome) == OutcomeIn(rs)
    && (First(rs, JobCompleted).Some? <==> OutcomeIn(rs) == Some(Say(StatusAvailable)))
    && (First(rs, JobFailed).Some? <==> OutcomeIn(rs) != Some(Say(StatusAvailable)))
  }

  lemma WorkedOccurs(rs: seq<Record>)
    requires HasShape(rs) && !TurnedAway(rs) && !Occurs(rs, CapabilityDenied)
    ensures Occurs(rs, ResultProjected) && Occurs(rs, CapabilityAllowed) && (Occurs(rs, JobFailed) <==> !Occurs(rs, JobCompleted))
  {
    WorkedHolds(rs);
    WorkedShows(rs, ResultProjected);
    WorkedShows(rs, CapabilityAllowed);
    WorkedEnds(rs);
  }

  lemma WorkedTold(rs: seq<Record>)
    requires Fitting(rs) && FirstsSpeak(rs) && !Occurs(rs, CapabilityDenied)
    requires Occurs(rs, ResultProjected) && Occurs(rs, CapabilityAllowed) && (Occurs(rs, JobFailed) <==> !Occurs(rs, JobCompleted))
    ensures ToldWorked(rs)
  {
    NotFirst(rs, CapabilityDenied);
    if Occurs(rs, JobCompleted) {
      NotFirst(rs, JobFailed);
    } else {
      NotFirst(rs, JobCompleted);
    }
    WorkedFits(First(rs, CapabilityAllowed), First(rs, WorkerFinished), First(rs, ResultProjected), First(rs, JobCompleted), First(rs, JobFailed));
  }

  predicate ShowsWorked(rs: seq<Record>) {
    Occurs(rs, ResultProjected) && Occurs(rs, CapabilityAllowed) && (Occurs(rs, JobFailed) <==> !Occurs(rs, JobCompleted))
  }

  lemma CompleteWorked(rs: seq<Record>)
    requires Complete(rs) && !TurnedAway(rs) && !Occurs(rs, CapabilityDenied)
    ensures ShowsWorked(rs)
  {
    CompleteIff(rs);
    WorkedOccurs(rs);
  }

  lemma WorkedStory(rs: seq<Record>)
    requires Complete(rs) && !TurnedAway(rs) && !Occurs(rs, CapabilityDenied)
    ensures ShowsWorked(rs) && ToldWorked(rs)
  {
    CompleteWorked(rs);
    CompleteFits(rs);
    CompleteSpeaks(rs);
    WorkedTold(rs);
  }
}
