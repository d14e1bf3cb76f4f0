// Relay's job store: idempotent claims, the job lifecycle, the gateway decision
// and the worker and model claims that guard once-only invocation.

module RelayStore {
  import opened Common
  import R = RecentWork

  // --------------------------------------------------------------- records

  datatype JobState = Submitted | Accepted | Running | Completed | Failed

  predicate Terminal(s: JobState) { s == Completed || s == Failed }

  datatype Binding = Binding(worker: Id, department: Id, role: Id)

  datatype Execution = Execution(capability: Id, parameters: Id, binding: Binding)

  datatype Envelope = Envelope(
    job: Id, environment: Id, trace: Id, span: Id, subject: Id, department: Id, role: Id,
    jobType: Id, capability: Id, execution: Execution, key: Id, fingerprint: Id, createdAt: Time)

  predicate ValidEnvelope(e: Envelope) { e.execution.capability == e.capability }

  datatype Reason =
    | JobAccepted | ExecutionStarted | ExecutionCompleted
    | CapabilityDenied | AuthorizationUnavailable | WorkerFailed | WorkerResultInvalid

  datatype Transition = Transition(
    id: Id, environment: Id, trace: Id, span: Id, job: Id, execution: Option<Id>,
    from: JobState, to: JobState, reason: Reason)

  /** The lifecycle table: SUBMITTED, ACCEPTED, RUNNING, then one terminal state. */
  predicate Legal(from: JobState, to: JobState, reason: Reason) {
    || (from == Submitted && to == Accepted && reason == JobAccepted)
    || (from == Accepted && to == Running && reason == ExecutionStarted)
    || (from == Running && to == Completed && reason == ExecutionCompleted)
    || (from == Running && to == Failed
        && (reason == CapabilityDenied || reason == AuthorizationUnavailable || reason == WorkerFailed || reason == WorkerResultInvalid))
  }

  predicate ValidTransition(t: Transition) {
    && Legal(t.from, t.to, t.reason)
    && (t.execution.Some? <==> t.from == Running || t.to == Running)
  }

  datatype Request = Request(
    id: Id, environment: Id, trace: Id, span: Id, job: Id, execution: Id,
    capability: Id, parameters: Id, binding: Binding)

  datatype Verdict = Allow | Deny

  datatype DecisionReason = CapabilityGranted | CapabilityNotGranted | GrantUnavailable

  datatype Decision = Decision(
    id: Id, environment: Id, trace: Id, span: Id, request: Id, job: Id, execution: Id,
    capability: Id, parameters: Id, binding: Binding,
    verdict: Verdict, reason: DecisionReason, policy: Option<Id>)

  predicate ValidDecision(d: Decision) {
    && (d.verdict == Allow <==> d.reason == CapabilityGranted)
    && (d.verdict == Allow ==> d.policy.Some?)
  }

  datatype Invocation = Invocation(
    id: Id, environment: Id, trace: Id, span: Id, job: Id, execution: Id,
    jobType: Id, capability: Id, binding: Binding, context: Id)

  datatype Outcome = StatusAvailable | DeniedOutcome | UnavailableOutcome | WorkerUnavailable | WorkerInvalid

  datatype Provenance = ByWorker(source: Option<Id>) | ByModel(invocation: Id, placed: bool)

  datatype Result = Result(
    id: Id, environment: Id, trace: Id, span: Id, job: Id, execution: Id,
    state: JobState, outcome: Outcome, provenance: Provenance)

  predicate DenialOutcome(o: Outcome) { o == DeniedOutcome || o == UnavailableOutcome }

  predicate ValidResult(r: Result) {
    && Terminal(r.state)
    && (r.state == Completed <==> r.outcome == StatusAvailable)
    && match r.provenance
       case ByModel(_, placed) => !DenialOutcome(r.outcome) && (r.state == Completed ==> placed)
       case ByWorker(source) => DenialOutcome(r.outcome) <==> source.None?
  }

  datatype Job = Job(
    envelope: Envelope, state: JobState, execution: Option<Id>, transitions: seq<Transition>,
    request: Option<Request>, decision: Option<Decision>, invocationClaimed: bool, contextClaimed: bool,
    invocation: Option<Invocation>, modelClaimed: bool, result: Option<Result>, revision: nat)

  function NewJob(e: Envelope): Job {
    Job(e, Submitted, None, [], None, None, false, false, None, false, None, 1)
  }

  /** `failClaim` and `failCommit` are the simulator's injected faults. */
  datatype Store = Store(jobs: map<Id, Job>, namespaces: map<Id, Id>, failClaim: bool, failCommit: bool)

  function Empty(failClaim: bool, failCommit: bool): Store {
    Store(map[], map[], failClaim, failCommit)
  }

  datatype Disposition =
    | Created | Existing | Conflict | Rejected | Applied | Recorded
    | InvokeNow | PrepareNow | AlreadyClaimed | Released | Committed

  // --------------------------------------------------------------- matching

  predicate SameBinding(r: Request, d: Decision) {
    && r.id == d.request && r.job == d.job && r.execution == d.execution && r.capability == d.capability
    && r.parameters == d.parameters && r.environment == d.environment && r.binding == d.binding
  }

  predicate MatchesEnvelope(j: Job, r: Request) {
    && r.job == j.envelope.job && Some(r.execution) == j.execution
    && r.environment == j.envelope.environment && r.trace == j.envelope.trace
    && r.capability == j.envelope.execution.capability && r.parameters == j.envelope.execution.parameters
    && r.binding == j.envelope.execution.binding
  }

  predicate MatchesModelEnvelope(j: Job, v: Invocation) {
    && v.job == j.envelope.job && Some(v.execution) == j.execution
    && v.environment == j.envelope.environment && v.trace == j.envelope.trace
    && v.jobType == j.envelope.jobType && v.capability == j.envelope.execution.capability
    && v.binding == j.envelope.execution.binding
  }

  // ------------------------------------------------------- what calls mean

  datatype Call =
    | Claim(namespace: Id, fingerprint: Id, candidate: Envelope)
    | Apply(job: Id, transition: Transition)
    | Record(job: Id, request: Request, decision: Decision)
    | ClaimWorker(job: Id, request: Request, decision: Decision)
    | PrepareContext(job: Id)
    | ReleaseContext(job: Id, expected: Option<nat>)
    | ClaimModel(job: Id, invocation: Invocation)
    | Commit(job: Id, transition: Transition, result: Result)

  predicate Creates(s: Store, c: Call) {
    c.Claim? && ValidEnvelope(c.candidate) && c.candidate.fingerprint == c.fingerprint && c.namespace !in s.namespaces
  }

  function ClaimIn(s: Store, c: Call): (Store, Disposition)
    requires c.Claim?
  {
    if !ValidEnvelope(c.candidate) || c.candidate.fingerprint != c.fingerprint then (s, Rejected)
    else if c.namespace in s.namespaces && s.namespaces[c.namespace] in s.jobs then
      if s.jobs[s.namespaces[c.namespace]].envelope.fingerprint != c.fingerprint then (s, Conflict) else (s, Existing)
    else if c.namespace in s.namespaces then (s, Rejected)
    else (s.(namespaces := s.namespaces[c.namespace := c.candidate.job],
             jobs := s.jobs[c.candidate.job := NewJob(c.candidate)]), Created)
  }

  function ApplyTo(j: Job, t: Transition): (Job, Disposition) {
    if !ValidTransition(t) || t.job != j.envelope.job || t.trace != j.envelope.trace
       || t.environment != j.envelope.environment || t.from != j.state || Terminal(j.state) then (j, Rejected)
    else
      var j1 := if t.to == Running then j.(execution := t.execution) else j;
      if j1.execution.Some? && t.execution != j1.execution then (j1, Rejected)
      else (j1.(transitions := j.transitions + [t], state := t.to, revision := j.revision + 1), Applied)
  }

  function RecordTo(j: Job, r: Request, d: Decision): (Job, Disposition) {
    if j.state != Running || j.decision.Some? || j.contextClaimed || j.invocation.Some?
       || !ValidDecision(d) || !MatchesEnvelope(j, r) || !SameBinding(r, d) then (j, Rejected)
    else (j.(request := Some(r), decision := Some(d), revision := j.revision + 1), Recorded)
  }

  function ClaimWorkerTo(j: Job, r: Request, d: Decision, fail: bool): (Job, Disposition) {
    if fail || j.state != Running || j.invocation.Some? || j.decision.None? || j.decision.value.verdict != Allow
       || j.request != Some(r) || j.decision != Some(d) || !SameBinding(r, d) then (j, Rejected)
    else if j.invocationClaimed then (j, AlreadyClaimed)
    else (j.(invocationClaimed := true, revision := j.revision + 1), InvokeNow)
  }

  function PrepareTo(j: Job): (Job, Disposition) {
    if j.state != Accepted || j.decision.Some? || j.invocationClaimed || j.invocation.Some? then (j, Rejected)
    else if j.contextClaimed then (j, AlreadyClaimed)
    else (j.(contextClaimed := true, revision := j.revision + 1), PrepareNow)
  }

  function ReleaseTo(j: Job, expected: Option<nat>): (Job, Disposition) {
    if j.state != Accepted || !j.contextClaimed || j.invocation.Some? || j.decision.Some?
       || (expected.Some? && expected.value != j.revision) then (j, Rejected)
    else (j.(contextClaimed := false, revision := j.revision + 1), Released)
  }

  function ClaimModelTo(j: Job, v: Invocation, fail: bool): (Job, Disposition) {
    if fail || j.state != Running || j.decision.Some? || j.invocationClaimed || !MatchesModelEnvelope(j, v) then (j, Rejected)
    else if j.invocation.Some? then (j, if j.invocation.value == v then AlreadyClaimed else Rejected)
    else (j.(invocation := Some(v), modelClaimed := true, revision := j.revision + 1), InvokeNow)
  }

  predicate Committable(j: Job, t: Transition, r: Result) {
    var workerPath := j.decision.Some? && j.invocation.None?;
    var modelPath := j.decision.None? && j.invocation.Some?;
    && j.state == Running && ValidTransition(t) && ValidResult(r)
    && t.job == j.envelope.job && r.job == j.envelope.job
    && t.execution == j.execution && Some(r.execution) == j.execution
    && t.to == r.state && t.trace == j.envelope.trace && r.trace == j.envelope.trace
    && (workerPath || modelPath)
    && (workerPath ==> r.provenance.ByWorker?)
    && (modelPath ==> r.provenance.ByModel? && j.modelClaimed && r.provenance.invocation == j.invocation.value.id)
    && (workerPath && j.decision.value.verdict == Allow ==> j.invocationClaimed && !DenialOutcome(r.outcome))
    && (workerPath && j.decision.value.verdict == Deny ==> !j.invocationClaimed && r.state == Failed && DenialOutcome(r.outcome))
  }

  function CommitTo(j: Job, t: Transition, r: Result, fail: bool): (Job, Disposition) {
    if fail || !Committable(j, t, r) then (j, Rejected)
    else (j.(transitions := j.transitions + [t], result := Some(r), state := t.to, revision := j.revision + 1), Committed)
  }

  /** Every call but the claim works on one existing job. */
  function OnJob(j: Job, c: Call, s: Store): (Job, Disposition)
    requires !c.Claim?
  {
    match c
    case Apply(_, t) => ApplyTo(j, t)
    case Record(_, r, d) => RecordTo(j, r, d)
    case ClaimWorker(_, r, d) => ClaimWorkerTo(j, r, d, s.failClaim)
    case PrepareContext(_) => PrepareTo(j)
    case ReleaseContext(_, expected) => ReleaseTo(j, expected)
    case ClaimModel(_, v) => ClaimModelTo(j, v, s.failClaim)
    case Commit(_, t, r) => CommitTo(j, t, r, s.failCommit)
  }

  function Step(s: Store, c: Call): (Store, Disposition) {
    if c.Claim? then ClaimIn(s, c)
    else if c.job !in s.jobs then (s, Rejected)
    else
      var (j, d) := OnJob(s.jobs[c.job], c, s);
      (s.(jobs := s.jobs[c.job := j]), d)
  }

  function Run(s: Store, calls: seq<Call>): Store
    decreases |calls|
  {
    if calls == [] then s else Step(Run(s, calls[..|calls| - 1]), calls[|calls| - 1]).0
  }

  // ------------------------------------------------------------- invocation

  predicate Invokes(s: Store, c: Call, j: Id) {
    !c.Claim? && c.job == j && Step(s, c).1 == InvokeNow
  }

  /** How often INVOKE_NOW was answered for job `j`, worker and model together. */
  function Invocations(s: Store, calls: seq<Call>, j: Id): nat
    decreases |calls|
  {
    if calls == [] then 0
    else
      var before := calls[..|calls| - 1];
      Invocations(s, before, j) + if Invokes(Run(s, before), calls[|calls| - 1], j) then 1 else 0
  }

  /** A creating claim that takes an id already in the store. */
  predicate Reuses(s: Store, c: Call, j: Id) {
    Creates(s, c) && c.candidate.job == j && j in s.jobs
  }

  ghost predicate NeverReused(s: Store, calls: seq<Call>, j: Id)
    decreases |calls|
  {
    calls == [] ||
    (var before := calls[..|calls| - 1];
     NeverReused(s, before, j) && !Reuses(Run(s, before), calls[|calls| - 1], j))
  }

  function Claims(j: Job): nat {
    (if j.invocationClaimed then 1 else 0) + (if j.modelClaimed then 1 else 0)
  }

  /** The exclusivity invariant of one job. */
  predicate JobOk(id: Id, j: Job) {
    && j.envelope.job == id
    && (j.invocationClaimed ==> j.decision.Some? && j.decision.value.verdict == Allow)
    && (j.modelClaimed <==> j.invocation.Some?)
    && !(j.decision.Some? && j.invocation.Some?)
    && (j.execution.Some? <==> j.state == Running || Terminal(j.state))
    && (j.decision.Some? || j.invocation.Some? ==> j.execution.Some?)
    && (j.decision.Some? <==> j.request.Some?)
  }

  lemma OnJobKeeps(id: Id, j: Job, c: Call, s: Store)
    requires JobOk(id, j) && !c.Claim?
    ensures var (j', d) := OnJob(j, c, s);
      && JobOk(id, j')
      && Claims(j') == Claims(j) + (if d == InvokeNow then 1 else 0)
      && Claims(j') <= 1
      && j'.envelope == j.envelope
      && (j.decision.Some? ==> j'.decision == j.decision)
      && (j.invocation.Some? ==> j'.invocation == j.invocation)
      && (d == InvokeNow ==> j'.decision.None? || j'.decision.value.verdict == Allow)
      && (j' == j || (j'.revision == j.revision + 1 && d != Rejected && d != AlreadyClaimed))
      && (Terminal(j.state) ==> j' == j)
  {
  }

  lemma {:induction false} OnceRun(s: Store, calls: seq<Call>, j: Id)
    requires s.jobs == map[] && NeverReused(s, calls, j)
    ensures var s' := Run(s, calls);
      if j in s'.jobs then JobOk(j, s'.jobs[j]) && Invocations(s, calls, j) == Claims(s'.jobs[j]) && Claims(s'.jobs[j]) <= 1
      else Invocations(s, calls, j) == 0
    decreases |calls|
  {
    if calls != [] {
      var before, c := calls[..|calls| - 1], calls[|calls| - 1];
      OnceRun(s, before, j);
      var m := Run(s, before);
      if !c.Claim? && c.job == j && j in m.jobs {
        OnJobKeeps(j, m.jobs[j], c, m);
      }
    }
  }

  /** For every job and every interleaving of store calls, as long as its id is
      not taken again: INVOKE_NOW at most once over both paths, and a gateway
      decision and a model invocation never coexist. */
  lemma InvokedAtMostOnce(failClaim: bool, failCommit: bool, calls: seq<Call>, j: Id)
    requires NeverReused(Empty(failClaim, failCommit), calls, j)
    ensures Invocations(Empty(failClaim, failCommit), calls, j) <= 1
    ensures var s := Run(Empty(failClaim, failCommit), calls);
      j in s.jobs ==> !(s.jobs[j].decision.Some? && s.jobs[j].invocation.Some?)
  {
    OnceRun(Empty(failClaim, failCommit), calls, j);
  }

  lemma {:induction false} RunJoins(s: Store, a: seq<Call>, b: seq<Call>)
    ensures Run(s, a + b) == Run(Run(s, a), b)
    decreases |b|
  {
    if b == [] {
      assert a + b == a;
    } else {
      RunJoins(s, a, b[..|b| - 1]);
      assert (a + b)[..|a + b| - 1] == a + b[..|b| - 1];
    }
  }

  /** A DENY is final: the decision stays, and nothing is invoked for the job. */
  lemma {:induction false} DenyIsFinal(failClaim: bool, failCommit: bool, calls: seq<Call>, more: seq<Call>, j: Id)
    requires NeverReused(Empty(failClaim, failCommit), calls + more, j)
    requires var s := Run(Empty(failClaim, failCommit), calls);
      j in s.jobs && s.jobs[j].decision.Some? && s.jobs[j].decision.value.verdict == Deny
    ensures Invocations(Empty(failClaim, failCommit), calls + more, j) == 0
    ensures var s := Run(Empty(failClaim, failCommit), calls + more);
      j in s.jobs && s.jobs[j].decision == Run(Empty(failClaim, failCommit), calls).jobs[j].decision
    decreases |more|
  {
    var e := Empty(failClaim, failCommit);
    if more == [] {
      assert calls + more == calls;
    } else {
      var front := calls + more[..|more| - 1];
      assert (calls + more)[..|calls + more| - 1] == front;
      DenyIsFinal(failClaim, failCommit, calls, more[..|more| - 1], j);
      OnceRun(e, front, j);
      var s, c := Run(e, front), (calls + more)[|calls + more| - 1];
      if !c.Claim? && c.job == j {
        OnJobKeeps(j, s.jobs[j], c, s);
      }
    }
    OnceRun(e, calls + more, j);
  }

  /** Once terminal, a job is the same record for the rest of the run. */
  lemma {:induction false} TerminalStays(s: Store, calls: seq<Call>, more: seq<Call>, j: Id)
    requires s.jobs == map[] && NeverReused(s, calls + more, j)
    requires var m := Run(s, calls); j in m.jobs && Terminal(m.jobs[j].state)
    ensures var m := Run(s, calls + more); j in m.jobs && m.jobs[j] == Run(s, calls).jobs[j]
    decreases |more|
  {
    if more == [] {
      assert calls + more == calls;
    } else {
      var front, c := calls + more[..|more| - 1], more[|more| - 1];
      assert (calls + more)[..|calls + more| - 1] == front;
      TerminalStays(s, calls, more[..|more| - 1], j);
      OnceRun(s, front, j);
      var m := Run(s, front);
      if !c.Claim? && c.job == j {
        OnJobKeeps(j, m.jobs[j], c, m);
      }
    }
  }

  /** The call found job `j` and was not refused. */
  predicate ChangesJob(s: Store, c: Call, j: Id) {
    !c.Claim? && c.job == j && Step(s, c).1 != Rejected && Step(s, c).1 != AlreadyClaimed
  }

  function Changes(s: Store, calls: seq<Call>, j: Id): nat
    decreases |calls|
  {
    if calls == [] then 0
    else
      var before := calls[..|calls| - 1];
      Changes(s, before, j) + if ChangesJob(Run(s, before), calls[|calls| - 1], j) then 1 else 0
  }

  lemma OnJobCounts(id: Id, j: Job, c: Call, s: Store)
    requires JobOk(id, j) && !c.Claim?
    ensures var (j', d) := OnJob(j, c, s);
      j'.revision == j.revision + (if d != Rejected && d != AlreadyClaimed then 1 else 0)
  {
  }

  /** The revision counts the calls that succeeded, one each. */
  lemma {:induction false} RevisionRun(s: Store, calls: seq<Call>, j: Id)
    requires s.jobs == map[] && NeverReused(s, calls, j)
    ensures var m := Run(s, calls);
      if j in m.jobs then m.jobs[j].revision == 1 + Changes(s, calls, j) else Changes(s, calls, j) == 0
    decreases |calls|
  {
    if calls != [] {
      var before, c := calls[..|calls| - 1], calls[|calls| - 1];
      RevisionRun(s, before, j);
      OnceRun(s, before, j);
      var m := Run(s, before);
      if !c.Claim? && c.job == j && j in m.jobs {
        OnJobCounts(j, m.jobs[j], c, m);
      }
    }
  }

  // ------------------------------------------- exactly when it would fail

  /** The calls that take a job just created from `e` to a worker invocation. */
  function Replay(e: Envelope): seq<Call> {
    var accept := Transition(0, e.environment, e.trace, e.span, e.job, None, Submitted, Accepted, JobAccepted);
    var run := Transition(0, e.environment, e.trace, e.span, e.job, Some(0), Accepted, Running, ExecutionStarted);
    var request := Request(0, e.environment, e.trace, e.span, e.job, 0, e.execution.capability, e.execution.parameters, e.execution.binding);
    var decision := Decision(0, e.environment, e.trace, e.span, 0, e.job, 0, e.execution.capability, e.execution.parameters,
                             e.execution.binding, Allow, CapabilityGranted, Some(0));
    [Apply(e.job, accept), Apply(e.job, run), Record(e.job, request, decision), ClaimWorker(e.job, request, decision)]
  }

  lemma RunExtends(s: Store, calls: seq<Call>, c: Call)
    ensures Run(s, calls + [c]) == Step(Run(s, calls), c).0
  {
    assert (calls + [c])[..|calls|] == calls;
  }

  /** Running, with neither path taken. */
  predicate Untaken(s: Store, e: Envelope) {
    && !s.failClaim && e.job in s.jobs && s.jobs[e.job].envelope == e && s.jobs[e.job].state == Running
    && s.jobs[e.job].execution == Some(0) && s.jobs[e.job].decision.None? && !s.jobs[e.job].contextClaimed
    && s.jobs[e.job].invocation.None? && !s.jobs[e.job].invocationClaimed
  }

  lemma ReplayStarts(s: Store, e: Envelope)
    requires e.job in s.jobs && s.jobs[e.job] == NewJob(e) && !s.failClaim
    ensures Untaken(Run(s, Replay(e)[..2]), e)
  {
    var calls := Replay(e);
    RunExtends(s, [], calls[0]);
    RunExtends(s, [calls[0]], calls[1]);
    assert [] + [calls[0]] == [calls[0]] && [calls[0]] + [calls[1]] == calls[..2];
    var s1 := Step(s, calls[0]).0;
    assert s1.jobs[e.job].state == Accepted;
  }

  lemma UntakenInvokes(s: Store, e: Envelope)
    requires Untaken(s, e)
    ensures Invokes(Step(s, Replay(e)[2]).0, Replay(e)[3], e.job)
  {
    var record := Replay(e)[2];
    assert RecordTo(s.jobs[e.job], record.request, record.decision).0.decision == Some(record.decision);
  }

  lemma ReplayRuns(s: Store, e: Envelope)
    requires e.job in s.jobs && s.jobs[e.job] == NewJob(e) && !s.failClaim
    ensures Invokes(Run(s, Replay(e)[..3]), Replay(e)[3], e.job)
  {
    var calls := Replay(e);
    ReplayStarts(s, e);
    RunExtends(s, calls[..2], calls[2]);
    assert calls[..2] + [calls[2]] == calls[..3];
    UntakenInvokes(Run(s, calls[..2]), e);
  }

  lemma {:induction false} InvocationsJoin(s: Store, a: seq<Call>, b: seq<Call>, j: Id)
    ensures Invocations(s, a + b, j) == Invocations(s, a, j) + Invocations(Run(s, a), b, j)
    decreases |b|
  {
    if b == [] {
      assert a + b == a;
    } else {
      InvocationsJoin(s, a, b[..|b| - 1], j);
      RunJoins(s, a, b[..|b| - 1]);
      assert (a + b)[..|a + b| - 1] == a + b[..|b| - 1];
    }
  }

  /** The store does not check that a claimed job id is unused, and that is the
      exact gap: after a run in which `j` was invoked, the next call leaves
      every future that never reuses `j` with a single invocation if and only
      if that call does not itself reuse `j`. */
  lemma OnceIffNotReused(calls: seq<Call>, c: Call, j: Id)
    requires var e := Empty(false, false); NeverReused(e, calls, j) && Invocations(e, calls, j) == 1
    ensures var e := Empty(false, false);
      (forall more :: NeverReused(Step(Run(e, calls), c).0, more, j) ==> Invocations(e, calls + [c] + more, j) <= 1)
        <==> !Reuses(Run(e, calls), c, j)
  {
    var e := Empty(false, false);
    var s := Run(e, calls);
    if Reuses(s, c, j) {
      var s1 := Step(s, c).0;
      assert Run(e, calls + [c]) == s1 by { assert (calls + [c])[..|calls|] == calls; }
      var more := Replay(c.candidate);
      RunFlags(e, calls);
      ReplayRuns(s1, c.candidate);
      assert more[..3] == more[..|more| - 1];
      NonClaimsNeverReuse(s1, more, j);
      InvocationsJoin(e, calls + [c], more, j);
      InvocationsJoin(e, calls, [c], j);
      assert Invocations(e, calls + [c] + more, j) >= 2;
    } else {
      forall more | NeverReused(Step(s, c).0, more, j)
        ensures Invocations(e, calls + [c] + more, j) <= 1
      {
        assert (calls + [c])[..|calls|] == calls;
        NeverReusedJoins(e, calls + [c], more, j);
        OnceRun(e, calls + [c] + more, j);
      }
    }
  }

  lemma {:induction false} RunFlags(s: Store, calls: seq<Call>)
    ensures Run(s, calls).failClaim == s.failClaim && Run(s, calls).failCommit == s.failCommit
    decreases |calls|
  {
    if calls != [] {
      RunFlags(s, calls[..|calls| - 1]);
    }
  }

  lemma {:induction false} NonClaimsNeverReuse(s: Store, calls: seq<Call>, j: Id)
    requires forall k :: 0 <= k < |calls| ==> !calls[k].Claim?
    ensures NeverReused(s, calls, j)
    decreases |calls|
  {
    if calls != [] {
      NonClaimsNeverReuse(s, calls[..|calls| - 1], j);
    }
  }

  lemma {:induction false} NeverReusedJoins(s: Store, a: seq<Call>, b: seq<Call>, j: Id)
    requires NeverReused(s, a, j) && NeverReused(Run(s, a), b, j)
    ensures NeverReused(s, a + b, j)
    decreases |b|
  {
    if b == [] {
      assert a + b == a;
    } else {
      NeverReusedJoins(s, a, b[..|b| - 1], j);
      RunJoins(s, a, b[..|b| - 1]);
      assert (a + b)[..|a + b| - 1] == a + b[..|b| - 1];
    }
  }

  // --------------------------------------------------------- the adapter

  function StateCode(s: JobState): Id {
    match s case Submitted => 0 case Accepted => 1 case Running => 2 case Completed => 3 case Failed => 4
  }

  function ReasonCode(r: Reason): Id {
    match r
    case JobAccepted => 1 case ExecutionStarted => 2 case ExecutionCompleted => 3 case CapabilityDenied => 4
    case AuthorizationUnavailable => 5 case WorkerFailed => 6 case WorkerResultInvalid => 7
  }

  /** What the newest-first projection shows of a job: the reason code of its
      last transition, or 0 for a job that was only submitted. */
  function Summary(j: Job): R.Item {
    R.Item(j.envelope.job, StateCode(j.state), j.envelope.createdAt,
           if j.transitions == [] then 0 else ReasonCode(j.transitions[|j.transitions| - 1].reason))
  }

  class SimulatorRelayStore {
    var jobs: map<Id, Job>
    var namespaces: map<Id, Id>
    /** Job ids in insertion order. */
    var order: seq<Id>
    const failClaim: bool
    const failCommit: bool

    ghost predicate Valid()
      reads this
    {
      && (forall id :: id in jobs ==> jobs[id].envelope.job == id)
      && (forall n :: n in namespaces ==> namespaces[n] in jobs)
      && (forall id :: id in order <==> id in jobs)
      && (forall i, k :: 0 <= i < k < |order| ==> order[i] != order[k])
    }

    function Contents(): Store
      reads this
    {
      Store(jobs, namespaces, failClaim, failCommit)
    }

    constructor (failInvocationClaim: bool, failTerminalCommit: bool)
      ensures Valid() && Contents() == Empty(failInvocationClaim, failTerminalCommit)
    {
      jobs, namespaces, order := map[], map[], [];
      failClaim, failCommit := failInvocationClaim, failTerminalCommit;
    }

    method ClaimOrReturnExisting(namespace: Id, fingerprint: Id, candidate: Envelope) returns (d: Disposition)
      requires Valid()
      modifies this`jobs, this`namespaces, this`order
      ensures Valid() && (Contents(), d) == Step(old(Contents()), Claim(namespace, fingerprint, candidate))
    {
      if !ValidEnvelope(candidate) || candidate.fingerprint != fingerprint {
        return Rejected;
      }
      if namespace in namespaces {
        var existing := jobs[namespaces[namespace]];
        if existing.envelope.fingerprint != fingerprint {
          return Conflict;
        }
        return Existing;
      }
      if candidate.job !in jobs {
        order := order + [candidate.job];
      }
      namespaces := namespaces[namespace := candidate.job];
      jobs := jobs[candidate.job := NewJob(candidate)];
      return Created;
    }

    method ApplyTransition(job: Id, transition: Transition) returns (d: Disposition)
      requires Valid()
      modifies this`jobs
      ensures Valid() && (Contents(), d) == Step(old(Contents()), Apply(job, transition))
    {
      if job !in jobs {
        return Rejected;
      }
      var entry := jobs[job];
      assert jobs == jobs[job := entry];
      if !ValidTransition(transition) || transition.job != job || transition.trace != entry.envelope.trace
         || transition.environment != entry.envelope.environment || transition.from != entry.state || Terminal(entry.state) {
        return Rejected;
      }
      if transition.to == Running {
        entry := entry.(execution := transition.execution);
        jobs := jobs[job := entry];
      }
      assert jobs == old(jobs)[job := entry];
      if entry.execution.Some? && transition.execution != entry.execution {
        return Rejected;
      }
      entry := entry.(transitions := entry.transitions + [transition], state := transition.to, revision := entry.revision + 1);
      assert ApplyTo(old(jobs[job]), transition) == (entry, Applied);
      jobs := jobs[job := entry];
      assert jobs == old(jobs)[job := entry];
      return Applied;
    }

    method RecordGatewayDecision(job: Id, request: Request, decision: Decision) returns (d: Disposition)
      requires Valid()
      modifies this`jobs
      ensures Valid() && (Contents(), d) == Step(old(Contents()), Record(job, request, decision))
    {
      if job !in jobs {
        return Rejected;
      }
      var entry := jobs[job];
      assert jobs == jobs[job := entry];
      if entry.state != Running || entry.decision.Some? || entry.contextClaimed || entry.invocation.Some?
         || !ValidDecision(decision) || !MatchesEnvelope(entry, request) || !SameBinding(request, decision) {
        return Rejected;
      }
      entry := entry.(request := Some(request), decision := Some(decision));
      entry := entry.(revision := entry.revision + 1);
      jobs := jobs[job := entry];
      return Recorded;
    }

    method ClaimWorkerInvocation(job: Id, request: Request, decision: Decision) returns (d: Disposition)
      requires Valid()
      modifies this`jobs
      ensures Valid() && (Contents(), d) == Step(old(Contents()), ClaimWorker(job, request, decision))
    {
      if job !in jobs {
        return Rejected;
      }
      var entry := jobs[job];
      assert jobs == jobs[job := entry];
      if failClaim || entry.state != Running || entry.invocation.Some?
         || entry.decision.None? || entry.decision.value.verdict != Allow || !SameBinding(request, decision)
         || entry.request != Some(request) || entry.decision != Some(decision) {
        return Rejected;
      }
      if entry.invocationClaimed {
        return AlreadyClaimed;
      }
      jobs := jobs[job := entry.(invocationClaimed := true, revision := entry.revision + 1)];
      return InvokeNow;
    }

    method ClaimModelContextPreparation(job: Id) returns (d: Disposition)
      requires Valid()
      modifies this`jobs
      ensures Valid() && (Contents(), d) == Step(old(Contents()), PrepareContext(job))
    {
      if job !in jobs {
        return Rejected;
      }
      var entry := jobs[job];
      assert jobs == jobs[job := entry];
      if entry.state != Accepted || entry.decision.Some? || entry.invocationClaimed || entry.invocation.Some? {
        return Rejected;
      }
      if entry.contextClaimed {
        return AlreadyClaimed;
      }
      jobs := jobs[job := entry.(contextClaimed := true, revision := entry.revision + 1)];
      return PrepareNow;
    }

    method ReleaseModelContextPreparation(job: Id, expected: Option<nat>) returns (d: Disposition)
      requires Valid()
      modifies this`jobs
      ensures Valid() && (Contents(), d) == Step(old(Contents()), ReleaseContext(job, expected))
    {
      if job !in jobs {
        return Rejected;
      }
      var entry := jobs[job];
      assert jobs == jobs[job := entry];
      if entry.state != Accepted || !entry.contextClaimed || entry.invocation.Some? || entry.decision.Some?
         || (expected.Some? && entry.revision != expected.value) {
        return Rejected;
      }
      jobs := jobs[job := entry.(contextClaimed := false, revision := entry.revision + 1)];
      return Released;
    }

    method ClaimModelInvocation(job: Id, invocation: Invocation) returns (d: Disposition)
      requires Valid()
      modifies this`jobs
      ensures Valid() && (Contents(), d) == Step(old(Contents()), ClaimModel(job, invocation))
    {
      if job !in jobs {
        return Rejected;
      }
      var entry := jobs[job];
      assert jobs == jobs[job := entry];
      if failClaim || entry.state != Running || entry.decision.Some? || entry.invocationClaimed
         || !MatchesModelEnvelope(entry, invocation) {
        return Rejected;
      }
      if entry.invocation.Some? {
        return if entry.invocation.value == invocation then AlreadyClaimed else Rejected;
      }
      entry := entry.(invocation := Some(invocation), modelClaimed := true);
      entry := entry.(revision := entry.revision + 1);
      jobs := jobs[job := entry];
      return InvokeNow;
    }

    method CommitTerminalResult(job: Id, transition: Transition, result: Result) returns (d: Disposition)
      requires Valid()
      modifies this`jobs
      ensures Valid() && (Contents(), d) == Step(old(Contents()), Commit(job, transition, result))
    {
      if job !in jobs {
        return Rejected;
      }
      var entry := jobs[job];
      assert jobs == jobs[job := entry];
      if failCommit || !Committable(entry, transition, result) {
        return Rejected;
      }
      ghost var was := entry;
      entry := entry.(transitions := entry.transitions + [transition], result := Some(result));
      entry := entry.(state := transition.to, revision := entry.revision + 1);
      assert (entry, Committed) == CommitTo(was, transition, result, failCommit);
      jobs := jobs[job := entry];
      return Committed;
    }

    /** The whole history, oldest insertion first. */
    ghost function History(): seq<R.Item>
      requires Valid()
      reads this
    {
      seq(|order|, i requires 0 <= i < |order| reads this requires order[i] in jobs => Summary(jobs[order[i]]))
    }

    /** The newest `limit` jobs of the whole history; with the default limit the
        overview's consistency check accepts the projection as it is. */
    method RecentWork(limit: int) returns (p: Option<R.Projection>)
      requires Valid()
      ensures p.Some? <==> |jobs| <= R.HISTORY_BOUND && 1 <= limit <= R.LIMIT
      ensures p.Some? ==> p.value.items == R.Take(R.Sort(History()), limit) && p.value.total == |jobs|
      ensures p.Some? && limit == R.LIMIT ==>
        R.List(p.value.items, Some(p.value.total), p.value.truncated, true)
          == R.Listed(p.value.items, |jobs|, |jobs| > R.LIMIT, |jobs| > R.LIMIT)
    {
      var history := [];
      for i := 0 to |order|
        invariant history == History()[..i]
      {
        history := history + [Summary(jobs[order[i]])];
      }
      assert History()[..|order|] == History();
      OrderCounts(order, jobs.Keys);
      p := R.Newest(history, limit);
      if p.Some? && limit == R.LIMIT {
        assert R.DistinctIds(history);
        R.ProjectionIsListed(history, p.value);
      }
    }
  }

  lemma {:induction false} OrderCounts(order: seq<Id>, ids: set<Id>)
    requires forall id :: id in order <==> id in ids
    requires forall i, k :: 0 <= i < k < |order| ==> order[i] != order[k]
    ensures |order| == |ids|
    decreases |order|
  {
    if order == [] {
      assert ids == {};
    } else {
      var front, last := order[..|order| - 1], order[|order| - 1];
      assert order == front + [last];
      OrderCounts(front, ids - {last});
    }
  }
}
