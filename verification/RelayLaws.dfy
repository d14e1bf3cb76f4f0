// What the job store promises its callers, in the terms of its records: one job
// per idempotency namespace, each call accepted exactly under its conditions, and
// every result in keeping with the path that led to it.

module RelayLaws {
  import opened Common
  import opened RelayStore

  // ------------------------------------------------------------ idempotency

  /** Namespace `n` is filed under the job created from `e`. */
  predicate Filed(s: Store, n: Id, e: Envelope) {
    n in s.namespaces && s.namespaces[n] == e.job && e.job in s.jobs && s.jobs[e.job].envelope == e
  }

  lemma OnJobKeepsEnvelope(j: Job, c: Call, s: Store)
    requires !c.Claim?
    ensures OnJob(j, c, s).0.envelope == j.envelope
  {
  }

  /** Only a claim that takes the job's id again for another envelope can undo it. */
  lemma FiledIffNotReplaced(s: Store, c: Call, n: Id, e: Envelope)
    requires Filed(s, n, e)
    ensures Filed(Step(s, c).0, n, e) <==> !(Reuses(s, c, e.job) && c.candidate != e)
  {
    if !c.Claim? && c.job in s.jobs {
      OnJobKeepsEnvelope(s.jobs[c.job], c, s);
    }
  }

  lemma {:induction false} FiledStays(s: Store, more: seq<Call>, n: Id, e: Envelope)
    requires Filed(s, n, e) && NeverReused(s, more, e.job)
    ensures Filed(Run(s, more), n, e)
    decreases |more|
  {
    if more != [] {
      var front := more[..|more| - 1];
      FiledStays(s, front, n, e);
      FiledIffNotReplaced(Run(s, front), more[|more| - 1], n, e);
    }
  }

  /** A claim in a free namespace files a new job, SUBMITTED and untouched, and a
      malformed one files nothing; only these two and the answers below occur. */
  lemma FirstClaim(s: Store, n: Id, f: Id, e: Envelope)
    requires n !in s.namespaces
    ensures var (s', d) := Step(s, Claim(n, f, e));
      if e.execution.capability == e.capability && e.fingerprint == f then
        && d == Created && Filed(s', n, e) && s'.namespaces == s.namespaces[n := e.job]
        && s'.jobs == s.jobs[e.job := Job(e, Submitted, None, [], None, None, false, false, None, false, None, 1)]
      else d == Rejected && s' == s
  {
  }

  lemma LaterClaim(s: Store, n: Id, e: Envelope, f: Id, again: Envelope)
    requires Filed(s, n, e)
    ensures Step(s, Claim(n, f, again)) ==
      (s, if again.execution.capability != again.capability || again.fingerprint != f then Rejected
          else if f == e.fingerprint then Existing
          else Conflict)
  {
  }

  /** The idempotency law, over every run from the empty store: once a claim of
      `n` has created a job for fingerprint `e.fingerprint`, every later well-formed
      claim of `n` answers EXISTING if and only if it carries that fingerprint, and
      CONFLICT otherwise; it changes nothing, and `n` still names the first job. */
  lemma ClaimIsIdempotent(failClaim: bool, failCommit: bool, calls: seq<Call>, n: Id, f0: Id, e: Envelope, more: seq<Call>,
                          f: Id, again: Envelope)
    requires var s := Run(Empty(failClaim, failCommit), calls);
      Step(s, Claim(n, f0, e)).1 == Created && NeverReused(Step(s, Claim(n, f0, e)).0, more, e.job)
    requires again.execution.capability == again.capability && again.fingerprint == f
    ensures var s := Run(Empty(failClaim, failCommit), calls + [Claim(n, f0, e)] + more);
      var (s', d) := Step(s, Claim(n, f, again));
      && (d == Existing <==> f == e.fingerprint) && (d == Conflict <==> f != e.fingerprint)
      && s' == s
      && n in s.namespaces && s.namespaces[n] == e.job && e.job in s.jobs && s.jobs[e.job].envelope == e
  {
    var z := Empty(failClaim, failCommit);
    var s1 := Step(Run(z, calls), Claim(n, f0, e)).0;
    assert Filed(s1, n, e);
    FiledStays(s1, more, n, e);
    RunExtends(z, calls, Claim(n, f0, e));
    RunJoins(z, calls + [Claim(n, f0, e)], more);
    LaterClaim(Run(s1, more), n, e, f, again);
  }

  // --------------------------------------------------- when calls are accepted

  const LIFECYCLE: set<(JobState, JobState, Reason)> := {
    (Submitted, Accepted, JobAccepted), (Accepted, Running, ExecutionStarted), (Running, Completed, ExecutionCompleted),
    (Running, Failed, CapabilityDenied), (Running, Failed, AuthorizationUnavailable),
    (Running, Failed, WorkerFailed), (Running, Failed, WorkerResultInvalid)}

  /** The transition is of this job, from where it stands, and in the lifecycle,
      with the job's execution id from RUNNING on. */
  predicate Fits(j: Job, t: Transition) {
    && t.job == j.envelope.job && t.trace == j.envelope.trace && t.environment == j.envelope.environment
    && t.from == j.state && (t.from, t.to, t.reason) in LIFECYCLE
    && (if t.to == Running then t.execution.Some? else if t.from == Running then t.execution.Some? && t.execution == j.execution
        else t.execution.None?)
  }

  /** Before RUNNING a job has no execution id, and from then on it has one. */
  predicate Staged(j: Job) {
    j.execution.Some? <==> j.state == Running || j.state == Completed || j.state == Failed
  }

  lemma AppliesIff(s: Store, id: Id, t: Transition)
    requires id in s.jobs && Staged(s.jobs[id])
    ensures var ((s', d), j) := (Step(s, Apply(id, t)), s.jobs[id]);
      if Fits(j, t) then
        d == Applied && s' == s.(jobs := s.jobs[id := j.(state := t.to, execution := if t.to == Running then t.execution else j.execution,
                                                         transitions := j.transitions + [t], revision := j.revision + 1)])
      else d == Rejected && s' == s
  {
    var j := s.jobs[id];
    assert s.jobs[id := j] == s.jobs;
    assert Legal(t.from, t.to, t.reason) <==> (t.from, t.to, t.reason) in LIFECYCLE;
  }

  /** The request is the job's own: its ids, its capability, parameters, binding. */
  predicate Asks(j: Job, r: Request) {
    && r.job == j.envelope.job && j.execution == Some(r.execution) && r.environment == j.envelope.environment
    && r.trace == j.envelope.trace && r.capability == j.envelope.execution.capability
    && r.parameters == j.envelope.execution.parameters && r.binding == j.envelope.execution.binding
  }

  /** The decision answers exactly this request. */
  predicate Answers(d: Decision, r: Request) {
    && d.request == r.id && d.job == r.job && d.execution == r.execution && d.capability == r.capability
    && d.parameters == r.parameters && d.environment == r.environment && d.binding == r.binding
  }

  predicate WellFormed(d: Decision) {
    (d.verdict == Allow && d.reason == CapabilityGranted && d.policy.Some?)
    || (d.verdict == Deny && (d.reason == CapabilityNotGranted || d.reason == GrantUnavailable))
  }

  lemma RecordsIff(s: Store, id: Id, r: Request, decision: Decision)
    requires id in s.jobs
    ensures var ((s', d), j) := (Step(s, Record(id, r, decision)), s.jobs[id]);
      if j.state == Running && j.decision.None? && !j.contextClaimed && j.invocation.None?
         && WellFormed(decision) && Asks(j, r) && Answers(decision, r) then
        d == Recorded && s' == s.(jobs := s.jobs[id := j.(request := Some(r), decision := Some(decision), revision := j.revision + 1)])
      else d == Rejected && s' == s
  {
    assert s.jobs[id := s.jobs[id]] == s.jobs;
  }

  lemma InvokesWorkerIff(s: Store, id: Id, r: Request, decision: Decision)
    requires id in s.jobs
    ensures var ((s', d), j) := (Step(s, ClaimWorker(id, r, decision)), s.jobs[id]);
      if !s.failClaim && j.state == Running && j.invocation.None? && decision.verdict == Allow
         && j.request == Some(r) && j.decision == Some(decision) && Answers(decision, r) then
        if j.invocationClaimed then d == AlreadyClaimed && s' == s
        else d == InvokeNow && s' == s.(jobs := s.jobs[id := j.(invocationClaimed := true, revision := j.revision + 1)])
      else d == Rejected && s' == s
  {
    assert s.jobs[id := s.jobs[id]] == s.jobs;
  }

  lemma PreparesIff(s: Store, id: Id)
    requires id in s.jobs
    ensures var ((s', d), j) := (Step(s, PrepareContext(id)), s.jobs[id]);
      if j.state == Accepted && j.decision.None? && !j.invocationClaimed && j.invocation.None? then
        if j.contextClaimed then d == AlreadyClaimed && s' == s
        else d == PrepareNow && s' == s.(jobs := s.jobs[id := j.(contextClaimed := true, revision := j.revision + 1)])
      else d == Rejected && s' == s
  {
    assert s.jobs[id := s.jobs[id]] == s.jobs;
  }

  lemma ReleasesIff(s: Store, id: Id, expected: Option<nat>)
    requires id in s.jobs
    ensures var ((s', d), j) := (Step(s, ReleaseContext(id, expected)), s.jobs[id]);
      if j.state == Accepted && j.contextClaimed && j.invocation.None? && j.decision.None?
         && (expected.None? || expected.value == j.revision) then
        d == Released && s' == s.(jobs := s.jobs[id := j.(contextClaimed := false, revision := j.revision + 1)])
      else d == Rejected && s' == s
  {
    assert s.jobs[id := s.jobs[id]] == s.jobs;
  }

  lemma InvokesModelIff(s: Store, id: Id, v: Invocation)
    requires id in s.jobs
    ensures var ((s', d), j) := (Step(s, ClaimModel(id, v)), s.jobs[id]);
      var own := v.job == j.envelope.job && j.execution == Some(v.execution) && v.environment == j.envelope.environment
                 && v.trace == j.envelope.trace && v.jobType == j.envelope.jobType
                 && v.capability == j.envelope.execution.capability && v.binding == j.envelope.execution.binding;
      if s.failClaim || j.state != Running || j.decision.Some? || j.invocationClaimed || !own
         || (j.invocation.Some? && j.invocation.value != v) then d == Rejected && s' == s
      else if j.invocation.Some? then d == AlreadyClaimed && s' == s
      else d == InvokeNow && s' == s.(jobs := s.jobs[id := j.(invocation := Some(v), modelClaimed := true, revision := j.revision + 1)])
  {
    assert s.jobs[id := s.jobs[id]] == s.jobs;
  }

  // --------------------------------------------------------------- results

  predicate Denial(o: Outcome) { o == DeniedOutcome || o == UnavailableOutcome }

  /** The outcome is one the path can have: a denial exactly after DENY with no
      worker claimed, a worker's answer only after ALLOW and a claim, a model's only
      for the invocation that was claimed; and completed exactly when available. */
  predicate InKeeping(j: Job, r: Result) {
    && r.job == j.envelope.job && j.execution == Some(r.execution) && r.trace == j.envelope.trace
    && (r.state == Completed || r.state == Failed) && (r.state == Completed <==> r.outcome == StatusAvailable)
    && match r.provenance
       case ByWorker(source) =>
         && j.decision.Some? && j.invocation.None?
         && (if j.decision.value.verdict == Allow then j.invocationClaimed && !Denial(r.outcome) && source.Some?
             else !j.invocationClaimed && Denial(r.outcome) && source.None?)
       case ByModel(invocation, placed) =>
         && j.decision.None? && j.invocation.Some? && j.modelClaimed && invocation == j.invocation.value.id
         && !Denial(r.outcome) && (r.state == Completed ==> placed)
  }

  lemma CommitsIff(s: Store, id: Id, t: Transition, r: Result)
    requires id in s.jobs
    ensures var ((s', d), j) := (Step(s, Commit(id, t, r)), s.jobs[id]);
      if !s.failCommit && j.state == Running && InKeeping(j, r)
         && t.job == j.envelope.job && t.trace == j.envelope.trace && t.execution == j.execution && t.to == r.state
         && (Running, t.to, t.reason) in LIFECYCLE && t.from == Running then
        d == Committed && s' == s.(jobs := s.jobs[id := j.(transitions := j.transitions + [t], result := Some(r), state := r.state,
                                                           revision := j.revision + 1)])
      else d == Rejected && s' == s
  {
    var j := s.jobs[id];
    assert s.jobs[id := j] == s.jobs;
    assert Legal(t.from, t.to, t.reason) <==> (t.from, t.to, t.reason) in LIFECYCLE;
  }

  predicate ResultOk(j: Job) {
    j.result.Some? ==> InKeeping(j, j.result.value) && j.result.value.state == j.state
  }

  lemma OnJobKeepsResult(id: Id, j: Job, c: Call, s: Store)
    requires JobOk(id, j) && ResultOk(j) && !c.Claim?
    ensures ResultOk(OnJob(j, c, s).0)
  {
  }

  /** Over every run of store calls, a job's result is in keeping with its path. */
  lemma {:induction false} ResultFollowsPath(failClaim: bool, failCommit: bool, calls: seq<Call>, id: Id)
    requires id in Run(Empty(failClaim, failCommit), calls).jobs && NeverReused(Empty(failClaim, failCommit), calls, id)
    ensures ResultOk(Run(Empty(failClaim, failCommit), calls).jobs[id])
    decreases |calls|
  {
    var z := Empty(failClaim, failCommit);
    if calls != [] {
      var front, c := calls[..|calls| - 1], calls[|calls| - 1];
      var s := Run(z, front);
      OnceRun(z, front, id);
      if id in s.jobs {
        ResultFollowsPath(failClaim, failCommit, front, id);
        if !c.Claim? && c.job == id {
          OnJobKeepsResult(id, s.jobs[id], c, s);
        }
      }
    }
  }

  // ------------------------------------------------------------ the listing

  /** What recent work shows of a job: its id, when it was created, its state, and
      the reason of its last transition or that it has had none. */
  lemma SummaryMeans(j: Job, k: Job)
    ensures Summary(j).id == j.envelope.job && Summary(j).occurredAt == j.envelope.createdAt
    ensures Summary(j).state == Summary(k).state <==> j.state == k.state
    ensures Summary(j).detail == 0 <==> j.transitions == []
    ensures j.transitions != [] && k.transitions != [] ==>
      (Summary(j).detail == Summary(k).detail <==>
         j.transitions[|j.transitions| - 1].reason == k.transitions[|k.transitions| - 1].reason)
  {
  }
}
