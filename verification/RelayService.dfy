// Relay's service, the Tool Gateway and the model path over the job store.
// Every `await` is a point where another call may run, so each call is a thread
// that advances one segment at a time; a segment ends with at most one store
// call. Whatever the outside answers (ids, grants, workers, models, the
// Scheduler) arrives with the segment.

module RelayService {
  import opened Common
  import opened RelayStore
  import opened JobProjection

  /** The one capability the gateway implements, `pixel.system-status.read`. */
  const IMPLEMENTED: Id := 0

  datatype Config = Config(environment: Id, gateway: Id, source: Id, failClaim: bool, failCommit: bool)

  datatype Grants = Grants(capabilities: set<Id>, policy: Id)

  datatype WorkerAnswer = Threw | Unusable | Answered(available: bool)

  datatype ModelAnswer = Mismatched | Succeeded | Rejected(invalid: bool)

  /** What the outside gives a resumed thread. `grants` is None when the
      provider throws or answers something invalid; `proceed` is the Scheduler's
      word, `built` Memory's. */
  datatype World = World(
    event: Id, event2: Id, span: Id, execution: Id, proceed: bool, built: bool, grants: Option<Grants>,
    worker: WorkerAnswer, model: ModelAnswer, placed: bool, context: Id, to: Option<JobState>, reason: Option<Reason>)

  /** The authorization context, a function of the RUNNING job and the request. */
  datatype Context = Context(
    job: Id, execution: Id, subject: Id, department: Id, role: Id, binding: Binding,
    environment: Id, jobType: Id, capability: Id, parameters: Id)

  datatype Thread =
    | Submitting(candidate: Envelope, namespace: Id)
    | Accepting(envelope: Envelope)
    | Executing(id: Id)
    | Admitted(job: Job)
    | Started(job: Job, execution: Id)
    | Authorizing(request: Request, context: Option<Context>)
    | Granted(request: Request, context: Option<Context>, grants: Grants, current: Option<Context>)
    | Decided(request: Request, decision: Decision)
    | Working(request: Request)
    | ModelExecuting(id: Id)
    | ModelAdmitted(job: Job)
    | Preparing(job: Job)
    | Releasing(id: Id)
    | ModelStarted(job: Job, execution: Id)
    | Inferring(invocation: Invocation)
    | Attempting(id: Id)
    | Probing(job: Job)
    | Done

  predicate IsEntry(t: Thread) {
    t.Submitting? || t.Executing? || t.ModelExecuting? || t.Attempting?
  }

  // ----------------------------------------------------- building records

  function Stamped(c: Config, e: Envelope): Envelope {
    e.(environment := c.environment, execution := e.execution.(capability := e.capability))
  }

  function Transit(environment: Id, trace: Id, job: Id, x: Option<Id>, from: JobState, to: JobState, r: Reason, w: World): Transition {
    Transition(w.event, environment, trace, w.span, job, x, from, to, r)
  }

  function RequestFor(c: Config, j: Job, x: Id, w: World): Request {
    Request(w.event, c.environment, j.envelope.trace, w.span, j.envelope.job, x, j.envelope.execution.capability,
            j.envelope.execution.parameters, j.envelope.execution.binding)
  }

  function ContextFor(s: Store, r: Request): Option<Context> {
    if r.job !in s.jobs then None
    else
      var j := s.jobs[r.job];
      if j.state != Running || !MatchesEnvelope(j, r) then None
      else Some(Context(j.envelope.job, r.execution, j.envelope.subject, j.envelope.department, j.envelope.role,
                        r.binding, r.environment, j.envelope.jobType, r.capability, r.parameters))
  }

  function Decide(r: Request, grants: Option<Grants>, w: World): Decision {
    var allowed := grants.Some? && r.capability == IMPLEMENTED && r.capability in grants.value.capabilities;
    Decision(w.event, r.environment, r.trace, w.span, r.id, r.job, r.execution, r.capability, r.parameters, r.binding,
             if allowed then Allow else Deny,
             if allowed then CapabilityGranted else if grants.None? then GrantUnavailable else CapabilityNotGranted,
             if grants.None? then None else Some(grants.value.policy))
  }

  function Grantable(context: Option<Context>, current: Option<Context>, g: Grants): Option<Grants> {
    if context == current then Some(g) else None
  }

  function ReasonFor(o: Outcome): Reason {
    match o
    case StatusAvailable => ExecutionCompleted
    case DeniedOutcome => CapabilityDenied
    case UnavailableOutcome => AuthorizationUnavailable
    case WorkerUnavailable => WorkerFailed
    case WorkerInvalid => WorkerResultInvalid
  }

  function EndState(o: Outcome): JobState {
    if o == StatusAvailable then Completed else Failed
  }

  function WorkerCommit(r: Request, o: Outcome, source: Option<Id>, w: World): Call {
    Commit(r.job,
           Transit(r.environment, r.trace, r.job, Some(r.execution), Running, EndState(o), ReasonFor(o), w),
           Result(w.event2, r.environment, r.trace, w.span, r.job, r.execution, EndState(o), o, ByWorker(source)))
  }

  function WorkerOutcome(a: WorkerAnswer): Outcome {
    match a
    case Threw => WorkerUnavailable
    case Unusable => WorkerInvalid
    case Answered(available) => if available then StatusAvailable else WorkerUnavailable
  }

  function ModelOutcome(a: ModelAnswer): Outcome {
    match a
    case Mismatched => WorkerInvalid
    case Succeeded => StatusAvailable
    case Rejected(invalid) => if invalid then WorkerInvalid else WorkerUnavailable
  }

  function ModelCommit(v: Invocation, a: ModelAnswer, w: World): Call {
    var o := ModelOutcome(a);
    var placed := a.Succeeded? || (a.Rejected? && w.placed);
    Commit(v.job,
           Transit(v.environment, v.trace, v.job, Some(v.execution), Running, EndState(o), ReasonFor(o), w),
           Result(w.event2, v.environment, v.trace, w.span, v.job, v.execution, EndState(o), o, ByModel(v.id, placed)))
  }

  function InvocationFor(j: Job, x: Id, w: World): Invocation {
    var e := j.envelope;
    Invocation(w.event, e.environment, e.trace, w.span, e.job, x, e.jobType, e.execution.capability, e.execution.binding, w.context)
  }

  function RunningCall(c: Config, j: Job, w: World): Call {
    Apply(j.envelope.job,
          Transit(c.environment, j.envelope.trace, j.envelope.job, Some(w.execution), Accepted, Running, ExecutionStarted, w))
  }

  /** `attemptTransition` only lets an invalid candidate through to the store. */
  function Probe(c: Config, j: Job, w: World): Option<Call> {
    if w.to.None? || w.reason.None? then None
    else
      var t := Transit(c.environment, j.envelope.trace, j.envelope.job, j.execution, j.state, w.to.value, w.reason.value, w);
      if ValidTransition(t) then None else Some(Apply(j.envelope.job, t))
  }

  // ----------------------------------------------------------- one segment

  /** The store call the segment ends with, if any. */
  function CallOf(c: Config, t: Thread, w: World): Option<Call> {
    match t
    case Submitting(e, namespace) => Some(Claim(namespace, e.fingerprint, Stamped(c, e)))
    case Accepting(e) => Some(Apply(e.job, Transit(c.environment, e.trace, e.job, None, Submitted, Accepted, JobAccepted, w)))
    case Admitted(j) => if w.proceed then Some(RunningCall(c, j, w)) else None
    case Authorizing(r, context) =>
      if context.None? || w.grants.None? then Some(Record(r.job, r, Decide(r, None, w))) else None
    case Granted(r, context, g, current) => Some(Record(r.job, r, Decide(r, Grantable(context, current, g), w)))
    case Decided(r, d) =>
      if d.verdict == Allow then Some(ClaimWorker(r.job, r, d))
      else Some(WorkerCommit(r, if d.reason == GrantUnavailable then UnavailableOutcome else DeniedOutcome, None, w))
    case Working(r) => Some(WorkerCommit(r, WorkerOutcome(w.worker), Some(c.source), w))
    case ModelAdmitted(j) => if w.proceed then Some(PrepareContext(j.envelope.job)) else None
    case Preparing(j) =>
      if !w.built then None
      else if !w.proceed then Some(ReleaseContext(j.envelope.job, None))
      else Some(RunningCall(c, j, w))
    case Releasing(id) => Some(ReleaseContext(id, None))
    case ModelStarted(j, x) => Some(ClaimModel(j.envelope.job, InvocationFor(j, x, w)))
    case Inferring(v) => Some(ModelCommit(v, w.model, w))
    case Probing(j) => Probe(c, j, w)
    case _ => None
  }

  function ReadAccepted(s: Store, id: Id): Option<Job> {
    if id in s.jobs && s.jobs[id].state == Accepted then Some(s.jobs[id]) else None
  }

  /** Where the thread stands once its call, if any, answered `d`. */
  function After(c: Config, t: Thread, d: Disposition, s: Store, w: World): Thread {
    match t
    case Submitting(e, _) => if d == Created then Accepting(Stamped(c, e)) else Done
    case Executing(id) => var j := ReadAccepted(s, id); if j.Some? then Admitted(j.value) else Done
    case Admitted(j) => if w.proceed && d == Applied then Started(j, w.execution) else Done
    case Started(j, x) =>
      var r := RequestFor(c, j, x, w);
      if c.environment != c.gateway then Done else Authorizing(r, ContextFor(s, r))
    case Authorizing(r, context) =>
      if context.None? || w.grants.None? then if d == Recorded then Decided(r, Decide(r, None, w)) else Done
      else Granted(r, context, w.grants.value, ContextFor(s, r))
    case Granted(r, context, g, current) =>
      if d == Recorded then Decided(r, Decide(r, Grantable(context, current, g), w)) else Done
    case Decided(r, _) => if d == InvokeNow then Working(r) else Done
    case ModelExecuting(id) => var j := ReadAccepted(s, id); if j.Some? then ModelAdmitted(j.value) else Done
    case ModelAdmitted(j) => if w.proceed && d == PrepareNow then Preparing(j) else Done
    case Preparing(j) =>
      if !w.built || !w.proceed then Done
      else if d == Applied then ModelStarted(j, w.execution)
      else Releasing(j.envelope.job)
    case ModelStarted(j, x) => if d == InvokeNow then Inferring(InvocationFor(j, x, w)) else Done
    case Attempting(id) => if id in s.jobs then Probing(s.jobs[id]) else Done
    case _ => Done
  }

  /** The job whose worker or model the thread now calls. */
  function Invokee(before: Thread, after: Thread): Option<Id> {
    if before.Decided? && after.Working? then Some(after.request.job)
    else if before.ModelStarted? && after.Inferring? then Some(after.invocation.job)
    else None
  }

  // ------------------------------------------------------------- the system

  /** `calls` is every store call so far; `invoked` every worker or model call. */
  datatype System = System(store: Store, calls: seq<Call>, threads: map<Id, Thread>, invoked: multiset<Id>)

  function Start(c: Config): System {
    System(Empty(c.failClaim, c.failCommit), [], map[], multiset{})
  }

  datatype Event = Enter(thread: Id, entry: Thread) | Advance(thread: Id, world: World)

  function Next(c: Config, s: System, e: Event): System {
    match e
    case Enter(tid, entry) =>
      if tid in s.threads || !IsEntry(entry) then s else s.(threads := s.threads[tid := entry])
    case Advance(tid, w) =>
      if tid !in s.threads then s
      else
        var t := s.threads[tid];
        var call := CallOf(c, t, w);
        var (store, d) := if call.Some? then RelayStore.Step(s.store, call.value) else (s.store, Existing);
        var t' := After(c, t, d, s.store, w);
        var called := Invokee(t, t');
        System(store, if call.Some? then s.calls + [call.value] else s.calls, s.threads[tid := t'],
               if called.Some? then s.invoked + multiset{called.value} else s.invoked)
  }

  function RunService(c: Config, events: seq<Event>): System
    decreases |events|
  {
    if events == [] then Start(c) else Next(c, RunService(c, events[..|events| - 1]), events[|events| - 1])
  }

  // ------------------------------------------------------------- invariant

  /** What a thread remembers belongs to the service's environment. */
  predicate ThreadOk(environment: Id, t: Thread) {
    match t
    case Accepting(e) => e.environment == environment
    case Admitted(j) => j.envelope.environment == environment
    case Started(j, _) => j.envelope.environment == environment
    case Authorizing(r, _) => r.environment == environment
    case Granted(r, _, _, _) => r.environment == environment
    case Decided(r, d) => r.environment == environment && d.environment == environment
    case Working(r) => r.environment == environment
    case ModelAdmitted(j) => j.envelope.environment == environment
    case Preparing(j) => j.envelope.environment == environment
    case ModelStarted(j, _) => j.envelope.environment == environment
    case Inferring(v) => v.environment == environment
    case Probing(j) => j.envelope.environment == environment
    case _ => true
  }

  ghost predicate ThreadsOk(environment: Id, threads: map<Id, Thread>) {
    forall tid {:trigger threads[tid]} :: tid in threads ==> ThreadOk(environment, threads[tid])
  }

  /** Every worker or model call answers one INVOKE_NOW of the store. */
  ghost predicate Counted(s: Store, calls: seq<Call>, invoked: multiset<Id>) {
    forall j: Id {:trigger invoked[j]} :: invoked[j] == Invocations(s, calls, j)
  }

  ghost predicate Inv(c: Config, s: System) {
    && s.store == Run(Empty(c.failClaim, c.failCommit), s.calls)
    && ServiceJobs(c.environment, s.store.jobs)
    && ThreadsOk(c.environment, s.threads)
    && Counted(Empty(c.failClaim, c.failCommit), s.calls, s.invoked)
  }

  /** Everything a call carries is stamped with one environment. */
  predicate Carries(environment: Id, c: Call) {
    match c
    case Claim(_, _, candidate) => candidate.environment == environment
    case Apply(_, t) => t.environment == environment
    case Record(_, r, d) => r.environment == environment && d.environment == environment
    case ClaimWorker(_, r, d) => r.environment == environment && d.environment == environment
    case ClaimModel(_, v) => v.environment == environment
    case Commit(_, t, r) => t.environment == environment && r.environment == environment
    case _ => true
  }

  lemma SegmentCallOk(c: Config, t: Thread, w: World)
    requires ThreadOk(c.environment, t)
    ensures CallOf(c, t, w).Some? ==> CallOk(c.environment, CallOf(c, t, w).value) && Carries(c.environment, CallOf(c, t, w).value)
  {
  }

  lemma SegmentThreadOk(c: Config, t: Thread, d: Disposition, s: Store, w: World)
    requires ThreadOk(c.environment, t) && ServiceJobs(c.environment, s.jobs)
    ensures ThreadOk(c.environment, After(c, t, d, s, w))
  {
  }

  lemma Invokes1(t: Thread, c: Config, d: Disposition, s: Store, w: World, j: Id)
    requires var call := CallOf(c, t, w); call.Some? ==> d == RelayStore.Step(s, call.value).1
    requires var call := CallOf(c, t, w); call.None? ==> d == Existing
    ensures var call := CallOf(c, t, w);
      (Invokee(t, After(c, t, d, s, w)) == Some(j)) <==> call.Some? && Invokes(s, call.value, j)
  {
  }

  lemma CountedNext(s: Store, calls: seq<Call>, invoked: multiset<Id>, call: Call, who: Option<Id>)
    requires Counted(s, calls, invoked)
    requires forall j: Id :: (who == Some(j)) <==> Invokes(Run(s, calls), call, j)
    ensures Counted(s, calls + [call], if who.Some? then invoked + multiset{who.value} else invoked)
  {
    assert (calls + [call])[..|calls|] == calls;
  }

  lemma NextKeeps(c: Config, s: System, e: Event)
    requires Inv(c, s)
    ensures Inv(c, Next(c, s, e))
  {
    if e.Advance? && e.thread in s.threads {
      var t, w := s.threads[e.thread], e.world;
      var call := CallOf(c, t, w);
      SegmentCallOk(c, t, w);
      var d := if call.Some? then RelayStore.Step(s.store, call.value).1 else Existing;
      SegmentThreadOk(c, t, d, s.store, w);
      forall j: Id
        ensures (Invokee(t, After(c, t, d, s.store, w)) == Some(j)) <==> call.Some? && Invokes(s.store, call.value, j)
      {
        Invokes1(t, c, d, s.store, w, j);
      }
      if call.Some? {
        CallKeeps(c.environment, s.store, call.value);
        CountedNext(Empty(c.failClaim, c.failCommit), s.calls, s.invoked, call.value, Invokee(t, After(c, t, d, s.store, w)));
        RunExtends(Empty(c.failClaim, c.failCommit), s.calls, call.value);
      }
    }
  }

  lemma {:induction false} ServiceKeeps(c: Config, events: seq<Event>)
    ensures Inv(c, RunService(c, events))
    decreases |events|
  {
    if events != [] {
      ServiceKeeps(c, events[..|events| - 1]);
      NextKeeps(c, RunService(c, events[..|events| - 1]), events[|events| - 1]);
    }
  }

  // -------------------------------------------------------------- theorems

  /** In every interleaving, every job's transitions replay from SUBMITTED to
      its current state with the job's own id, trace and environment, one
      transition per stage; and it is terminal exactly when it holds a result,
      of that same state. */
  lemma EveryJobReplays(c: Config, events: seq<Event>, id: Id)
    requires id in RunService(c, events).store.jobs
    ensures var j := RunService(c, events).store.jobs[id];
      && j.envelope.job == id && j.envelope.environment == c.environment
      && ValidProjection(j) && |j.transitions| == StageOf(j.state)
      && (Terminal(j.state) <==> j.result.Some?)
      && (j.result.Some? ==> j.result.value.state == j.state)
  {
    ServiceKeeps(c, events);
    var j := RunService(c, events).store.jobs[id];
    assert ServiceJob(c.environment, id, j);
    ReplayLength(j.envelope, j.transitions);
  }

  /** Worker and model together are called at most once for a job, and never
      for one the gateway denied. */
  lemma CalledAtMostOnce(c: Config, events: seq<Event>, j: Id)
    requires NeverReused(Empty(c.failClaim, c.failCommit), RunService(c, events).calls, j)
    ensures var s := RunService(c, events);
      && s.invoked[j] <= 1
      && (s.invoked[j] == 1 ==> j in s.store.jobs && (s.store.jobs[j].decision.None? || s.store.jobs[j].decision.value.verdict == Allow))
  {
    ServiceKeeps(c, events);
    OnceRun(Empty(c.failClaim, c.failCommit), RunService(c, events).calls, j);
  }

  /** The store calls, if any, that one event makes. */
  function CallsMade(c: Config, s: System, e: Event): seq<Call> {
    if e.Advance? && e.thread in s.threads && CallOf(c, s.threads[e.thread], e.world).Some?
    then [CallOf(c, s.threads[e.thread], e.world).value] else []
  }

  lemma NextCalls(c: Config, s: System, e: Event)
    ensures Next(c, s, e).calls == s.calls + CallsMade(c, s, e)
  {
  }

  lemma ServiceExtends(c: Config, events: seq<Event>, more: seq<Event>)
    requires more != []
    ensures RunService(c, events + more) == Next(c, RunService(c, events + more[..|more| - 1]), more[|more| - 1])
  {
    FrontOfSum(events, more);
  }

  lemma {:induction false} CallsGrow(c: Config, events: seq<Event>, more: seq<Event>) returns (calls: seq<Call>)
    ensures RunService(c, events + more).calls == RunService(c, events).calls + calls
    decreases |more|
  {
    if more == [] {
      assert events + more == events;
      calls := [];
    } else {
      var front, last := more[..|more| - 1], more[|more| - 1];
      calls := CallsGrow(c, events, front);
      ServiceExtends(c, events, more);
      var s := RunService(c, events + front);
      NextCalls(c, s, last);
      calls := calls + CallsMade(c, s, last);
    }
  }

  /** A terminal state absorbs: nothing in the rest of the run changes the job. */
  lemma TerminalAbsorbs(c: Config, events: seq<Event>, more: seq<Event>, j: Id)
    requires NeverReused(Empty(c.failClaim, c.failCommit), RunService(c, events + more).calls, j)
    requires var s := RunService(c, events).store; j in s.jobs && Terminal(s.jobs[j].state)
    ensures var s' := RunService(c, events + more).store;
      j in s'.jobs && s'.jobs[j] == RunService(c, events).store.jobs[j]
  {
    var tail := CallsGrow(c, events, more);
    ServiceKeeps(c, events);
    ServiceKeeps(c, events + more);
    TerminalStays(Empty(c.failClaim, c.failCommit), RunService(c, events).calls, tail, j);
  }

  /** The revision of a job is one more than the number of store calls that
      changed it. */
  lemma RevisionCountsChanges(c: Config, events: seq<Event>, j: Id)
    requires NeverReused(Empty(c.failClaim, c.failCommit), RunService(c, events).calls, j)
    requires j in RunService(c, events).store.jobs
    ensures RunService(c, events).store.jobs[j].revision
      == 1 + Changes(Empty(c.failClaim, c.failCommit), RunService(c, events).calls, j)
  {
    ServiceKeeps(c, events);
    RevisionRun(Empty(c.failClaim, c.failCommit), RunService(c, events).calls, j);
  }
}
