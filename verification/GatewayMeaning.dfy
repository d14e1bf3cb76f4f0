// What a gateway decision rests on: over every run of the service, the exchange
// with the grant provider behind it, and the requester's record read before and
// after. And what an undisturbed call makes of the answers it is given.

module GatewayMeaning {
  import opened Common
  import opened RelayStore
  import opened JobProjection
  import opened RelayService

  /** `pixel.system-status.read`. */
  const STATUS_READ: Id := 0

  // ------------------------------------------------------------- exchanges

  /** The job's record authorizes a request that is its own, while it runs. */
  function AuthorizedBy(s: Store, r: Request): Option<Context> {
    if r.job in s.jobs && s.jobs[r.job].state == Running && s.jobs[r.job].execution == Some(r.execution) && IsOwn(s.jobs[r.job].envelope, r)
    then
      var e := s.jobs[r.job].envelope;
      Some(Context(e.job, r.execution, e.subject, e.department, e.role, e.execution.binding, e.environment, e.jobType,
                   e.execution.capability, e.execution.parameters))
    else None
  }

  predicate IsOwn(e: Envelope, r: Request) {
    && r.job == e.job && r.environment == e.environment && r.trace == e.trace
    && r.capability == e.execution.capability && r.parameters == e.execution.parameters && r.binding == e.execution.binding
  }

  lemma ContextMeans(s: Store, r: Request)
    ensures ContextFor(s, r) == AuthorizedBy(s, r)
  {
  }

  /** A request, the context it was first read with, what the grant provider
      answered for it, and the context read afterwards. */
  datatype Exchange = Exchange(request: Request, first: Option<Context>, answer: Option<Grants>, second: Option<Context>)

  /** The request of job record `j` for execution `x`. */
  function AskedFor(c: Config, j: Job, x: Id, w: World): Request {
    var e := j.envelope;
    Request(w.event, c.environment, e.trace, w.span, e.job, x, e.execution.capability, e.execution.parameters, e.execution.binding)
  }

  function ReadNow(c: Config, s: System, e: Event): set<(Request, Option<Context>)> {
    if e.Advance? && e.thread in s.threads && s.threads[e.thread].Started? && c.environment == c.gateway then
      var r := AskedFor(c, s.threads[e.thread].job, s.threads[e.thread].execution, e.world);
      {(r, AuthorizedBy(s.store, r))}
    else {}
  }

  function AskedNow(s: System, e: Event): set<Exchange> {
    if e.Advance? && e.thread in s.threads && s.threads[e.thread].Authorizing? then
      var Authorizing(r, first) := s.threads[e.thread];
      {Exchange(r, first, if first.Some? then e.world.grants else None, AuthorizedBy(s.store, r))}
    else {}
  }

  /** The requests of a run, with the context each was first read with. */
  function Reads(c: Config, events: seq<Event>): set<(Request, Option<Context>)>
    decreases |events|
  {
    if events == [] then {}
    else
      var front := events[..|events| - 1];
      Reads(c, front) + ReadNow(c, RunService(c, front), events[|events| - 1])
  }

  /** The exchanges of a run. */
  function Exchanges(c: Config, events: seq<Event>): set<Exchange>
    decreases |events|
  {
    if events == [] then {}
    else
      var front := events[..|events| - 1];
      Exchanges(c, front) + AskedNow(RunService(c, front), events[|events| - 1])
  }

  /** The provider answered, for a context that was there and stayed the same. */
  predicate Usable(a: Exchange) {
    a.first.Some? && a.answer.Some? && a.second == a.first
  }

  predicate Permits(a: Exchange) {
    Usable(a) && a.request.capability == STATUS_READ && a.request.capability in a.answer.value.capabilities
  }

  /** The decision that an exchange calls for. */
  predicate Follows(a: Exchange, d: Decision) {
    && d.request == a.request.id && d.job == a.request.job && d.execution == a.request.execution
    && d.environment == a.request.environment && d.trace == a.request.trace
    && d.capability == a.request.capability && d.parameters == a.request.parameters && d.binding == a.request.binding
    && (d.verdict == Allow <==> Permits(a))
    && (d.reason == CapabilityGranted <==> Permits(a))
    && (d.reason == CapabilityNotGranted <==> Usable(a) && !Permits(a))
    && (d.reason == GrantUnavailable <==> !Usable(a))
    && d.policy == if Usable(a) then Some(a.answer.value.policy) else None
  }

  // ------------------------------------------------------------- invariant

  ghost predicate Backed(firsts: set<(Request, Option<Context>)>, told: set<Exchange>, r: Request, d: Decision) {
    exists a :: a in told && a.request == r && (r, a.first) in firsts && Follows(a, d)
  }

  ghost predicate Granting(firsts: set<(Request, Option<Context>)>, told: set<Exchange>, r: Request) {
    exists a :: a in told && a.request == r && (r, a.first) in firsts && Permits(a)
  }

  ghost predicate ThreadTold(firsts: set<(Request, Option<Context>)>, told: set<Exchange>, t: Thread) {
    match t
    case Authorizing(r, first) => (r, first) in firsts
    case Granted(r, first, g, second) => first.Some? && (r, first) in firsts && Exchange(r, first, Some(g), second) in told
    case Decided(r, d) => Backed(firsts, told, r, d)
    case Working(r) => Granting(firsts, told, r)
    case _ => true
  }

  ghost predicate JobTold(firsts: set<(Request, Option<Context>)>, told: set<Exchange>, j: Job) {
    j.decision.Some? ==>
      j.request.Some? && Backed(firsts, told, j.request.value, j.decision.value) && IsOwn(j.envelope, j.request.value)
  }

  ghost predicate AllTold(firsts: set<(Request, Option<Context>)>, told: set<Exchange>, s: System) {
    && (forall tid {:trigger s.threads[tid]} :: tid in s.threads ==> ThreadTold(firsts, told, s.threads[tid]))
    && (forall id {:trigger s.store.jobs[id]} :: id in s.store.jobs ==> JobTold(firsts, told, s.store.jobs[id]))
  }

  lemma BackedGrows(firsts: set<(Request, Option<Context>)>, told: set<Exchange>, firsts': set<(Request, Option<Context>)>,
                    told': set<Exchange>, r: Request, d: Decision)
    requires firsts <= firsts' && told <= told'
    ensures Backed(firsts, told, r, d) ==> Backed(firsts', told', r, d)
    ensures Granting(firsts, told, r) ==> Granting(firsts', told', r)
  {
  }

  lemma AllToldGrows(firsts: set<(Request, Option<Context>)>, told: set<Exchange>, firsts': set<(Request, Option<Context>)>,
                     told': set<Exchange>, s: System)
    requires AllTold(firsts, told, s) && firsts <= firsts' && told <= told'
    ensures AllTold(firsts', told', s)
  {
    forall tid {:trigger s.threads[tid]} | tid in s.threads
      ensures ThreadTold(firsts', told', s.threads[tid])
    {
      match s.threads[tid]
      case Decided(r, d) => BackedGrows(firsts, told, firsts', told', r, d);
      case _ =>
    }
    forall id {:trigger s.store.jobs[id]} | id in s.store.jobs
      ensures JobTold(firsts', told', s.store.jobs[id])
    {
      var j := s.store.jobs[id];
      if j.decision.Some? {
        BackedGrows(firsts, told, firsts', told', j.request.value, j.decision.value);
      }
    }
  }

  /** Only recording a decision changes what a job holds of one. */
  lemma OnJobDecision(j: Job, call: Call, s: Store)
    requires !call.Claim?
    ensures var j' := OnJob(j, call, s).0;
      && j'.envelope == j.envelope
      && ((j'.decision == j.decision && j'.request == j.request)
          || (call.Record? && j'.request == Some(call.request) && j'.decision == Some(call.decision) && IsOwn(j.envelope, call.request)))
  {
  }

  /** A decision that a segment records follows an exchange of the run. */
  lemma SegmentBacked(firsts: set<(Request, Option<Context>)>, told: set<Exchange>, c: Config, s: System, tid: Id, w: World)
    requires tid in s.threads && ThreadTold(firsts, told, s.threads[tid]) && AskedNow(s, Advance(tid, w)) <= told
    ensures var call := CallOf(c, s.threads[tid], w);
      call.Some? && call.value.Record? ==>
        call.value.job == call.value.request.job && Backed(firsts, told, call.value.request, call.value.decision)
  {
    match s.threads[tid]
    case Authorizing(r, first) =>
      if first.None? || w.grants.None? {
        var a := Exchange(r, first, if first.Some? then w.grants else None, AuthorizedBy(s.store, r));
        assert a in told && Follows(a, Decide(r, None, w));
      }
    case Granted(r, first, g, second) =>
      assert Follows(Exchange(r, first, Some(g), second), Decide(r, Grantable(first, second, g), w));
    case _ =>
  }

  lemma SegmentTold(firsts: set<(Request, Option<Context>)>, told: set<Exchange>, c: Config, s: System, tid: Id, w: World, d: Disposition)
    requires tid in s.threads && ThreadTold(firsts, told, s.threads[tid])
    requires AskedNow(s, Advance(tid, w)) <= told && ReadNow(c, s, Advance(tid, w)) <= firsts
    requires var call := CallOf(c, s.threads[tid], w); d == if call.Some? then RelayStore.Step(s.store, call.value).1 else Existing
    ensures ThreadTold(firsts, told, After(c, s.threads[tid], d, s.store, w))
  {
    SegmentBacked(firsts, told, c, s, tid, w);
    match s.threads[tid]
    case Started(j, x) => ContextMeans(s.store, RequestFor(c, j, x, w));
    case Authorizing(r, first) => ContextMeans(s.store, r);
    case _ =>
  }

  lemma StoreTold(firsts: set<(Request, Option<Context>)>, told: set<Exchange>, s: Store, call: Call)
    requires forall id {:trigger s.jobs[id]} :: id in s.jobs ==> JobTold(firsts, told, s.jobs[id])
    requires call.Record? ==> call.job == call.request.job && Backed(firsts, told, call.request, call.decision)
    ensures var s' := RelayStore.Step(s, call).0; forall id {:trigger s'.jobs[id]} :: id in s'.jobs ==> JobTold(firsts, told, s'.jobs[id])
  {
    if !call.Claim? && call.job in s.jobs {
      OnJobDecision(s.jobs[call.job], call, s);
    }
  }

  lemma NextTold(firsts: set<(Request, Option<Context>)>, told: set<Exchange>, c: Config, s: System, e: Event)
    requires AllTold(firsts, told, s) && AskedNow(s, e) <= told && ReadNow(c, s, e) <= firsts
    ensures AllTold(firsts, told, Next(c, s, e))
  {
    if e.Advance? && e.thread in s.threads {
      var t, w := s.threads[e.thread], e.world;
      var call := CallOf(c, t, w);
      var d := if call.Some? then RelayStore.Step(s.store, call.value).1 else Existing;
      SegmentTold(firsts, told, c, s, e.thread, w, d);
      if call.Some? {
        SegmentBacked(firsts, told, c, s, e.thread, w);
        StoreTold(firsts, told, s.store, call.value);
      }
    }
  }

  lemma {:induction false} RunTold(c: Config, events: seq<Event>)
    ensures AllTold(Reads(c, events), Exchanges(c, events), RunService(c, events))
    decreases |events|
  {
    if events != [] {
      var front, last := events[..|events| - 1], events[|events| - 1];
      RunTold(c, front);
      AllToldGrows(Reads(c, front), Exchanges(c, front), Reads(c, events), Exchanges(c, events), RunService(c, front));
      NextTold(Reads(c, events), Exchanges(c, events), c, RunService(c, front), last);
    }
  }

  // -------------------------------------------------------------- theorems

  /** In every interleaving, a job's decision is about the job's own request and
      follows an exchange of the run: ALLOW exactly when the provider, asked for
      that request, named its capability and the authorization context was the same
      before and after. */
  lemma DecisionFollowsExchange(c: Config, events: seq<Event>, id: Id)
    requires var s := RunService(c, events); id in s.store.jobs && s.store.jobs[id].decision.Some?
    ensures var j := RunService(c, events).store.jobs[id];
      && j.request.Some? && j.request.value.job == id && IsOwn(j.envelope, j.request.value)
      && j.envelope.capability == j.request.value.capability
      && exists a :: a in Exchanges(c, events) && a.request == j.request.value && (a.request, a.first) in Reads(c, events)
               && Follows(a, j.decision.value)
  {
    RunTold(c, events);
    ServiceKeeps(c, events);
    var j := RunService(c, events).store.jobs[id];
    assert ServiceJob(c.environment, id, j);
    assert JobTold(Reads(c, events), Exchanges(c, events), j);
  }

  /** A worker is only called for a request whose capability was granted. */
  lemma WorkerNeedsGrant(c: Config, events: seq<Event>, tid: Id)
    requires var s := RunService(c, events); tid in s.threads && s.threads[tid].Working?
    ensures exists a :: a in Exchanges(c, events) && a.request == RunService(c, events).threads[tid].request
               && (a.request, a.first) in Reads(c, events) && Permits(a)
  {
    RunTold(c, events);
    assert ThreadTold(Reads(c, events), Exchanges(c, events), RunService(c, events).threads[tid]);
  }

  /** A gateway of another environment decides nothing. */
  lemma {:induction false} ForeignGatewayReadsNothing(c: Config, events: seq<Event>)
    requires c.environment != c.gateway
    ensures Reads(c, events) == {}
    decreases |events|
  {
    if events != [] {
      ForeignGatewayReadsNothing(c, events[..|events| - 1]);
    }
  }

  lemma ForeignGatewayDecidesNothing(c: Config, events: seq<Event>, id: Id)
    requires c.environment != c.gateway && id in RunService(c, events).store.jobs
    ensures RunService(c, events).store.jobs[id].decision.None?
  {
    ForeignGatewayReadsNothing(c, events);
    if RunService(c, events).store.jobs[id].decision.Some? {
      DecisionFollowsExchange(c, events, id);
    }
  }

  // ----------------------------------------------------- undisturbed steps

  /** The job runs as the request says and nothing has been decided for it. */
  predicate Undecided(s: Store, r: Request) {
    && AuthorizedBy(s, r).Some?
    && var j := s.jobs[r.job];
    j.request.None? && j.decision.None? && !j.contextClaimed && j.invocation.None? && !j.invocationClaimed
  }

  predicate Stands(s: System, tid: Id, t: Thread) {
    tid in s.threads && s.threads[tid] == t
  }

  /** The provider's answer is kept with the context read after it. */
  lemma AnswerIsKept(c: Config, s: System, tid: Id, w: World, r: Request, x: Context)
    requires Stands(s, tid, Authorizing(r, Some(x))) && w.grants.Some?
    ensures Next(c, s, Advance(tid, w)) == s.(threads := s.threads[tid := Granted(r, Some(x), w.grants.value, AuthorizedBy(s.store, r))])
  {
    ContextMeans(s.store, r);
  }

  /** An answer that arrives for an undecided job is recorded as the decision it
      calls for. */
  lemma AnswerDecides(c: Config, s: System, tid: Id, w: World, a: Exchange)
    requires a.first.Some? && a.answer.Some? && Stands(s, tid, Granted(a.request, a.first, a.answer.value, a.second)) && Undecided(s.store, a.request)
    ensures var (s', r) := (Next(c, s, Advance(tid, w)), a.request);
      DecidedBy(s, s', tid, a)
  {
    var d := Decide(a.request, Grantable(a.first, a.second, a.answer.value), w);
    assert Follows(a, d) && ValidDecision(d) && SameBinding(a.request, d);
    RecordsDecision(c, s, tid, w, a.request, d);
  }

  /** And so is the lack of one. */
  lemma SilenceDecides(c: Config, s: System, tid: Id, w: World, r: Request, first: Option<Context>)
    requires Stands(s, tid, Authorizing(r, first)) && Undecided(s.store, r) && (first.None? || w.grants.None?)
    ensures DecidedBy(s, Next(c, s, Advance(tid, w)), tid, Exchange(r, first, None, AuthorizedBy(s.store, r)))
  {
    var d := Decide(r, None, w);
    assert Follows(Exchange(r, first, None, AuthorizedBy(s.store, r)), d) && ValidDecision(d) && SameBinding(r, d);
    RecordsDecision(c, s, tid, w, r, d);
  }

  /** The job, otherwise as it was, holds the request and the decision that follows
      the exchange, and the thread goes on with it. */
  ghost predicate DecidedBy(s: System, s': System, tid: Id, a: Exchange) {
    && a.request.job in s.store.jobs && a.request.job in s'.store.jobs
    && var (j, j') := (s.store.jobs[a.request.job], s'.store.jobs[a.request.job]);
    && j'.decision.Some? && Follows(a, j'.decision.value)
    && j' == j.(request := Some(a.request), decision := j'.decision, revision := j.revision + 1)
    && s'.store == s.store.(jobs := s.store.jobs[a.request.job := j'])
    && s'.threads == s.threads[tid := Decided(a.request, j'.decision.value)] && s'.invoked == s.invoked
  }

  lemma RecordsDecision(c: Config, s: System, tid: Id, w: World, r: Request, d: Decision)
    requires tid in s.threads && CallOf(c, s.threads[tid], w) == Some(Record(r.job, r, d))
    requires After(c, s.threads[tid], Recorded, s.store, w) == Decided(r, d) && !s.threads[tid].Decided?
    requires Undecided(s.store, r) && ValidDecision(d) && SameBinding(r, d)
    ensures var (s', j) := (Next(c, s, Advance(tid, w)), s.store.jobs[r.job]);
      && s'.store == s.store.(jobs := s.store.jobs[r.job := j.(request := Some(r), decision := Some(d), revision := j.revision + 1)])
      && s'.threads == s.threads[tid := Decided(r, d)] && s'.invoked == s.invoked
  {
    var j := s.store.jobs[r.job];
    assert RecordTo(j, r, d) == (j.(request := Some(r), decision := Some(d), revision := j.revision + 1), Recorded);
  }

  // ------------------------------------------------ an undisturbed gateway call

  /** The job is running for the request, with this decision and nothing else. */
  predicate Holds(s: Store, r: Request, d: Decision) {
    && AuthorizedBy(s, r).Some?
    && var j := s.jobs[r.job];
    j.request == Some(r) && j.decision == Some(d) && j.invocation.None?
  }

  /** The job has ended with this outcome and reason. */
  predicate EndedWith(s: Store, id: Id, outcome: Outcome, reason: Reason) {
    && id in s.jobs && s.jobs[id].result.Some? && s.jobs[id].result.value.outcome == outcome
    && s.jobs[id].state == (if outcome == StatusAvailable then Completed else Failed)
    && |s.jobs[id].transitions| > 0 && s.jobs[id].transitions[|s.jobs[id].transitions| - 1].reason == reason
  }

  /** The gateway reads the requester's record for a request of its own making. */
  lemma StartAsks(c: Config, s: System, tid: Id, j: Job, x: Id, w: World)
    requires Stands(s, tid, Started(j, x)) && c.environment == c.gateway
    ensures var r := AskedFor(c, j, x, w);
      Next(c, s, Advance(tid, w)) == s.(threads := s.threads[tid := Authorizing(r, AuthorizedBy(s.store, r))])
  {
    ContextMeans(s.store, AskedFor(c, j, x, w));
  }

  /** A denied job fails for the reason of its decision. */
  lemma DeniedEnds(c: Config, s: System, tid: Id, w: World, r: Request, d: Decision)
    requires Stands(s, tid, Decided(r, d)) && Holds(s.store, r, d) && d.verdict == Deny
    requires !s.store.jobs[r.job].invocationClaimed && !s.store.failCommit
    ensures var s' := Next(c, s, Advance(tid, w));
      && s'.invoked == s.invoked && Stands(s', tid, Done)
      && if d.reason == GrantUnavailable then EndedWith(s'.store, r.job, UnavailableOutcome, AuthorizationUnavailable)
         else EndedWith(s'.store, r.job, DeniedOutcome, CapabilityDenied)
  {
  }

  /** A permitted job has its worker called. */
  lemma PermittedInvokes(c: Config, s: System, tid: Id, w: World, r: Request, d: Decision)
    requires Stands(s, tid, Decided(r, d)) && Holds(s.store, r, d) && d.verdict == Allow && SameBinding(r, d)
    requires !s.store.jobs[r.job].invocationClaimed && !s.store.failClaim
    ensures var s' := Next(c, s, Advance(tid, w));
      && s'.invoked == s.invoked + multiset{r.job} && Stands(s', tid, Working(r))
      && Holds(s'.store, r, d) && s'.store.jobs[r.job].invocationClaimed && s'.store.failCommit == s.store.failCommit
  {
  }

  function OutcomeFor(a: WorkerAnswer): Outcome {
    if a == Answered(true) then StatusAvailable else if a == Unusable then WorkerInvalid else WorkerUnavailable
  }

  function ReasonOf(o: Outcome): Reason {
    if o == StatusAvailable then ExecutionCompleted else if o == WorkerInvalid then WorkerResultInvalid else WorkerFailed
  }

  /** The worker's answer ends the job: completed only when it is available. */
  lemma WorkerEnds(c: Config, s: System, tid: Id, w: World, r: Request, d: Decision)
    requires Stands(s, tid, Working(r)) && Holds(s.store, r, d) && d.verdict == Allow
    requires s.store.jobs[r.job].invocationClaimed && !s.store.failCommit
    ensures var s' := Next(c, s, Advance(tid, w));
      && s'.invoked == s.invoked && Stands(s', tid, Done)
      && EndedWith(s'.store, r.job, OutcomeFor(w.worker), ReasonOf(OutcomeFor(w.worker)))
  {
  }

  /** Five turns of one thread with nothing in between. */
  function FiveTurns(c: Config, s: System, tid: Id, w: seq<World>): System
    requires |w| == 5
  {
    Next(c, Next(c, Next(c, Next(c, Next(c, s, Advance(tid, w[0])), Advance(tid, w[1])), Advance(tid, w[2])), Advance(tid, w[3])), Advance(tid, w[4]))
  }

  lemma DoneStays(c: Config, s: System, tid: Id, w: World)
    requires Stands(s, tid, Done)
    ensures Next(c, s, Advance(tid, w)) == s
  {
    assert s.threads[tid := Done] == s.threads;
  }

  /** A started job in a service without faults, left alone: without an answer of
      the provider it fails as unavailable, without its capability in the answer as
      denied, and otherwise its worker is called once and decides. */
  lemma UndisturbedGateway(c: Config, s: System, tid: Id, j: Job, x: Id, w: seq<World>)
    requires |w| == 5 && Stands(s, tid, Started(j, x)) && c.environment == c.gateway
    requires !s.store.failClaim && !s.store.failCommit && Undecided(s.store, AskedFor(c, j, x, w[0]))
    ensures var (s', id) := (FiveTurns(c, s, tid, w), j.envelope.job);
      var permitted := w[1].grants.Some? && j.envelope.execution.capability == STATUS_READ && STATUS_READ in w[1].grants.value.capabilities;
      && s'.invoked == (if permitted then s.invoked + multiset{id} else s.invoked)
      && (w[1].grants.None? ==> EndedWith(s'.store, id, UnavailableOutcome, AuthorizationUnavailable))
      && (w[1].grants.Some? && !permitted ==> EndedWith(s'.store, id, DeniedOutcome, CapabilityDenied))
      && (permitted ==> EndedWith(s'.store, id, OutcomeFor(w[4].worker), ReasonOf(OutcomeFor(w[4].worker))))
  {
    var r := AskedFor(c, j, x, w[0]);
    var first := AuthorizedBy(s.store, r);
    StartAsks(c, s, tid, j, x, w[0]);
    var s1 := Next(c, s, Advance(tid, w[0]));
    var s2 := Next(c, s1, Advance(tid, w[1]));
    var s3 := Next(c, s2, Advance(tid, w[2]));
    var s4 := Next(c, s3, Advance(tid, w[3]));
    if w[1].grants.None? {
      SilenceDecides(c, s1, tid, w[1], r, first);
      DeniedEnds(c, s2, tid, w[2], r, s2.threads[tid].decision);
      DoneStays(c, s3, tid, w[3]);
      DoneStays(c, s3, tid, w[4]);
    } else {
      var a := Exchange(r, first, w[1].grants, first);
      AnswerIsKept(c, s1, tid, w[1], r, first.value);
      AnswerDecides(c, s2, tid, w[2], a);
      var d := s3.threads[tid].decision;
      if d.verdict == Deny {
        DeniedEnds(c, s3, tid, w[3], r, d);
        DoneStays(c, s4, tid, w[4]);
      } else {
        PermittedInvokes(c, s3, tid, w[3], r, d);
        WorkerEnds(c, s4, tid, w[4], r, d);
      }
    }
  }
}
