// The workforce service over its store: lifecycle, role and qualification
// changes with idempotent, possibly ambiguous commits, and what every run of
// them keeps.

module WorkforceService {
  import opened Common
  import opened WorkforceStore

  // --------------------------------------------------------------- requests

  datatype Expiry = Keep | SetTo(at: Option<Time>)

  /** An optional text argument as the caller passed it. */
  datatype Field = Omitted | Null | Given(text: string)

  /** The server-filtered arguments of a mutation. */
  datatype Request =
    | CreateRecord(agent: string, status: Option<Lifecycle>, role: Option<string>, department: Option<string>, operation: Id, authorization: Option<Id>)
    | ChangeLifecycle(agent: string, status: Option<Lifecycle>, expected: Option<int>, operation: Id, authorization: Option<Id>)
    | ChangeRole(agent: string, newRole: Field, newDepartment: Field, expected: Option<int>, operation: Id, authorization: Option<Id>)
    | CreateQualification(id: Id, agent: string, capability: string, standing: Standing, source: Id, effectiveAt: Option<Time>,
                          expiresAt: Option<Time>, operation: Id, authorization: Option<Id>)
    | ChangeQualification(id: Id, expected: Option<int>, newStanding: Option<Standing>, expiry: Expiry, operation: Id, authorization: Option<Id>)
    | EvaluateAgentOps(id: Id, agent: string, operation: Id)

  /** What the snapshot writes for an argument that is not there. */
  const MARKER := "[not-serializable]"

  function Snapshot(f: Field): Field {
    if f.Omitted? then Given(MARKER) else f
  }

  /** The fingerprint of a request is the hash of a snapshot of its arguments.
      Only a role change has optional arguments that are neither defaulted to
      null nor, for well-formed values, told apart from the marker. */
  function Fingerprint(r: Request): Request {
    if r.ChangeRole? then r.(newRole := Snapshot(r.newRole), newDepartment := Snapshot(r.newDepartment)) else r
  }

  predicate Unmarked(r: Request) {
    r.ChangeRole? ==> r.newRole != Given(MARKER) && r.newDepartment != Given(MARKER)
  }

  predicate SameField(f: Field, g: Field) {
    f == g || (f in {Omitted, Given(MARKER)} && g in {Omitted, Given(MARKER)})
  }

  /** Two requests share a fingerprint exactly when they differ at most in
      omitting a role or department where the other spells the marker, so
      distinct requests that do not spell it have distinct fingerprints. */
  lemma SameFingerprintIff(r: Request, q: Request)
    ensures Fingerprint(r) == Fingerprint(q) <==>
      r == q || (r.ChangeRole? && q.ChangeRole? && SameField(r.newRole, q.newRole) && SameField(r.newDepartment, q.newDepartment)
                 && r.(newRole := q.newRole, newDepartment := q.newDepartment) == q)
    ensures Unmarked(r) && Unmarked(q) ==> (Fingerprint(r) == Fingerprint(q) <==> r == q)
  {
  }

  /** A write either reports honestly, or is lost, or lands and is not reported. */
  datatype Fault = Honest | Lost | Unreported

  datatype Identity = Identity(role: string, department: string)

  /** What the outside supplies: trusted time, the authorizer's word, the
      resolved identity, the evidence window's verdict, the store's faults. */
  datatype World = World(
    now: Time, authorized: Option<Id>, identity: Option<Identity>, state: Id, token: Id, first: Fault, second: Fault)

  datatype Reason =
    | WorkforceInvalid | NotFound | Stale | NoOpTransition | TransitionNotAllowed | AuthorizationDenied | IdentityUnresolved
    | OperationConflict | ReconciliationRequired | Exists

  datatype Outcome = Recorded(value: Value, replayed: bool) | Refused(reason: Reason)

  datatype Proposal = Refuse(reason: Reason) | Propose(value: Value, basis: Option<int>, superseded: Option<Past>)

  // --------------------------------------------------- what each one proposes

  function PastOf(v: Value): Past
    requires !v.Evaluation?
  {
    if v.Worker? then PastRecord(v.status, v.role, v.department, v.effectiveAt, v.revision)
    else PastQualification(v.standing, v.source, v.effectiveAt, v.expiresAt, v.revision)
  }

  /** The last 64 entries. */
  function Tail(h: seq<Past>): seq<Past> {
    if |h| <= MAX_TRANSITIONS then h else h[|h| - MAX_TRANSITIONS..]
  }

  function Or<T>(o: Option<T>, otherwise: T): T {
    if o.Some? then o.value else otherwise
  }

  function Effective(f: Field, otherwise: string): string {
    if f.Given? then f.text else otherwise
  }

  function Worker0(current: map<Key, Value>, agent: string): Option<Value> {
    var k := WorkerKey(agent);
    if k in current && current[k].Worker? then Some(current[k]) else None
  }

  function Next(v: Value, status: Lifecycle, role: string, department: string, now: Time): Value
    requires v.Worker?
  {
    Worker(v.agent, status, role, department, now, v.revision + 1, now, Tail(v.history + [PastOf(v)]))
  }

  function CreateRecordProposal(r: Request, w: World): Proposal
    requires r.CreateRecord?
  {
    if !Identifier(r.agent) || r.status.None? then Refuse(WorkforceInvalid)
    else if w.identity.None? then Refuse(IdentityUnresolved)
    else if w.authorized.None? then Refuse(AuthorizationDenied)
    else Propose(Worker(r.agent, r.status.value, Or(r.role, w.identity.value.role), Or(r.department, w.identity.value.department),
                        w.now, 1, w.now, []), None, None)
  }

  function LifecycleProposal(current: map<Key, Value>, r: Request, w: World): Proposal
    requires r.ChangeLifecycle?
  {
    var v := Worker0(current, r.agent);
    if v.None? then Refuse(NotFound)
    else if r.expected != Some(v.value.revision as int) then Refuse(Stale)
    else if r.status.None? then Refuse(WorkforceInvalid)
    else if r.status.value == v.value.status then Refuse(NoOpTransition)
    else if !TransitionAllowed(v.value.status, r.status.value) then Refuse(TransitionNotAllowed)
    else if w.authorized.None? then Refuse(AuthorizationDenied)
    else Propose(Next(v.value, r.status.value, v.value.role, v.value.department, w.now), r.expected, Some(PastOf(v.value)))
  }

  function RoleProposal(current: map<Key, Value>, r: Request, w: World): Proposal
    requires r.ChangeRole?
  {
    var v := Worker0(current, r.agent);
    if v.None? then Refuse(NotFound)
    else if r.expected != Some(v.value.revision as int) then Refuse(Stale)
    else if r.newRole.Omitted? && r.newDepartment.Omitted? then Refuse(WorkforceInvalid)
    else
      var role, department := Effective(r.newRole, v.value.role), Effective(r.newDepartment, v.value.department);
      if role == v.value.role && department == v.value.department then Refuse(NoOpTransition)
      else if w.authorized.None? then Refuse(AuthorizationDenied)
      else Propose(Next(v.value, v.value.status, role, department, w.now), r.expected, Some(PastOf(v.value)))
  }

  function CreateQualificationProposal(current: map<Key, Value>, r: Request, w: World): Proposal
    requires r.CreateQualification?
  {
    if !Identifier(r.agent) || !Identifier(r.capability) then Refuse(WorkforceInvalid)
    else if Worker0(current, r.agent).None? then Refuse(NotFound)
    else if w.authorized.None? then Refuse(AuthorizationDenied)
    else Propose(Qualification(r.id, r.agent, r.capability, r.standing, r.source, Or(r.effectiveAt, w.now), r.expiresAt, 1, w.now,
                               w.authorized.value), None, None)
  }

  function ChangeQualificationProposal(current: map<Key, Value>, r: Request, w: World): Proposal
    requires r.ChangeQualification?
  {
    var k := QualificationKey(r.id);
    if k !in current || !current[k].Qualification? then Refuse(NotFound)
    else
      var v := current[k];
      if r.expected != Some(v.revision as int) then Refuse(Stale)
      else if r.newStanding.None? && r.expiry.Keep? then Refuse(WorkforceInvalid)
      else if r.newStanding == Some(v.standing) && r.expiry.Keep? then Refuse(NoOpTransition)
      else if w.authorized.None? then Refuse(AuthorizationDenied)
      else
        var expires := if r.expiry.Keep? then v.expiresAt else r.expiry.at;
        Propose(v.(standing := Or(r.newStanding, v.standing), expiresAt := expires, updatedAt := w.now, revision := v.revision + 1,
                   authorization := w.authorized.value), r.expected, Some(PastOf(v)))
  }

  function EvaluationProposal(current: map<Key, Value>, r: Request, w: World): Proposal
    requires r.EvaluateAgentOps?
  {
    if Worker0(current, r.agent).None? then Refuse(NotFound)
    else Propose(Evaluation(r.id, r.agent, w.state, w.now, w.token), None, None)
  }

  function ProposalFor(current: map<Key, Value>, r: Request, w: World): Proposal {
    match r
    case CreateRecord(_, _, _, _, _, _) => CreateRecordProposal(r, w)
    case ChangeLifecycle(_, _, _, _, _) => LifecycleProposal(current, r, w)
    case ChangeRole(_, _, _, _, _, _) => RoleProposal(current, r, w)
    case CreateQualification(_, _, _, _, _, _, _, _, _) => CreateQualificationProposal(current, r, w)
    case ChangeQualification(_, _, _, _, _, _) => ChangeQualificationProposal(current, r, w)
    case EvaluateAgentOps(_, _, _) => EvaluationProposal(current, r, w)
  }

  // ------------------------------------------------------------ committing

  type Records = Store<Request>

  function AttemptIn(s: Records, p: Put<Request>, fault: Fault): (Records, Disposition) {
    match fault
    case Honest => PutIn(s, p)
    case Lost => (s, Ambiguous)
    case Unreported => (PutIn(s, p).0, Ambiguous)
  }

  function Answer(d: Disposition, v: Value): Outcome {
    match d
    case Created => Recorded(v, false)
    case Updated => Recorded(v, false)
    case Replayed(prior) => Recorded(prior, true)
    case OpConflict => Refused(OperationConflict)
    case StaleRevision => Refused(Stale)
    case AlreadyExists => Refused(Exists)
    case Invalid => Refused(WorkforceInvalid)
    case Ambiguous => Refused(ReconciliationRequired)
  }

  predicate RevisionUnchanged(s: Records, k: Key, basis: Option<int>) {
    if basis.None? then k !in s.current
    else k in s.current && !s.current[k].Evaluation? && s.current[k].revision == basis.value
  }

  /** Attempt; on an ambiguous answer read the operation back, and try the same
      operation once more only while the revision has not moved. */
  function CommitIn(s: Records, p: Put<Request>, w: World): (Records, Outcome) {
    if !ValidValue(p.value) then (s, Refused(WorkforceInvalid))
    else
      var (s1, d1) := AttemptIn(s, p, w.first);
      if d1 != Ambiguous then (s1, Answer(d1, p.value))
      else if p.operation in s1.operations then (s1, Recorded(s1.operations[p.operation].value, true))
      else if !RevisionUnchanged(s1, KeyOf(p.value), p.expected) then (s1, Refused(ReconciliationRequired))
      else
        var (s2, d2) := AttemptIn(s1, p, w.second);
        if d2 == Ambiguous && p.operation in s2.operations then (s2, Recorded(s2.operations[p.operation].value, true))
        else (s2, Answer(d2, p.value))
  }

  function Serve(s: Records, r: Request, w: World): (Records, Outcome) {
    if r.operation in s.operations then
      (s, if s.operations[r.operation].fingerprint == Fingerprint(r) then Recorded(s.operations[r.operation].value, true) else Refused(OperationConflict))
    else
      match ProposalFor(s.current, r, w)
      case Refuse(reason) => (s, Refused(reason))
      case Propose(value, basis, superseded) => CommitIn(s, Put(value, basis, r.operation, Fingerprint(r), superseded), w)
  }

  datatype Step = Step(request: Request, world: World)

  function RunService(steps: seq<Step>): Records
    decreases |steps|
  {
    if steps == [] then Empty()
    else Serve(RunService(steps[..|steps| - 1]), steps[|steps| - 1].request, steps[|steps| - 1].world).0
  }

  // ------------------------------------------------------------- invariant

  predicate Numbered(past: seq<Past>) {
    forall i :: 0 <= i < |past| ==> past[i].revision == i + 1
  }

  predicate MayFollow(from: Lifecycle, to: Lifecycle) {
    from == to || TransitionAllowed(from, to)
  }

  predicate Lived(past: seq<Past>, status: Lifecycle) {
    && (forall i :: 0 <= i < |past| ==> past[i].PastRecord?)
    && forall i {:trigger LivedAt(past, status, i)} :: 0 <= i < |past| ==> LivedAt(past, status, i)
  }

  /** The step out of the `i`-th superseded status. */
  predicate LivedAt(past: seq<Past>, status: Lifecycle, i: nat)
    requires i < |past| && forall n :: 0 <= n < |past| ==> past[n].PastRecord?
  {
    MayFollow(past[i].status, if i + 1 < |past| then past[i + 1].status else status)
  }

  /** A record at revision n has stored history numbered 1..n-1. */
  predicate RecordOk(k: Key, v: Value, past: seq<Past>) {
    && KeyOf(v) == k
    && match v
       case Worker(_, status, _, _, _, revision, _, history) =>
         |past| == revision - 1 && Numbered(past) && Lived(past, status) && history == Tail(past)
       case Qualification(_, _, _, _, _, _, _, revision, _, _) =>
         |past| == revision - 1 && Numbered(past) && forall i :: 0 <= i < |past| ==> past[i].PastQualification?
       case Evaluation(_, _, _, _, _) => past == []
  }

  function PastIn(past: map<Key, seq<Past>>, k: Key): seq<Past> {
    if k in past then past[k] else []
  }

  ghost predicate Histories(current: map<Key, Value>, past: map<Key, seq<Past>>) {
    && (forall k {:trigger current[k]} :: k in current ==> RecordOk(k, current[k], PastIn(past, k)))
    && (forall k :: k in past ==> k in current)
  }

  ghost predicate Kept(s: Records) {
    Histories(s.current, s.past) && Indexed(s)
  }

  /** What the service writes: a first revision, or the next one with the
      current truth superseded. */
  predicate GoodPut(current: map<Key, Value>, p: Put<Request>) {
    var k, v := KeyOf(p.value), p.value;
    match p.superseded
    case None => p.expected.None? && (v.Worker? ==> v.history == [])
    case Some(past) =>
      && k in current && !v.Evaluation? && !current[k].Evaluation? && past == PastOf(current[k])
      && v.revision == current[k].revision + 1 && p.expected == Some(current[k].revision as int)
      && (v.Worker? <==> current[k].Worker?)
      && (v.Worker? ==> v.history == Tail(current[k].history + [past]) && MayFollow(current[k].status, v.status))
  }

  lemma TailOfTail(h: seq<Past>, x: Past)
    ensures Tail(Tail(h) + [x]) == Tail(h + [x])
  {
  }

  lemma NumberedGrows(past: seq<Past>, x: Past)
    requires Numbered(past) && x.revision == |past| + 1
    ensures Numbered(past + [x])
  {
  }

  lemma LivedGrows(past: seq<Past>, x: Past, status: Lifecycle)
    requires x.PastRecord? && Lived(past, x.status) && MayFollow(x.status, status)
    ensures Lived(past + [x], status)
  {
    var all := past + [x];
    forall i | 0 <= i < |all|
      ensures LivedAt(all, status, i)
    {
      if i < |past| {
        assert LivedAt(past, x.status, i);
        assert i + 1 < |past| ==> all[i + 1] == past[i + 1];
      }
    }
  }

  lemma NextOk(k: Key, v: Value, past: seq<Past>, p: Put<Request>)
    requires RecordOk(k, v, past) && !v.Evaluation? && KeyOf(p.value) == k
    requires p.superseded == Some(PastOf(v)) && GoodPut(map[k := v], p)
    ensures RecordOk(k, p.value, past + [PastOf(v)])
  {
    NumberedGrows(past, PastOf(v));
    if v.Worker? {
      TailOfTail(past, PastOf(v));
      LivedGrows(past, PastOf(v), p.value.status);
    }
  }

  lemma HistoriesKept(s: Records, p: Put<Request>)
    requires Histories(s.current, s.past) && GoodPut(s.current, p) && Refusal(s, p).None?
    ensures Histories(Written(s, p).current, Written(s, p).past)
  {
    var k, t := KeyOf(p.value), Written(s, p);
    assert t.current == s.current[k := p.value];
    if p.superseded.Some? {
      assert RecordOk(k, s.current[k], PastIn(s.past, k));
      NextOk(k, s.current[k], PastIn(s.past, k), p);
    } else {
      assert k !in s.current && PastIn(t.past, k) == [];
    }
    forall q | q in t.current
      ensures RecordOk(q, t.current[q], PastIn(t.past, q))
    {
      if q != k {
        assert RecordOk(q, s.current[q], PastIn(s.past, q)) && PastIn(t.past, q) == PastIn(s.past, q);
      }
    }
  }

  // ----------------------------------------------- all or nothing, once

  predicate Accepts(s: Records, p: Put<Request>) {
    p.operation !in s.operations && ValidValue(p.value) && Refusal(s, p).None?
  }

  lemma AttemptShape(s: Records, p: Put<Request>, fault: Fault)
    requires p.operation !in s.operations && ValidValue(p.value)
    ensures var (t, d) := AttemptIn(s, p, fault);
      && (t == s || (Accepts(s, p) && t == Written(s, p)))
      && (d.Created? || d.Updated? ==> Accepts(s, p) && t == Written(s, p))
      && !d.Replayed? && (!d.Created? && !d.Updated? && !d.Ambiguous? ==> t == s)
  {
  }

  /** A commit either lands whole and is recorded, or changes nothing and is
      refused, however the store behaves. */
  lemma CommitShape(s: Records, p: Put<Request>, w: World)
    requires p.operation !in s.operations
    ensures var (t, out) := CommitIn(s, p, w);
      if out.Recorded? then Accepts(s, p) && t == Written(s, p) && out.value == p.value else t == s
  {
    if ValidValue(p.value) {
      AttemptShape(s, p, w.first);
      if AttemptIn(s, p, w.first).0 == s {
        AttemptShape(s, p, w.second);
      }
    }
  }

  lemma ProposalGood(s: Records, r: Request, w: World)
    requires Filed(s.current)
    ensures var proposal := ProposalFor(s.current, r, w);
      proposal.Propose? ==> GoodPut(s.current, Put(proposal.value, proposal.basis, r.operation, Fingerprint(r), proposal.superseded))
  {
  }

  function PutFor(r: Request, proposal: Proposal): Put<Request>
    requires proposal.Propose?
  {
    Put(proposal.value, proposal.basis, r.operation, Fingerprint(r), proposal.superseded)
  }

  /** The same for a whole request: with a new operation id, recorded means
      exactly its proposal was written, and refused that nothing was. */
  lemma ServeShape(s: Records, r: Request, w: World)
    requires r.operation !in s.operations
    ensures var ((t, out), proposal) := (Serve(s, r, w), ProposalFor(s.current, r, w));
      if out.Recorded? then proposal.Propose? && Accepts(s, PutFor(r, proposal)) && t == Written(s, PutFor(r, proposal)) && out.value == proposal.value
      else t == s
  {
    var proposal := ProposalFor(s.current, r, w);
    if proposal.Propose? {
      CommitShape(s, PutFor(r, proposal), w);
    }
  }

  lemma ServeKept(s: Records, r: Request, w: World)
    requires Kept(s)
    ensures Kept(Serve(s, r, w).0)
  {
    if r.operation !in s.operations {
      ServeShape(s, r, w);
      var proposal := ProposalFor(s.current, r, w);
      if Serve(s, r, w).1.Recorded? {
        ProposalGood(s, r, w);
        HistoriesKept(s, PutFor(r, proposal));
        PutKeepsIndexes(s, PutFor(r, proposal));
      }
    }
  }

  /** Over every run, whatever the store loses or fails to report: histories
      numbered 1..n-1, the embedded history their last min(64, n-1) entries,
      lifecycle steps only allowed ones, and both indexes equal to a scan. */
  lemma {:induction false} EveryRunKept(steps: seq<Step>)
    ensures Kept(RunService(steps))
    decreases |steps|
  {
    if steps != [] {
      EveryRunKept(steps[..|steps| - 1]);
      ServeKept(RunService(steps[..|steps| - 1]), steps[|steps| - 1].request, steps[|steps| - 1].world);
    }
  }

  /** The reading of `Kept` on one workforce record. */
  lemma RecordHistory(steps: seq<Step>, agent: string)
    requires WorkerKey(agent) in RunService(steps).current
    ensures var s, k := RunService(steps), WorkerKey(agent);
      && s.current[k].Worker? && |PastIn(s.past, k)| == s.current[k].revision - 1
      && Numbered(PastIn(s.past, k)) && Lived(PastIn(s.past, k), s.current[k].status)
      && s.current[k].history == Tail(PastIn(s.past, k))
      && |s.current[k].history| == if s.current[k].revision - 1 <= 64 then s.current[k].revision - 1 else 64
  {
    EveryRunKept(steps);
    assert RecordOk(WorkerKey(agent), RunService(steps).current[WorkerKey(agent)],
                    PastIn(RunService(steps).past, WorkerKey(agent)));
  }

  // ---------------------------------------------------- idempotent operations

  /** A committed operation keeps its result, and asking again with the same
      request gives that result and writes nothing; with another, nothing. */
  lemma OperationsStick(s: Records, r: Request, w: World, op: Id)
    requires op in s.operations
    ensures var t := Serve(s, r, w).0; op in t.operations && t.operations[op] == s.operations[op]
    ensures r.operation == op ==> Serve(s, r, w).0 == s
    ensures r.operation == op && s.operations[op].fingerprint == Fingerprint(r) ==> Serve(s, r, w).1 == Recorded(s.operations[op].value, true)
    ensures r.operation == op && s.operations[op].fingerprint != Fingerprint(r) ==> Serve(s, r, w).1 == Refused(OperationConflict)
  {
    if r.operation !in s.operations {
      ServeShape(s, r, w);
    }
  }

  /** In terms of requests: an operation id that was committed for `r` answers `r`
      with its result and anything else with a conflict, as long as neither
      spells the snapshot's marker. */
  lemma ReuseConflictsUnlessSame(s: Records, r: Request, q: Request, w: World)
    requires r.operation in s.operations && s.operations[r.operation].fingerprint == Fingerprint(r)
    requires q.operation == r.operation && Unmarked(r) && Unmarked(q)
    ensures Serve(s, q, w) == (s, if q == r then Recorded(s.operations[r.operation].value, true) else Refused(OperationConflict))
  {
    SameFingerprintIff(r, q);
  }

  /** A role that is the marker's own text is taken for an omitted one: the
      second request is different and is answered as a repetition of the first. */
  lemma MarkerIsReplayed(s: Records, r: Request, q: Request, w: World)
    requires r.operation in s.operations && s.operations[r.operation].fingerprint == Fingerprint(r)
    requires r.ChangeRole? && r.newRole.Omitted? && q == r.(newRole := Given(MARKER))
    ensures q != r && Serve(s, q, w) == (s, Recorded(s.operations[r.operation].value, true))
  {
    SameFingerprintIff(r, q);
  }

  /** Every recorded answer is the operation's committed value, and it is
      current at the moment it is first committed. */
  lemma RecordedIsCommitted(s: Records, r: Request, w: World)
    requires Serve(s, r, w).1.Recorded?
    ensures var (t, out) := Serve(s, r, w);
      && r.operation in t.operations && t.operations[r.operation].value == out.value
      && t.operations[r.operation].fingerprint == Fingerprint(r)
      && (r.operation !in s.operations ==> KeyOf(out.value) in t.current && t.current[KeyOf(out.value)] == out.value)
  {
    if r.operation !in s.operations {
      ServeShape(s, r, w);
    }
  }

  /** A refusal writes nothing. */
  lemma RefusedWritesNothing(s: Records, r: Request, w: World)
    requires Serve(s, r, w).1.Refused?
    ensures Serve(s, r, w).0 == s
  {
    if r.operation !in s.operations {
      ServeShape(s, r, w);
    }
  }

  /** Stored history only grows, and superseded entries are never rewritten. */
  lemma HistoryGrows(s: Records, r: Request, w: World, k: Key)
    ensures PastIn(s.past, k) <= PastIn(Serve(s, r, w).0.past, k)
  {
    if r.operation !in s.operations {
      ServeShape(s, r, w);
    }
  }

  // -------------------------------------------------------- retired is final

  ghost predicate RetiredIn(current: map<Key, Value>, agent: string) {
    Worker0(current, agent).Some? && Worker0(current, agent).value.status == Retired
  }

  lemma RetiredServe(s: Records, r: Request, w: World, agent: string)
    requires Filed(s.current) && RetiredIn(s.current, agent)
    ensures RetiredIn(Serve(s, r, w).0.current, agent)
  {
    if r.operation !in s.operations && Serve(s, r, w).1.Recorded? {
      ServeShape(s, r, w);
      ProposalGood(s, r, w);
      var p := PutFor(r, ProposalFor(s.current, r, w));
      RetiredWritten(s, p, agent);
    }
    if r.operation !in s.operations && Serve(s, r, w).1.Refused? {
      ServeShape(s, r, w);
    }
  }

  lemma RetiredWritten(s: Records, p: Put<Request>, agent: string)
    requires Filed(s.current) && RetiredIn(s.current, agent) && GoodPut(s.current, p) && Refusal(s, p).None?
    ensures RetiredIn(Written(s, p).current, agent)
  {
    assert Written(s, p).current == s.current[KeyOf(p.value) := p.value];
  }

  /** No request brings a retired worker back, whatever follows. */
  lemma {:induction false} RetiredIsFinal(steps: seq<Step>, more: seq<Step>, agent: string)
    requires RetiredIn(RunService(steps).current, agent)
    ensures RetiredIn(RunService(steps + more).current, agent)
    decreases |more|
  {
    if more == [] {
      assert steps + more == steps;
    } else {
      var front, last := more[..|more| - 1], more[|more| - 1];
      RetiredIsFinal(steps, front, agent);
      assert (steps + more)[..|steps + more| - 1] == steps + front;
      EveryRunKept(steps + front);
      RetiredServe(RunService(steps + front), last.request, last.world, agent);
    }
  }

  // ------------------------------------------------------------ the service

  class Service {
    const store: SimulatorWorkforceStore<Request>

    constructor (records: SimulatorWorkforceStore<Request>)
      ensures store == records
    {
      store := records;
    }

    method Attempt(p: Put<Request>, fault: Fault) returns (d: Disposition)
      modifies store
      ensures (store.Contents(), d) == AttemptIn(old(store.Contents()), p, fault)
    {
      if fault.Lost? {
        return Ambiguous;
      }
      d := store.Put(p);
      if fault.Unreported? {
        d := Ambiguous;
      }
    }

    method Commit(p: Put<Request>, w: World) returns (out: Outcome)
      modifies store
      ensures (store.Contents(), out) == CommitIn(old(store.Contents()), p, w)
    {
      if !ValidValue(p.value) {
        return Refused(WorkforceInvalid);
      }
      var d := Attempt(p, w.first);
      if d == Ambiguous {
        if p.operation in store.operations {
          return Recorded(store.operations[p.operation].value, true);
        }
        if !RevisionUnchanged(store.Contents(), KeyOf(p.value), p.expected) {
          return Refused(ReconciliationRequired);
        }
        d := Attempt(p, w.second);
        if d == Ambiguous && p.operation in store.operations {
          return Recorded(store.operations[p.operation].value, true);
        }
      }
      return Answer(d, p.value);
    }

    /** What an operation id already stands for, if anything. */
    method ReplayOperation(r: Request) returns (out: Option<Outcome>)
      ensures out.Some? <==> r.operation in store.operations
      ensures out.Some? ==> Serve(store.Contents(), r, World(0, None, None, 0, 0, Honest, Honest)) == (store.Contents(), out.value)
    {
      if r.operation !in store.operations {
        return None;
      }
      var prior := store.operations[r.operation];
      return Some(if prior.fingerprint == Fingerprint(r) then Recorded(prior.value, true) else Refused(OperationConflict));
    }

    method ChangeLifecycle(r: Request, w: World) returns (out: Outcome)
      requires r.ChangeLifecycle?
      modifies store
      ensures (store.Contents(), out) == Serve(old(store.Contents()), r, w)
    {
      var replay := ReplayOperation(r);
      if replay.Some? {
        return replay.value;
      }
      var current := Worker0(store.current, r.agent);
      if current.None? {
        return Refused(NotFound);
      }
      var was := current.value;
      if r.expected != Some(was.revision as int) {
        return Refused(Stale);
      }
      if r.status.None? {
        return Refused(WorkforceInvalid);
      }
      if r.status.value == was.status {
        return Refused(NoOpTransition);
      }
      if !TransitionAllowed(was.status, r.status.value) {
        return Refused(TransitionNotAllowed);
      }
      if w.authorized.None? {
        return Refused(AuthorizationDenied);
      }
      var superseded := PastRecord(was.status, was.role, was.department, was.effectiveAt, was.revision);
      var record := was.(status := r.status.value, effectiveAt := w.now, updatedAt := w.now, revision := was.revision + 1,
                         history := Tail(was.history + [superseded]));
      out := Commit(Put(record, r.expected, r.operation, Fingerprint(r), Some(superseded)), w);
    }

    method ChangeRole(r: Request, w: World) returns (out: Outcome)
      requires r.ChangeRole?
      modifies store
      ensures (store.Contents(), out) == Serve(old(store.Contents()), r, w)
    {
      var replay := ReplayOperation(r);
      if replay.Some? {
        return replay.value;
      }
      var current := Worker0(store.current, r.agent);
      if current.None? {
        return Refused(NotFound);
      }
      var was := current.value;
      if r.expected != Some(was.revision as int) {
        return Refused(Stale);
      }
      if r.newRole.Omitted? && r.newDepartment.Omitted? {
        return Refused(WorkforceInvalid);
      }
      if Effective(r.newRole, was.role) == was.role && Effective(r.newDepartment, was.department) == was.department {
        return Refused(NoOpTransition);
      }
      if w.authorized.None? {
        return Refused(AuthorizationDenied);
      }
      var superseded := PastRecord(was.status, was.role, was.department, was.effectiveAt, was.revision);
      var record := was.(role := Effective(r.newRole, was.role), department := Effective(r.newDepartment, was.department), effectiveAt := w.now,
                         updatedAt := w.now, revision := was.revision + 1, history := Tail(was.history + [superseded]));
      out := Commit(Put(record, r.expected, r.operation, Fingerprint(r), Some(superseded)), w);
    }

    method ChangeQualification(r: Request, w: World) returns (out: Outcome)
      requires r.ChangeQualification?
      modifies store
      ensures (store.Contents(), out) == Serve(old(store.Contents()), r, w)
    {
      var replay := ReplayOperation(r);
      if replay.Some? {
        return replay.value;
      }
      var key := QualificationKey(r.id);
      if key !in store.current || !store.current[key].Qualification? {
        return Refused(NotFound);
      }
      var was := store.current[key];
      if r.expected != Some(was.revision as int) {
        return Refused(Stale);
      }
      if r.newStanding.None? && r.expiry.Keep? {
        return Refused(WorkforceInvalid);
      }
      if r.newStanding == Some(was.standing) && r.expiry.Keep? {
        return Refused(NoOpTransition);
      }
      if w.authorized.None? {
        return Refused(AuthorizationDenied);
      }
      var superseded := PastQualification(was.standing, was.source, was.effectiveAt, was.expiresAt, was.revision);
      var record := was.(standing := Or(r.newStanding, was.standing), updatedAt := w.now, revision := was.revision + 1,
                         authorization := w.authorized.value);
      if r.expiry.SetTo? {
        record := record.(expiresAt := r.expiry.at);
      }
      assert ProposalFor(store.current, r, w) == Propose(record, r.expected, Some(superseded));
      out := Commit(Put(record, r.expected, r.operation, Fingerprint(r), Some(superseded)), w);
    }

    method CreateWorkforceRecord(r: Request, w: World) returns (out: Outcome)
      requires r.CreateRecord?
      modifies store
      ensures (store.Contents(), out) == Serve(old(store.Contents()), r, w)
    {
      var replay := ReplayOperation(r);
      if replay.Some? {
        return replay.value;
      }
      if !Identifier(r.agent) || r.status.None? {
        return Refused(WorkforceInvalid);
      }
      if w.identity.None? {
        return Refused(IdentityUnresolved);
      }
      if w.authorized.None? {
        return Refused(AuthorizationDenied);
      }
      var record := Worker(r.agent, r.status.value, Or(r.role, w.identity.value.role),
                           Or(r.department, w.identity.value.department), w.now, 1, w.now, []);
      out := Commit(Put(record, None, r.operation, Fingerprint(r), None), w);
    }
  }
}
