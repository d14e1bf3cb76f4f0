// What each workforce request does to the records, over every run: which refusal
// comes first, what the new record says, and what becomes of it when the store
// loses a write or does not report it.

module WorkforceMeaning {
  import opened Common
  import opened WorkforceStore
  import opened WorkforceService

  // --------------------------------------------------- every record is valid

  ghost predicate AllValid(current: map<Key, Value>) {
    forall k {:trigger current[k]} :: k in current ==> ValidValue(current[k])
  }

  lemma {:induction false} EveryRecordValid(steps: seq<Step>)
    ensures AllValid(RunService(steps).current)
    decreases |steps|
  {
    if steps != [] {
      var s, last := RunService(steps[..|steps| - 1]), steps[|steps| - 1];
      EveryRecordValid(steps[..|steps| - 1]);
      if last.request.operation !in s.operations {
        ServeShape(s, last.request, last.world);
      }
    }
  }

  /** A state that some run reaches. */
  ghost predicate Reached(s: Records) {
    exists steps :: RunService(steps) == s
  }

  lemma ReachedKept(s: Records)
    requires Reached(s)
    ensures Kept(s) && AllValid(s.current)
  {
    var steps :| RunService(steps) == s;
    EveryRunKept(steps);
    EveryRecordValid(steps);
  }

  // ---------------------------------------------------------------- commits

  /** The record is filed, its operation remembered, and what it replaces kept. */
  ghost predicate Files(s: Records, t: Records, r: Request, v: Value, replaced: Option<Past>) {
    var k := KeyOf(v);
    && t.current == s.current[k := v]
    && t.operations == s.operations[r.operation := Operation(k, Fingerprint(r), v)]
    && t.past == if replaced.Some? then s.past[k := PastIn(s.past, k) + [replaced.value]] else s.past
  }

  /** A good commit lands unless both attempts are lost, and says that it had to
      look it up exactly when the attempt that landed did not report. */
  lemma GoodCommit(s: Records, p: Put<Request>, w: World)
    requires p.operation !in s.operations && ValidValue(p.value) && Refusal(s, p).None?
    ensures var (t, out) := CommitIn(s, p, w);
      if w.first == Lost && w.second == Lost then t == s && out == Refused(ReconciliationRequired)
      else t == Written(s, p) && out == Recorded(p.value, w.first == Unreported || (w.first == Lost && w.second == Unreported))
  {
  }

  /** A bad one never lands. */
  lemma BadCommit(s: Records, p: Put<Request>, w: World)
    requires p.operation !in s.operations && ValidValue(p.value) && Refusal(s, p).Some?
    ensures CommitIn(s, p, w).0 == s && CommitIn(s, p, w).1.Refused?
    ensures w.first == Honest ==> CommitIn(s, p, w).1 == Answer(Refusal(s, p).value, p.value)
  {
  }

  /** What a request is due: a refusal, or a record and what it replaces. */
  datatype Due = No(reason: Reason) | Yes(record: Value, replaced: Option<Past>)

  /** A refusal is given, for its reason when the store is honest, and writes
      nothing; a record is filed and answered unless both attempts are lost. */
  ghost predicate Gets(s: Records, r: Request, w: World, due: Due) {
    var (t, out) := Serve(s, r, w);
    match due
    case No(reason) => t == s && out.Refused? && (w.first == Honest ==> out.reason == reason)
    case Yes(v, replaced) =>
      if w.first == Lost && w.second == Lost then t == s && out == Refused(ReconciliationRequired)
      else Files(s, t, r, v, replaced) && out == Recorded(v, w.first == Unreported || (w.first == Lost && w.second == Unreported))
  }

  function RefusalReason(d: Disposition): Reason {
    if d == StaleRevision then Stale else if d == AlreadyExists then Exists else WorkforceInvalid
  }

  /** The proposal, the contract's checks and the store's, one after the other. */
  function Proposed(s: Records, r: Request, w: World): Due {
    match ProposalFor(s.current, r, w)
    case Refuse(reason) => No(reason)
    case Propose(v, basis, superseded) =>
      if !ValidValue(v) then No(WorkforceInvalid)
      else match Refusal(s, Put(v, basis, r.operation, Fingerprint(r), superseded))
        case Some(d) => No(RefusalReason(d))
        case None => Yes(v, superseded)
  }

  lemma RefusalKinds(s: Records, p: Put<Request>)
    requires Refusal(s, p).Some? && ValidValue(p.value)
    ensures Answer(Refusal(s, p).value, p.value) == Refused(RefusalReason(Refusal(s, p).value))
  {
  }

  lemma Served(s: Records, r: Request, w: World)
    requires r.operation !in s.operations
    requires var due := Proposed(s, r, w); due.Yes? ==> (KeyOf(due.record) in s.current <==> due.replaced.Some?)
    ensures Gets(s, r, w, Proposed(s, r, w))
  {
    match ProposalFor(s.current, r, w)
    case Refuse(reason) =>
    case Propose(v, basis, superseded) =>
      var p := Put(v, basis, r.operation, Fingerprint(r), superseded);
      if ValidValue(v) {
        if Refusal(s, p).Some? {
          RefusalKinds(s, p);
          BadCommit(s, p, w);
        } else {
          GoodCommit(s, p, w);
          WrittenFiles(s, p, r);
        }
      }
  }

  lemma WrittenFiles(s: Records, p: Put<Request>, r: Request)
    requires p.operation == r.operation && p.fingerprint == Fingerprint(r) && (KeyOf(p.value) in s.current <==> p.superseded.Some?)
    ensures Files(s, Written(s, p), r, p.value, p.superseded)
  {
  }

  // -------------------------------------------------------------- lifecycle

  /** Any other status may follow but CANDIDATE; a candidate goes neither to
      LIMITED nor to RETRAINING; nothing follows RETIRED. */
  predicate MayBecome(from: Lifecycle, to: Lifecycle) {
    && from != to && to != Candidate && from != Retired
    && (from == Candidate ==> to != Limited && to != Retraining)
  }

  function Last64(h: seq<Past>): seq<Past> {
    if |h| > 64 then h[|h| - 64..] else h
  }

  const MAX_REVISION := 9007199254740991

  lemma NextValid(v: Value, status: Lifecycle, role: string, department: string, now: Time)
    requires v.Worker? && ValidValue(v)
    ensures ValidValue(Next(v, status, role, department, now)) <==> v.revision < MAX_REVISION
  {
    var h := v.history + [PastOf(v)];
    forall i | 0 <= i < |h|
      ensures h[i].PastRecord? && 1 <= h[i].revision < v.revision + 1 && (i > 0 ==> h[i - 1].revision < h[i].revision)
    {
    }
  }

  /** The worker's next record under a change of lifecycle or role. */
  function NextRecord(v: Value, status: Lifecycle, role: string, department: string, now: Time): Value
    requires v.Worker?
  {
    Worker(v.agent, status, role, department, now, v.revision + 1, now,
           Last64(v.history + [PastRecord(v.status, v.role, v.department, v.effectiveAt, v.revision)]))
  }

  /** A next revision is accepted for the record that is there. */
  lemma NextAccepted(s: Records, k: Key, p: Put<Request>)
    requires Kept(s) && k in s.current && !s.current[k].Evaluation? && KeyOf(p.value) == k
    requires p.expected == Some(s.current[k].revision as int) && p.value.revision == s.current[k].revision + 1
    requires !p.value.Evaluation? && UniqueKey(p.value) == UniqueKey(s.current[k])
    ensures Refusal(s, p).None? || !ValidValue(p.value)
  {
    if p.value.Qualification? {
      assert k.id in s.keys && UniqueKey(s.current[QualificationKey(k.id)]) == Some(s.keys[k.id]);
      assert s.keys[k.id] in s.holders && s.holders[s.keys[k.id]] == k.id;
    }
  }

  lemma OwnKind(s: Records, k: Key)
    requires Kept(s) && AllValid(s.current) && k in s.current
    ensures KeyOf(s.current[k]) == k && ValidValue(s.current[k])
  {
  }

  /** The store takes what is proposed, or its contract does not. */
  predicate Taken(s: Records, r: Request, w: World) {
    var proposal := ProposalFor(s.current, r, w);
    proposal.Propose? && ValidValue(proposal.value) ==> Refusal(s, PutFor(r, proposal)).None?
  }

  lemma TakenIsDue(s: Records, r: Request, w: World)
    requires Taken(s, r, w)
    ensures Proposed(s, r, w) ==
      match ProposalFor(s.current, r, w)
      case Refuse(reason) => No(reason)
      case Propose(v, _, superseded) => if ValidValue(v) then Yes(v, superseded) else No(WorkforceInvalid)
  {
  }

  function LifecycleDue(s: Records, r: Request, w: World): Due
    requires r.ChangeLifecycle?
  {
    var k := WorkerKey(r.agent);
    if k !in s.current || !s.current[k].Worker? then No(NotFound)
    else
      var v := s.current[k];
      if r.expected != Some(v.revision as int) then No(Stale)
      else if r.status.None? then No(WorkforceInvalid)
      else if r.status.value == v.status then No(NoOpTransition)
      else if !MayBecome(v.status, r.status.value) then No(TransitionNotAllowed)
      else if w.authorized.None? then No(AuthorizationDenied)
      else if v.revision == MAX_REVISION then No(WorkforceInvalid)
      else Yes(NextRecord(v, r.status.value, v.role, v.department, w.now),
               Some(PastRecord(v.status, v.role, v.department, v.effectiveAt, v.revision)))
  }

  lemma LifecycleTaken(s: Records, r: Request, w: World)
    requires Kept(s) && r.ChangeLifecycle?
    ensures Taken(s, r, w)
  {
    var k, proposal := WorkerKey(r.agent), LifecycleProposal(s.current, r, w);
    if proposal.Propose? {
      assert KeyOf(s.current[k]) == k;
      NextAccepted(s, k, PutFor(r, proposal));
    }
  }

  lemma LifecycleIsDue(s: Records, r: Request, w: World)
    requires r.ChangeLifecycle? && Taken(s, r, w)
    requires var k := WorkerKey(r.agent); k in s.current ==> KeyOf(s.current[k]) == k && ValidValue(s.current[k])
    ensures Proposed(s, r, w) == LifecycleDue(s, r, w)
  {
    TakenIsDue(s, r, w);
    if LifecycleProposal(s.current, r, w).Propose? {
      var v := s.current[WorkerKey(r.agent)];
      NextValid(v, r.status.value, v.role, v.department, w.now);
    }
  }

  /** Over every run, a change of lifecycle under a new operation id. */
  lemma LifecycleServed(s: Records, r: Request, w: World)
    requires Reached(s) && r.ChangeLifecycle? && r.operation !in s.operations
    ensures Gets(s, r, w, LifecycleDue(s, r, w))
  {
    ReachedKept(s);
    LifecycleTaken(s, r, w);
    if WorkerKey(r.agent) in s.current {
      OwnKind(s, WorkerKey(r.agent));
    }
    LifecycleIsDue(s, r, w);
    Served(s, r, w);
  }

  // ------------------------------------------------------------------- role

  function Chosen(f: Field, otherwise: string): string {
    match f
    case Given(text) => text
    case _ => otherwise
  }

  function RoleDue(s: Records, r: Request, w: World): Due
    requires r.ChangeRole?
  {
    var k := WorkerKey(r.agent);
    if k !in s.current || !s.current[k].Worker? then No(NotFound)
    else
      var v := s.current[k];
      var role, department := Chosen(r.newRole, v.role), Chosen(r.newDepartment, v.department);
      if r.expected != Some(v.revision as int) then No(Stale)
      else if r.newRole == Omitted && r.newDepartment == Omitted then No(WorkforceInvalid)
      else if role == v.role && department == v.department then No(NoOpTransition)
      else if w.authorized.None? then No(AuthorizationDenied)
      else if v.revision == MAX_REVISION then No(WorkforceInvalid)
      else Yes(NextRecord(v, v.status, role, department, w.now),
               Some(PastRecord(v.status, v.role, v.department, v.effectiveAt, v.revision)))
  }

  lemma RoleTaken(s: Records, r: Request, w: World)
    requires Kept(s) && r.ChangeRole?
    ensures Taken(s, r, w)
  {
    var k, proposal := WorkerKey(r.agent), RoleProposal(s.current, r, w);
    if proposal.Propose? {
      assert KeyOf(s.current[k]) == k;
      NextAccepted(s, k, PutFor(r, proposal));
    }
  }

  lemma RoleIsDue(s: Records, r: Request, w: World)
    requires r.ChangeRole? && Taken(s, r, w)
    requires var k := WorkerKey(r.agent); k in s.current ==> KeyOf(s.current[k]) == k && ValidValue(s.current[k])
    ensures Proposed(s, r, w) == RoleDue(s, r, w)
  {
    TakenIsDue(s, r, w);
    if RoleProposal(s.current, r, w).Propose? {
      var v := s.current[WorkerKey(r.agent)];
      NextValid(v, v.status, Chosen(r.newRole, v.role), Chosen(r.newDepartment, v.department), w.now);
    }
  }

  lemma RoleServed(s: Records, r: Request, w: World)
    requires Reached(s) && r.ChangeRole? && r.operation !in s.operations
    ensures Gets(s, r, w, RoleDue(s, r, w))
  {
    ReachedKept(s);
    RoleTaken(s, r, w);
    if WorkerKey(r.agent) in s.current {
      OwnKind(s, WorkerKey(r.agent));
    }
    RoleIsDue(s, r, w);
    Served(s, r, w);
  }

  // --------------------------------------------------------------- creation

  function RecordDue(s: Records, r: Request, w: World): Due
    requires r.CreateRecord?
  {
    if !Identifier(r.agent) || r.status.None? then No(WorkforceInvalid)
    else if w.identity.None? then No(IdentityUnresolved)
    else if w.authorized.None? then No(AuthorizationDenied)
    else if WorkerKey(r.agent) in s.current then No(Exists)
    else
      var role := if r.role.Some? then r.role.value else w.identity.value.role;
      var department := if r.department.Some? then r.department.value else w.identity.value.department;
      Yes(Worker(r.agent, r.status.value, role, department, w.now, 1, w.now, []), None)
  }

  lemma RecordCreated(s: Records, r: Request, w: World)
    requires Reached(s) && r.CreateRecord? && r.operation !in s.operations
    ensures Gets(s, r, w, RecordDue(s, r, w))
  {
    Served(s, r, w);
  }

  /** Another qualification is filed under the same joined text. */
  ghost predicate HeldElsewhere(s: Records, id: Id, agent: string, capability: string) {
    exists q :: q != id && QualificationKey(q) in s.current && s.current[QualificationKey(q)].Qualification?
      && s.current[QualificationKey(q)].agent + "::" + s.current[QualificationKey(q)].capability == agent + "::" + capability
  }

  lemma HeldMeans(s: Records, v: Value)
    requires Kept(s) && v.Qualification?
    ensures HeldElsewhere(s, v.id, v.agent, v.capability) <==> Shadows(s, v)
  {
    if Shadows(s, v) {
      var holder := s.holders[UniqueKey(v).value];
      assert holder in s.keys && s.keys[holder] == UniqueKey(v).value;
      assert UniqueKey(s.current[QualificationKey(holder)]) == Some(s.keys[holder]);
    }
    if HeldElsewhere(s, v.id, v.agent, v.capability) {
      var q :| q != v.id && QualificationKey(q) in s.current && s.current[QualificationKey(q)].Qualification?
        && s.current[QualificationKey(q)].agent + "::" + s.current[QualificationKey(q)].capability == v.agent + "::" + v.capability;
      assert q in s.keys && UniqueKey(s.current[QualificationKey(q)]) == Some(s.keys[q]);
      assert s.keys[q] in s.holders && s.holders[s.keys[q]] == q;
    }
  }

  ghost function QualificationDue(s: Records, r: Request, w: World): Due
    requires r.CreateQualification?
  {
    var effectiveAt := if r.effectiveAt.Some? then r.effectiveAt.value else w.now;
    if !Identifier(r.agent) || !Identifier(r.capability) then No(WorkforceInvalid)
    else if WorkerKey(r.agent) !in s.current then No(NotFound)
    else if w.authorized.None? then No(AuthorizationDenied)
    else if r.expiresAt.Some? && r.expiresAt.value <= effectiveAt then No(WorkforceInvalid)
    else if HeldElsewhere(s, r.id, r.agent, r.capability) || QualificationKey(r.id) in s.current then No(Exists)
    else Yes(Qualification(r.id, r.agent, r.capability, r.standing, r.source, effectiveAt, r.expiresAt, 1, w.now, w.authorized.value), None)
  }

  lemma QualificationIsDue(s: Records, r: Request, w: World)
    requires r.CreateQualification?
    requires var k := WorkerKey(r.agent); k in s.current ==> KeyOf(s.current[k]) == k
    requires var proposal := CreateQualificationProposal(s.current, r, w);
      proposal.Propose? ==> (HeldElsewhere(s, r.id, r.agent, r.capability) <==> Shadows(s, proposal.value))
    ensures Proposed(s, r, w) == QualificationDue(s, r, w)
  {
  }

  lemma QualificationReady(s: Records, r: Request, w: World)
    requires Kept(s) && AllValid(s.current) && r.CreateQualification?
    ensures var k := WorkerKey(r.agent); k in s.current ==> KeyOf(s.current[k]) == k
    ensures var proposal := CreateQualificationProposal(s.current, r, w);
      proposal.Propose? ==> (HeldElsewhere(s, r.id, r.agent, r.capability) <==> Shadows(s, proposal.value))
  {
    var proposal := CreateQualificationProposal(s.current, r, w);
    if proposal.Propose? {
      HeldMeans(s, proposal.value);
    }
  }

  lemma QualificationCreated(s: Records, r: Request, w: World)
    requires Reached(s) && r.CreateQualification? && r.operation !in s.operations
    ensures Gets(s, r, w, QualificationDue(s, r, w))
  {
    ReachedKept(s);
    QualificationReady(s, r, w);
    QualificationIsDue(s, r, w);
    Served(s, r, w);
  }

  function ChangeDue(s: Records, r: Request, w: World): Due
    requires r.ChangeQualification?
  {
    var k := QualificationKey(r.id);
    if k !in s.current || !s.current[k].Qualification? then No(NotFound)
    else
      var v := s.current[k];
      var expiresAt := match r.expiry case Keep => v.expiresAt case SetTo(at) => at;
      var standing := if r.newStanding.Some? then r.newStanding.value else v.standing;
      if r.expected != Some(v.revision as int) then No(Stale)
      else if r.newStanding.None? && r.expiry == Keep then No(WorkforceInvalid)
      else if r.newStanding == Some(v.standing) && r.expiry == Keep then No(NoOpTransition)
      else if w.authorized.None? then No(AuthorizationDenied)
      else if v.revision == MAX_REVISION || (expiresAt.Some? && expiresAt.value <= v.effectiveAt) then No(WorkforceInvalid)
      else Yes(Qualification(r.id, v.agent, v.capability, standing, v.source, v.effectiveAt, expiresAt, v.revision + 1, w.now, w.authorized.value),
               Some(PastQualification(v.standing, v.source, v.effectiveAt, v.expiresAt, v.revision)))
  }

  lemma ChangeTaken(s: Records, r: Request, w: World)
    requires Kept(s) && r.ChangeQualification?
    ensures Taken(s, r, w)
  {
    var k, proposal := QualificationKey(r.id), ChangeQualificationProposal(s.current, r, w);
    if proposal.Propose? {
      assert KeyOf(s.current[k]) == k;
      NextAccepted(s, k, PutFor(r, proposal));
    }
  }

  lemma ChangeIsDue(s: Records, r: Request, w: World)
    requires r.ChangeQualification? && Taken(s, r, w)
    requires var k := QualificationKey(r.id); k in s.current ==> KeyOf(s.current[k]) == k && ValidValue(s.current[k])
    ensures Proposed(s, r, w) == ChangeDue(s, r, w)
  {
    TakenIsDue(s, r, w);
  }

  lemma QualificationChanged(s: Records, r: Request, w: World)
    requires Reached(s) && r.ChangeQualification? && r.operation !in s.operations
    ensures Gets(s, r, w, ChangeDue(s, r, w))
  {
    ReachedKept(s);
    ChangeTaken(s, r, w);
    if QualificationKey(r.id) in s.current {
      OwnKind(s, QualificationKey(r.id));
    }
    ChangeIsDue(s, r, w);
    Served(s, r, w);
  }

  function EvaluationDue(s: Records, r: Request, w: World): Due
    requires r.EvaluateAgentOps?
  {
    if WorkerKey(r.agent) !in s.current then No(NotFound)
    else if EvaluationKey(r.id) in s.current then No(Exists)
    else Yes(Evaluation(r.id, r.agent, w.state, w.now, w.token), None)
  }

  lemma EvaluationIsDue(s: Records, r: Request, w: World)
    requires r.EvaluateAgentOps?
    requires var k := WorkerKey(r.agent); k in s.current ==> KeyOf(s.current[k]) == k && ValidValue(s.current[k])
    ensures Proposed(s, r, w) == EvaluationDue(s, r, w)
  {
  }

  lemma EvaluationServed(s: Records, r: Request, w: World)
    requires Reached(s) && r.EvaluateAgentOps? && r.operation !in s.operations
    ensures Gets(s, r, w, EvaluationDue(s, r, w))
  {
    ReachedKept(s);
    if WorkerKey(r.agent) in s.current {
      OwnKind(s, WorkerKey(r.agent));
    }
    EvaluationIsDue(s, r, w);
    Served(s, r, w);
  }

  // ------------------------------------------------------------- the store

  /** The record may be filed now: the first of its kind and id, or the next
      revision of the one that is there; an evaluation only once. */
  predicate Follows(current: map<Key, Value>, p: Put<Request>) {
    var k, v := KeyOf(p.value), p.value;
    if v.Evaluation? then k !in current && p.expected.None?
    else if p.expected.None? then k !in current && v.revision == 1
    else k in current && !current[k].Evaluation? && current[k].revision == p.expected.value && v.revision == p.expected.value + 1
  }

  /** The record is filed with its operation and what it replaces is kept. */
  ghost predicate Wrote(s: Records, t: Records, p: Put<Request>) {
    var k := KeyOf(p.value);
    && t.current == s.current[k := p.value]
    && t.operations == s.operations[p.operation := Operation(k, p.fingerprint, p.value)]
    && t.past == if k in s.current && p.superseded.Some? then s.past[k := PastIn(s.past, k) + [p.superseded.value]] else s.past
  }

  /** What the store answers and writes, over every run: a used operation answers
      its own write again or a conflict; otherwise a valid record that shares no
      qualification key and follows what is there is filed with its operation, and
      anything else changes nothing. */
  lemma PutIff(s: Records, p: Put<Request>)
    requires Reached(s) && ValidValue(p.value)
    ensures var ((t, d), k) := (PutIn(s, p), KeyOf(p.value));
      if p.operation in s.operations then
        var o := s.operations[p.operation];
        t == s && d == if o.fingerprint == p.fingerprint && o.key == k then Replayed(o.value) else OpConflict
      else if p.value.Qualification? && HeldElsewhere(s, p.value.id, p.value.agent, p.value.capability) then t == s && d == AlreadyExists
      else if !Follows(s.current, p) then t == s && d == if p.value.Evaluation? || p.expected.None? then AlreadyExists else StaleRevision
      else Wrote(s, t, p) && d == if k in s.current then Updated else Created
  {
    ReachedKept(s);
    if p.value.Qualification? {
      HeldMeans(s, p.value);
    }
    if p.operation !in s.operations {
      PutAnswers(s, p);
      RevisionDecides(s, p);
    }
  }

  lemma PutAnswers(s: Records, p: Put<Request>)
    requires ValidValue(p.value) && p.operation !in s.operations
    ensures var (t, d) := PutIn(s, p);
      if Shadows(s, p.value) then t == s && d == AlreadyExists
      else if RevisionRefusal(s, p).Some? then t == s && d == RevisionRefusal(s, p).value
      else Wrote(s, t, p) && d == if KeyOf(p.value) in s.current then Updated else Created
  {
  }

  lemma RevisionDecides(s: Records, p: Put<Request>)
    ensures RevisionRefusal(s, p).None? <==> Follows(s.current, p)
    ensures RevisionRefusal(s, p).Some? ==>
      RevisionRefusal(s, p).value == if p.value.Evaluation? || p.expected.None? then AlreadyExists else StaleRevision
  {
  }

  /** The index has an evaluation for exactly the agents that were evaluated: one of
      theirs, and none of theirs is later, or as late with a greater id. */
  lemma LatestIsNewest(s: Records, agent: string)
    requires Reached(s)
    ensures agent in s.latest <==> exists k :: k in s.current && s.current[k].Evaluation? && s.current[k].agent == agent
    ensures agent in s.latest ==>
      var v := s.latest[agent];
      && v.Evaluation? && v.agent == agent && EvaluationKey(v.id) in s.current && s.current[EvaluationKey(v.id)] == v
      && forall k :: k in s.current && s.current[k].Evaluation? && s.current[k].agent == agent ==>
           v.generatedAt > s.current[k].generatedAt || (v.generatedAt == s.current[k].generatedAt && v.id >= s.current[k].id)
  {
    ReachedKept(s);
    if agent in s.latest {
      assert LatestOk(s.current, s.latest[agent], agent);
      forall k | k in s.current && s.current[k].Evaluation? && s.current[k].agent == agent
        ensures Newer(s.latest[agent], s.current[k])
      {
        assert EvaluationOf(s.current, k, agent);
      }
    }
  }

  /** Records are filed under their own kind. */
  lemma KindsMatch(s: Records, k: Key)
    requires Reached(s) && k in s.current
    ensures match k
      case WorkerKey(agent) => s.current[k].Worker? && s.current[k].agent == agent
      case QualificationKey(id) => s.current[k].Qualification? && s.current[k].id == id
      case EvaluationKey(id) => s.current[k].Evaluation? && s.current[k].id == id
  {
    ReachedKept(s);
    assert KeyOf(s.current[k]) == k;
  }
}
