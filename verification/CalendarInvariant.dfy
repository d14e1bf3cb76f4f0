// The inductive invariant of the recurring-work engine.

module CalendarInvariant {
  import opened Common
  import opened CalendarStore
  import opened CalendarEngine

  type Occs = map<Slot, Occurrence>
  type Jobs = map<Id, Job>

  // ------------------------------------------------------------ the store

  ghost predicate NoRepeats(history: seq<Slot>) {
    forall i, j :: 0 <= i < j < |history| ==> history[i] != history[j]
  }

  ghost predicate TemplateOk(s: Store, t: Id)
    requires t in s.templates
  {
    var template := s.templates[t];
    && template.id == t && ValidTemplate(template)
    && Lookup(s.revisions, (t, template.revision)) == Some(template)
  }

  ghost predicate RevisionOk(s: Store, k: (Id, nat))
    requires k in s.revisions
  {
    && k.0 in s.templates && k.1 <= s.templates[k.0].revision
    && s.revisions[k].id == k.0 && s.revisions[k].revision == k.1
  }

  ghost predicate TemplatesOk(s: Store) {
    && (forall t {:trigger TemplateOk(s, t)} {:trigger s.templates[t]} :: t in s.templates ==> TemplateOk(s, t))
    && (forall k {:trigger RevisionOk(s, k)} {:trigger s.revisions[k]} :: k in s.revisions ==> RevisionOk(s, k))
  }

  ghost predicate OccurrenceOk(s: Store, id: Slot)
    requires id in s.occurrences
  {
    var o := s.occurrences[id];
    && o.id == id && id in s.history
    && ValidOccurrence(o) && o.attempts <= MAX_SUBMISSION_ATTEMPTS
    && (id.template, o.templateRevision) in s.revisions
    && s.revisions[(id.template, o.templateRevision)] == o.fingerprint
    && (id.template, id.scheduledAt) in s.claims
    && s.highWater.Some? && o.updatedAt <= s.highWater.value
    && (o.status == Due || o.status == Skipped ==> o.attempts == 0)
    && (o.status == SubmissionPending || o.status == Submitted ==> o.attempts >= 1)
  }

  ghost predicate StoreOk(s: Store) {
    && TemplatesOk(s)
    && (forall id {:trigger OccurrenceOk(s, id)} :: id in s.occurrences ==> OccurrenceOk(s, id))
    && NoRepeats(s.history)
    && (forall id :: id in s.history ==> id in s.occurrences)
    && (forall k :: k in s.claims ==> s.claims[k] == Slot(k.0, k.1) && s.claims[k] in s.occurrences)
    && (forall t :: t in s.checkpoints ==>
         && s.checkpoints[t].template == t && s.checkpoints[t].revision >= 1
         && s.checkpoints[t].updatedAt <= s.checkpoints[t].lastEvaluatedAt)
  }

  // ------------------------------------------------- occurrences and jobs

  predicate Unsettled(status: OccurrenceStatus) {
    Open(status) || status == ReviewRequired
  }

  /** The occurrence is SUBMITTED and its Relay job has ended. */
  predicate Settled(o: Occurrence, jobs: Jobs) {
    && o.status == Submitted && o.relayJob.Some?
    && o.relayJob.value in jobs && Terminal(jobs[o.relayJob.value].state)
  }

  /** Two occurrences of one template never wait at the same time, and of two
      that have both been attempted one is settled. */
  predicate Apart(a: Occurrence, b: Occurrence, jobs: Jobs) {
    && !(Unsettled(a.status) && Unsettled(b.status))
    && (a.attempts > 0 && b.attempts > 0 ==> Settled(a, jobs) || Settled(b, jobs))
  }

  ghost predicate AllApart(occs: Occs, jobs: Jobs) {
    forall a, b {:trigger Apart(occs[a], occs[b], jobs)} ::
      a in occs && b in occs && a.template == b.template && a != b ==> Apart(occs[a], occs[b], jobs)
  }

  ghost predicate KeyOk(occs: Occs, r: Relay, n: Namespace)
    requires n in r.keys
  {
    && n.key in occs && occs[n.key].attempts > 0
    && r.keys[n] in r.jobs
    && r.jobs[r.keys[n]] == Job(r.keys[n], n.key, occs[n.key].fingerprint.jobType, occs[n.key].fingerprint.capability,
                                n.subject, r.jobs[r.keys[n]].state)
  }

  ghost predicate JobOk(r: Relay, j: Id)
    requires j in r.jobs
  {
    var space := Namespace(r.jobs[j].subject, r.jobs[j].key);
    r.jobs[j].id == j && space in r.keys && r.keys[space] == j
  }

  ghost predicate JobOf(jobs: Jobs, j: Id, k: Slot) {
    j in jobs && jobs[j].key == k
  }

  ghost predicate SubmissionOk(occs: Occs, r: Relay, k: Slot)
    requires k in occs
  {
    occs[k].status == Submitted ==> occs[k].relayJob.Some? && JobOf(r.jobs, occs[k].relayJob.value, k)
  }

  /** Relay's tables agree with each other and with the occurrences: a job for
      a slot exists only after an attempt, under the requester of that attempt; a
      SUBMITTED occurrence names a job of its slot, and every accept call is a
      counted attempt. */
  ghost predicate RelayOk(occs: Occs, r: Relay) {
    && (forall n {:trigger KeyOk(occs, r, n)} :: n in r.keys ==> KeyOk(occs, r, n))
    && (forall j {:trigger JobOk(r, j)} :: j in r.jobs ==> JobOk(r, j))
    && (forall k {:trigger SubmissionOk(occs, r, k)} :: k in occs ==> SubmissionOk(occs, r, k))
    && (forall k :: r.calls[k] <= if k in occs then occs[k].attempts else 0)
  }

  // --------------------------------------------------------- evaluations

  ghost predicate Current(s: Store, t: Id, template: Template) {
    t in s.templates && s.templates[t] == template && template.status == Active
  }

  ghost predicate AfterOk(s: Store, t: Id, after: After) {
    match after
    case Retrying(template, pending) => Current(s, t, template) && pending == []
    case Marking(template, c) => ValidTemplate(template) && c == Lookup(s.checkpoints, t)
  }

  ghost predicate InHand(s: Store, t: Id, o: Occurrence) {
    o.id in s.occurrences && s.occurrences[o.id] == o && o.id.template == t && Open(o.status)
  }

  ghost predicate Handling(s: Store, t: Id, o: Occurrence, def: Template, after: After) {
    InHand(s, t, o) && AfterOk(s, t, after) && def == o.fingerprint
  }

  ghost predicate Cleared(o: Occurrence, jobs: Jobs) {
    o.status == Skipped || Settled(o, jobs)
  }

  /** Every other occurrence of the template is cleared, or still to be looked at. */
  ghost predicate Covered(occs: Occs, jobs: Jobs, o: Occurrence, priors: seq<Occurrence>) {
    forall a {:trigger Cleared(occs[a], jobs)} ::
      a in occs && a.template == o.id.template && a != o.id ==> Cleared(occs[a], jobs) || occs[a] in priors
  }

  ghost predicate Snapshots(occs: Occs, t: Id, priors: seq<Occurrence>) {
    forall p :: p in priors ==> p.id.template == t && p.id in occs && occs[p.id] == p
  }

  ghost predicate AnswerOk(jobs: Jobs, o: Occurrence, prior: Occurrence, answer: Option<Job>) {
    && prior.status == Submitted
    && (answer.Some? ==>
         && prior.relayJob == Some(answer.value.id) && answer.value.id in jobs
         && (Terminal(answer.value.state) ==> Terminal(jobs[answer.value.id].state))
         && (!Terminal(answer.value.state) ==> o.attempts == 0))
  }

  ghost predicate Called(s: Store, r: Relay, o: Occurrence) {
    o.status == SubmissionPending && Covered(s.occurrences, r.jobs, o, [])
  }

  ghost predicate StageOk(s: Store, r: Relay, t: Id, stage: Stage) {
    match stage
    case Locked => true
    case Retry(template, pending) =>
      Current(s, t, template) && |pending| <= 1 && forall o :: o in pending ==> InHand(s, t, o)
    case Window(template) => Current(s, t, template)
    case Check(o, def, priors, after) =>
      && Handling(s, t, o, def, after)
      && Snapshots(s.occurrences, t, priors) && Covered(s.occurrences, r.jobs, o, priors)
    case Answered(o, def, prior, answer, priors, after) =>
      && Handling(s, t, o, def, after)
      && Snapshots(s.occurrences, t, [prior] + priors) && Covered(s.occurrences, r.jobs, o, [prior] + priors)
      && AnswerOk(r.jobs, o, prior, answer)
    case Calling(o, def, after) => Handling(s, t, o, def, after) && Called(s, r, o)
    case Claimed(o, def, job, after) =>
      Handling(s, t, o, def, after) && Called(s, r, o) && JobOf(r.jobs, job, o.id)
    case Replied(o, def, reply, after) =>
      && Handling(s, t, o, def, after) && Called(s, r, o)
      && (reply.Bound? ==> JobOf(r.jobs, reply.job.id, o.id))
    case Mark(template, c) => ValidTemplate(template) && c == Lookup(s.checkpoints, t)
    case Unlock => true
    case Throwing => true
  }

  ghost predicate EvaluationOk(s: Store, r: Relay, tokens: nat, v: Evaluation) {
    match v
    case Idle => true
    case Scanning(now, _) => s.highWater.Some? && now <= s.highWater.value
    case Working(now, _, t, token, stage) =>
      && s.highWater.Some? && now <= s.highWater.value
      && Lookup(s.locks, t) == Some(token) && token < tokens
      && StageOk(s, r, t, stage)
  }

  ghost predicate DistinctTokens(vs: map<Id, Evaluation>) {
    forall p, q ::
      (p in vs && q in vs && p != q && vs[p].Working? && vs[q].Working?) ==> vs[p].token != vs[q].token
  }

  ghost predicate EvaluationsOk(s: System) {
    && DistinctTokens(s.evaluations)
    && (forall p :: p in s.evaluations ==> EvaluationOk(s.store, s.relay, s.nextToken, s.evaluations[p]))
  }

  ghost predicate Inv(s: System) {
    && StoreOk(s.store)
    && AllApart(s.store.occurrences, s.relay.jobs)
    && RelayOk(s.store.occurrences, s.relay)
    && EvaluationsOk(s)
  }

  // ----------------------------------------------------------- what frames

  ghost predicate JobsGrow(jobs: Jobs, jobs': Jobs) {
    forall j :: j in jobs ==>
      j in jobs' && jobs'[j].key == jobs[j].key && (Terminal(jobs[j].state) ==> Terminal(jobs'[j].state))
  }

  ghost predicate ClockGrows(s: Store, s': Store) {
    s.highWater.Some? ==> s'.highWater.Some? && s.highWater.value <= s'.highWater.value
  }

  /** Nothing that an evaluation of template `t` relies on has changed. */
  ghost predicate SameFor(s: Store, s': Store, t: Id) {
    && (forall id: Slot :: id.template == t ==> Lookup(s'.occurrences, id) == Lookup(s.occurrences, id))
    && Lookup(s'.templates, t) == Lookup(s.templates, t)
    && Lookup(s'.checkpoints, t) == Lookup(s.checkpoints, t)
    && Lookup(s'.locks, t) == Lookup(s.locks, t)
  }

  lemma CoveredFrame(occs: Occs, jobs: Jobs, occs': Occs, jobs': Jobs, o: Occurrence, priors: seq<Occurrence>)
    requires Covered(occs, jobs, o, priors) && JobsGrow(jobs, jobs')
    requires forall id: Slot :: id.template == o.id.template ==> Lookup(occs', id) == Lookup(occs, id)
    ensures Covered(occs', jobs', o, priors)
  {
    forall a {:trigger Cleared(occs'[a], jobs')} | a in occs' && a.template == o.id.template && a != o.id
      ensures Cleared(occs'[a], jobs') || occs'[a] in priors
    {
      assert Lookup(occs', a) == Lookup(occs, a);
      assert Cleared(occs[a], jobs) || occs[a] in priors;
    }
  }

  lemma StageFrame(s: Store, r: Relay, s': Store, r': Relay, t: Id, stage: Stage)
    requires StageOk(s, r, t, stage) && SameFor(s, s', t) && JobsGrow(r.jobs, r'.jobs)
    ensures StageOk(s', r', t, stage)
  {
    assert forall id: Slot :: id.template == t && id in s.occurrences ==> Lookup(s'.occurrences, id) == Lookup(s.occurrences, id);
    match stage
    case Check(o, def, priors, after) => CoveredFrame(s.occurrences, r.jobs, s'.occurrences, r'.jobs, o, priors);
    case Answered(o, def, prior, answer, priors, after) =>
      CoveredFrame(s.occurrences, r.jobs, s'.occurrences, r'.jobs, o, [prior] + priors);
    case Calling(o, def, after) => CoveredFrame(s.occurrences, r.jobs, s'.occurrences, r'.jobs, o, []);
    case Claimed(o, def, job, after) => CoveredFrame(s.occurrences, r.jobs, s'.occurrences, r'.jobs, o, []);
    case Replied(o, def, reply, after) => CoveredFrame(s.occurrences, r.jobs, s'.occurrences, r'.jobs, o, []);
    case _ =>
  }

  /** Nobody else works on the template whose lock an evaluation holds. */
  lemma Exclusive(s: System, p: Id, q: Id)
    requires EvaluationsOk(s) && p != q && EvaluationOf(s, p).Working? && EvaluationOf(s, q).Working?
    ensures EvaluationOf(s, p).id != EvaluationOf(s, q).id
  {
  }

  /** One evaluation moves while every other one keeps what it relies on. */
  lemma OneMoves(s: System, s': System, p: Id, v: Evaluation)
    requires EvaluationsOk(s) && s'.evaluations == s.evaluations[p := v]
    requires s.nextToken <= s'.nextToken && ClockGrows(s.store, s'.store) && JobsGrow(s.relay.jobs, s'.relay.jobs)
    requires EvaluationOk(s'.store, s'.relay, s'.nextToken, v)
    requires v.Working? ==> (EvaluationOf(s, p).Working? && EvaluationOf(s, p).token == v.token) || v.token == s.nextToken
    requires forall q :: q in s.evaluations && q != p && s.evaluations[q].Working? ==>
      SameFor(s.store, s'.store, s.evaluations[q].id)
    ensures EvaluationsOk(s')
  {
    forall q | q in s'.evaluations
      ensures EvaluationOk(s'.store, s'.relay, s'.nextToken, s'.evaluations[q])
    {
      if q != p && s.evaluations[q].Working? {
        StageFrame(s.store, s.relay, s'.store, s'.relay, s.evaluations[q].id, s.evaluations[q].stage);
      }
    }
  }
}
