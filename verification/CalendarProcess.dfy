// What one step of an evaluation makes of the occurrence and template in hand,
// read off the store and Relay; and an undisturbed submission from start to end.

module CalendarProcess {
  import opened Common
  import opened CalendarStore
  import opened CalendarEngine
  import opened CalendarInvariant
  import opened CalendarSafety
  import opened CalendarRuns
  import opened CalendarTheorems
  import opened CalendarDue

  const ATTEMPTS := 3

  /** An evaluation with `p` at work in the given stage. */
  ghost predicate In(s: System, p: Id, stage: Stage) {
    Inv(s) && EvaluationOf(s, p).Working? && EvaluationOf(s, p).stage == stage
  }

  function StageIn(s: System, p: Id): Option<Stage> {
    if EvaluationOf(s, p).Working? then Some(EvaluationOf(s, p).stage) else None
  }

  /** Occurrence `k` alone has changed: it has this status and job, at its next
      revision, with its attempts as they were. */
  ghost predicate Ended(s: Store, s': Store, k: Slot, status: OccurrenceStatus, job: Option<Id>) {
    && k in s.occurrences && k in s'.occurrences
    && s'.occurrences == s.occurrences[k := s'.occurrences[k]] && s'.checkpoints == s.checkpoints
    && var (o, o') := (s.occurrences[k], s'.occurrences[k]);
    o' == o.(status := status, relayJob := job, updatedAt := o'.updatedAt, revision := o.revision + 1)
  }

  /** And Relay is untouched. */
  ghost predicate Ends(s: System, s': System, k: Slot, status: OccurrenceStatus, job: Option<Id>) {
    Ended(s.store, s'.store, k, status, job) && s'.relay == s.relay
  }

  /** Only the evaluation itself has moved. */
  ghost predicate OnlyStage(s: System, s': System, p: Id, stage: Stage) {
    EvaluationOf(s, p).Working? && s' == With(s, p, EvaluationOf(s, p).(stage := stage)) && StageIn(s', p) == Some(stage)
  }

  /** The evaluation holds the lock and the occurrence as it stands. */
  ghost predicate Holds(s: System, p: Id, o: Occurrence) {
    && StoreOk(s.store) && EvaluationOf(s, p).Working? && InHand(s.store, EvaluationOf(s, p).id, o)
    && Lookup(s.store.locks, EvaluationOf(s, p).id) == Some(EvaluationOf(s, p).token)
  }

  lemma InHolds(s: System, p: Id)
    requires Inv(s) && EvaluationOf(s, p).Working?
    ensures var g := EvaluationOf(s, p).stage;
      g.Check? || g.Answered? || g.Calling? || g.Claimed? || g.Replied? ==> Holds(s, p, g.occ)
  {
    assert EvaluationOk(s.store, s.relay, s.nextToken, EvaluationOf(s, p));
  }

  lemma UpdateEnds(s: Store, o: Occurrence, patch: Patch, token: nat, raw: Time)
    requires StoreOk(s) && InHand(s, o.id.template, o) && Lookup(s.locks, o.id.template) == Some(token)
    requires patch.status == Submitted <==> patch.relayJob.Some?
    requires patch.attempts.None? && patch.lastAttemptAt.None?
    ensures var (s', record) := Update(s, o, patch, token, raw);
      Ended(s, s', o.id, patch.status, patch.relayJob) && record == Some(s'.occurrences[o.id])
  {
    assert OccurrenceOk(s, o.id);
    UpdateSucceeds(s, o, patch, token, raw);
  }

  lemma ConcludeEnds(s: System, p: Id, o: Occurrence, patch: Patch, after: After, e: Event)
    requires e.Advance? && Holds(s, p, o)
    requires patch.status == Submitted <==> patch.relayJob.Some?
    requires patch.attempts.None? && patch.lastAttemptAt.None?
    ensures var (s1, next) := Conclude(s, EvaluationOf(s, p), o, patch, after, e);
      Ends(s, s1, o.id, patch.status, patch.relayJob) && next == if e.mute then Throwing else Resume(after)
  {
    UpdateEnds(s.store, o, patch, EvaluationOf(s, p).token, e.raw);
  }

  lemma GuardedEnds(s: System, p: Id, o: Occurrence, patch: Patch, after: After, e: Event)
    requires e.Advance? && Holds(s, p, o)
    requires patch.status == Submitted <==> patch.relayJob.Some?
    requires patch.attempts.None? && patch.lastAttemptAt.None? && !Open(patch.status)
    ensures var (s1, next) := Guarded(s, EvaluationOf(s, p), o, patch, after, e);
      Ends(s, s1, o.id, patch.status, patch.relayJob) && next == if e.mute && o.attempts >= ATTEMPTS then Throwing else Resume(after)
  {
    var v := EvaluationOf(s, p);
    UpdateEnds(s.store, o, patch, v.token, e.raw2);
    var (s1, record) := Update(s.store, o, patch, v.token, e.raw2);
    SecondRefused(s1, o, record.value, ToStatus(ReviewRequired), v.token, e.raw);
  }

  lemma EndsThere(s: System, s1: System, s': System, p: Id, v: Evaluation, k: Slot, status: OccurrenceStatus, job: Option<Id>)
    requires Ends(s, s1, k, status, job) && s' == With(s1, p, v)
    ensures Ends(s, s', k, status, job)
  {
  }

  /** A step whose work ends the occurrence. */
  lemma StepEnds(s: System, e: Event, k: Slot, status: OccurrenceStatus, job: Option<Id>)
    requires AtWork(s, e) && Ends(s, WorkStep(s, EvaluationOf(s, e.p), e).0, k, status, job)
    ensures Ends(s, Step(s, e), k, status, job) && StageIn(Step(s, e), e.p) == Some(WorkStep(s, EvaluationOf(s, e.p), e).1)
  {
    BusyStep(s, e);
    var (s1, next) := WorkStep(s, EvaluationOf(s, e.p), e);
    EndsThere(s, s1, Step(s, e), e.p, EvaluationOf(s, e.p).(stage := next), k, status, job);
  }

  // -------------------------------------------------------- predecessors

  /** A predecessor that is the occurrence itself or was skipped is passed over;
      a submitted one is asked for, and answers its own job unless the call throws. */
  lemma LooksAtPredecessor(s: System, e: Event, o: Occurrence, def: Template, priors: seq<Occurrence>, after: After)
    requires e.Advance? && In(s, e.p, Check(o, def, priors, after)) && priors != []
    ensures var (s', prior) := (Step(s, e), priors[0]);
      && (prior.id == o.id || prior.status == Skipped ==> OnlyStage(s, s', e.p, Check(o, def, priors[1..], after)))
      && (prior.id != o.id && prior.status == Submitted ==>
           && prior.relayJob.Some? && prior.relayJob.value in s.relay.jobs
           && OnlyStage(s, s', e.p, Answered(o, def, prior, if e.fault then None else Some(s.relay.jobs[prior.relayJob.value]),
                                             priors[1..], after)))
      && (prior.id != o.id ==> prior.status == Submitted || prior.status == Skipped)
  {
    var v, prior := EvaluationOf(s, e.p), priors[0];
    assert EvaluationOk(s.store, s.relay, s.nextToken, v);
    assert prior in priors;
    BusyStep(s, e);
    if prior.id != o.id {
      NotBothWaiting(s.store.occurrences, s.relay.jobs, prior.id, o.id);
      if prior.status == Submitted {
        SubmittedAnswers(s, prior, e.fault);
      }
    }
  }

  lemma SubmittedAnswers(s: System, prior: Occurrence, fault: bool)
    requires Inv(s) && prior.id in s.store.occurrences && s.store.occurrences[prior.id] == prior && prior.status == Submitted
    ensures prior.relayJob.Some? && prior.relayJob.value in s.relay.jobs
    ensures AnswerOf(s, prior, fault) == if fault then None else Some(s.relay.jobs[prior.relayJob.value])
  {
    assert OccurrenceOk(s.store, prior.id) && SubmissionOk(s.store.occurrences, s.relay, prior.id);
    var j := prior.relayJob.value;
    assert JobOk(s.relay, j);
    assert KeyOk(s.store.occurrences, s.relay, Namespace(s.relay.jobs[j].subject, prior.id));
  }

  /** A predecessor without an answer sends the occurrence to review, one whose
      job still goes makes it SKIPPED, and one that has ended is no obstacle. */
  lemma PredecessorDecides(s: System, e: Event, o: Occurrence, def: Template, prior: Occurrence, answer: Option<Job>,
                           priors: seq<Occurrence>, after: After)
    requires e.Advance? && In(s, e.p, Answered(o, def, prior, answer, priors, after))
    ensures var s' := Step(s, e);
      && (answer.None? ==> Ends(s, s', o.id, ReviewRequired, None))
      && (answer.Some? && answer.value.state != JobCompleted && answer.value.state != JobFailed ==> Ends(s, s', o.id, Skipped, None))
      && (answer.Some? && (answer.value.state == JobCompleted || answer.value.state == JobFailed) ==>
           OnlyStage(s, s', e.p, Check(o, def, priors, after)))
      && (!OnlyStage(s, s', e.p, Check(o, def, priors, after)) ==> StageIn(s', e.p) == Some(if e.mute then Throwing else Resume(after)))
  {
    BusyStep(s, e);
    InHolds(s, e.p);
    if answer.None? {
      ConcludeEnds(s, e.p, o, ToStatus(ReviewRequired), after, e);
      StepEnds(s, e, o.id, ReviewRequired, None);
    } else if !Terminal(answer.value.state) {
      ConcludeEnds(s, e.p, o, ToStatus(Skipped), after, e);
      StepEnds(s, e, o.id, Skipped, None);
    }
  }

  // ---------------------------------------------------------- submitting

  /** The attempt is recorded before `accept` is called. */
  ghost predicate Attempts(s: System, s': System, k: Slot) {
    && k in s.store.occurrences && k in s'.store.occurrences
    && s'.store.occurrences == s.store.occurrences[k := s'.store.occurrences[k]]
    && var (o, o') := (s.store.occurrences[k], s'.store.occurrences[k]);
    && o' == o.(status := SubmissionPending, attempts := o.attempts + 1, lastAttemptAt := o'.lastAttemptAt,
                updatedAt := o'.updatedAt, revision := o.revision + 1)
    && o'.lastAttemptAt.Some?
    && s'.relay.keys == s.relay.keys && s'.relay.jobs == s.relay.jobs && s'.store.checkpoints == s.store.checkpoints
  }

  /** With every predecessor cleared, an occurrence that was tried three times
      goes to review and any other is attempted once more. */
  lemma AttemptsOrReviews(s: System, e: Event, o: Occurrence, def: Template, after: After)
    requires e.Advance? && In(s, e.p, Check(o, def, [], after))
    ensures var s' := Step(s, e);
      if o.attempts >= ATTEMPTS then
        Ends(s, s', o.id, ReviewRequired, None) && StageIn(s', e.p) == Some(if e.mute then Throwing else Resume(after))
      else
        && Attempts(s, s', o.id)
        && s'.relay.calls == (if e.mute then s.relay.calls else s.relay.calls + multiset{o.id})
        && StageIn(s', e.p) == Some(if e.mute then Throwing else Calling(s'.store.occurrences[o.id], def, after))
  {
    InHolds(s, e.p);
    if o.attempts >= ATTEMPTS {
      ConcludeEnds(s, e.p, o, ToStatus(ReviewRequired), after, e);
      StepEnds(s, e, o.id, ReviewRequired, None);
    } else {
      BusyStep(s, e);
      SubmitResult(s, e.p, e, o, def, after);
      var o' := Submission(s.store, o, e.raw, e.raw2);
      AttemptsThere(s, Step(s, e), o, o');
    }
  }

  lemma AttemptsThere(s: System, s': System, o: Occurrence, o': Occurrence)
    requires o.id in s.store.occurrences && s.store.occurrences[o.id] == o
    requires s'.store == s.store.(highWater := s'.store.highWater, occurrences := s.store.occurrences[o.id := o'])
    requires s'.relay == s.relay.(calls := s'.relay.calls)
    requires o'.lastAttemptAt.Some?
    requires o' == o.(status := SubmissionPending, attempts := o.attempts + 1, lastAttemptAt := o'.lastAttemptAt,
                      updatedAt := o'.updatedAt, revision := o.revision + 1)
    ensures Attempts(s, s', o.id)
  {
  }

  /** What `accept` answers, and what it leaves in Relay, for the requester it
      resolves: refused before the claim; lost; the job already filed; or a new job. */
  lemma AcceptMeans(s: System, e: Event, o: Occurrence, def: Template, after: After)
    requires e.Advance? && In(s, e.p, Calling(o, def, after))
    ensures var (s', space) := (Step(s, e), Namespace(e.subject, o.id));
      && s'.store == s.store
      && (e.refuse ==> OnlyStage(s, s', e.p, Replied(o, def, Refused, after)))
      && (!e.refuse && e.fault ==> OnlyStage(s, s', e.p, Replied(o, def, Unknown, after)))
      && (!e.refuse && !e.fault && space in s.relay.keys ==>
           s.relay.keys[space] in s.relay.jobs && OnlyStage(s, s', e.p, Replied(o, def, Bound(s.relay.jobs[s.relay.keys[space]]), after)))
      && (!e.refuse && !e.fault && space !in s.relay.keys && e.newId !in s.relay.jobs ==>
           && s'.relay.jobs == s.relay.jobs[e.newId := Job(e.newId, o.id, def.jobType, def.capability, e.subject, JobSubmitted)]
           && s'.relay.keys == s.relay.keys[space := e.newId] && s'.relay.calls == s.relay.calls
           && StageIn(s', e.p) == Some(Claimed(o, def, e.newId, after)))
  {
    assert EvaluationOk(s.store, s.relay, s.nextToken, EvaluationOf(s, e.p));
    BusyStep(s, e);
    if Namespace(e.subject, o.id) in s.relay.keys {
      ReplayBinds(s, o, def, e.subject);
    }
  }

  /** After the claim the job is moved to ACCEPTED and returned, unless the call
      throws, the job has moved on, or the store is unavailable. */
  lemma AcceptReturns(s: System, e: Event, o: Occurrence, def: Template, id: Id, after: After)
    requires e.Advance? && In(s, e.p, Claimed(o, def, id, after))
    ensures var s' := Step(s, e);
      && id in s.relay.jobs && s'.store == s.store
      && (e.fault || s.relay.jobs[id].state != JobSubmitted ==> OnlyStage(s, s', e.p, Replied(o, def, Unknown, after)))
      && (!e.fault && s.relay.jobs[id].state == JobSubmitted ==>
           var job := s.relay.jobs[id].(state := JobAccepted);
           && s'.relay == s.relay.(jobs := s.relay.jobs[id := job])
           && StageIn(s', e.p) == Some(Replied(o, def, if e.refuse then Unknown else Bound(job), after)))
  {
    assert EvaluationOk(s.store, s.relay, s.nextToken, EvaluationOf(s, e.p));
    assert OccurrenceOk(s.store, o.id) && JobOk(s.relay, id);
    assert KeyOk(s.store.occurrences, s.relay, Namespace(s.relay.jobs[id].subject, o.id));
    assert BoundTo(s.relay.jobs[id].(state := JobAccepted), o, def);
    BusyStep(s, e);
  }

  lemma ReplyEnds(s: System, e: Event, o: Occurrence, def: Template, reply: Reply, after: After)
    requires e.Advance? && In(s, e.p, Replied(o, def, reply, after))
    ensures var (s1, next) := RepliedStep(s, EvaluationOf(s, e.p), e);
      match reply
      case Bound(job) => Ends(s, s1, o.id, Submitted, Some(job.id)) && (!e.mute ==> next == Resume(after))
      case Refused => Ends(s, s1, o.id, ReviewRequired, None) && (!e.mute ==> next == Resume(after))
      case Unknown => o.attempts >= ATTEMPTS ==> Ends(s, s1, o.id, ReviewRequired, None) && (!e.mute ==> next == Resume(after))
  {
    InHolds(s, e.p);
    match reply
    case Bound(job) => GuardedEnds(s, e.p, o, Patch(Submitted, Some(job.id), None, None, 0), after, e);
    case Refused => GuardedEnds(s, e.p, o, ToStatus(ReviewRequired), after, e);
    case Unknown => ConcludeEnds(s, e.p, o, ToStatus(ReviewRequired), after, e);
  }

  /** A bound job makes the occurrence SUBMITTED with that job, a rejection or
      conflict sends it to review, and so does an unknown outcome once the attempts
      are used up. */
  lemma ReplyDecides(s: System, e: Event, o: Occurrence, def: Template, reply: Reply, after: After)
    requires e.Advance? && In(s, e.p, Replied(o, def, reply, after))
    requires reply.Unknown? ==> o.attempts >= ATTEMPTS
    ensures var s' := Step(s, e);
      && Ends(s, s', o.id, if reply.Bound? then Submitted else ReviewRequired, if reply.Bound? then Some(reply.job.id) else None)
      && (!e.mute ==> StageIn(s', e.p) == Some(Resume(after)))
  {
    ReplyEnds(s, e, o, def, reply, after);
    StepEnds(s, e, o.id, if reply.Bound? then Submitted else ReviewRequired, if reply.Bound? then Some(reply.job.id) else None);
  }

  /** Before that an unknown outcome leaves everything for a later evaluation. */
  lemma UnknownWaits(s: System, e: Event, o: Occurrence, def: Template, after: After)
    requires e.Advance? && In(s, e.p, Replied(o, def, Unknown, after)) && o.attempts < ATTEMPTS
    ensures OnlyStage(s, Step(s, e), e.p, Resume(after))
  {
    BusyStep(s, e);
  }

  // ------------------------------------------------------ around a template

  /** Exactly the template's occurrences that are due or being submitted. */
  ghost predicate PendingOf(s: Store, t: Id, pending: seq<Occurrence>) {
    forall o: Occurrence {:trigger o in pending} :: (o in pending) == IsPending(s, t, o)
  }

  predicate IsPending(s: Store, t: Id, o: Occurrence) {
    o.id in s.occurrences && s.occurrences[o.id] == o && o.id.template == t && (o.status == Due || o.status == SubmissionPending)
  }

  /** Under the lock: nothing is done for a template that is gone, not ACTIVE or
      under review, and otherwise exactly its pending occurrences are retried. */
  lemma LockedMeans(s: System, e: Event)
    requires e.Advance? && In(s, e.p, Locked)
    ensures var (s', t) := (Step(s, e), EvaluationOf(s, e.p).id);
      var reviewed := exists id :: id in s.store.occurrences && id.template == t && s.store.occurrences[id].status == ReviewRequired;
      if t !in s.store.templates || s.store.templates[t].status != Active || reviewed then OnlyStage(s, s', e.p, Unlock)
      else exists pending :: OnlyStage(s, s', e.p, Retry(s.store.templates[t], pending)) && PendingOf(s.store, t, pending)
  {
    var v := EvaluationOf(s, e.p);
    var t := v.id;
    BusyStep(s, e);
    if t in s.store.templates {
      assert TemplateOk(s.store, t);
      var occs := Occurrences(s.store.history, s.store.occurrences, t);
      ReviewListed(s.store, t);
      forall o: Occurrence
        ensures (o in OnlyOpen(occs)) == IsPending(s.store, t, o)
      {
        OnlyOpenIn(occs, o);
        ListedInStore(s.store, t, o);
      }
      assert PendingOf(s.store, t, OnlyOpen(occs));
    }
  }

  lemma ListedInStore(s: Store, t: Id, o: Occurrence)
    requires StoreOk(s)
    ensures o in Occurrences(s.history, s.occurrences, t) <==>
      o.id in s.occurrences && s.occurrences[o.id] == o && o.id.template == t
  {
    ListedIff(s.history, s.occurrences, t, o);
    if o in Occurrences(s.history, s.occurrences, t) {
      var id :| id in s.history && id in s.occurrences && id.template == t && s.occurrences[id] == o;
      assert OccurrenceOk(s, id);
    }
    if o.id in s.occurrences && s.occurrences[o.id] == o {
      assert OccurrenceOk(s, o.id);
    }
  }

  lemma ReviewListed(s: Store, t: Id)
    requires StoreOk(s)
    ensures AnyReview(Occurrences(s.history, s.occurrences, t)) <==>
      exists id :: id in s.occurrences && id.template == t && s.occurrences[id].status == ReviewRequired
  {
    var occs := Occurrences(s.history, s.occurrences, t);
    if AnyReview(occs) {
      var o :| o in occs && o.status == ReviewRequired;
      ListedInStore(s, t, o);
      assert s.occurrences[o.id].status == ReviewRequired;
    }
    if id :| id in s.occurrences && id.template == t && s.occurrences[id].status == ReviewRequired {
      assert OccurrenceOk(s, id);
      ListedInStore(s, t, s.occurrences[id]);
      assert s.occurrences[id] in occs;
    }
  }

  /** A pending occurrence is taken up against all occurrences of its template in
      the order they were claimed, and with none left the windows are looked at. */
  lemma RetryMeans(s: System, e: Event, t: Template, pending: seq<Occurrence>)
    requires e.Advance? && In(s, e.p, Retry(t, pending))
    ensures OnlyStage(s, Step(s, e), e.p,
      if pending == [] then Window(t)
      else Check(pending[0], pending[0].fingerprint, Occurrences(s.store.history, s.store.occurrences, t.id), Retrying(t, pending[1..])))
  {
    var v := EvaluationOf(s, e.p);
    assert EvaluationOk(s.store, s.relay, s.nextToken, v);
    BusyStep(s, e);
    if pending != [] {
      assert pending[0] in pending;
      assert OccurrenceOk(s.store, pending[0].id) && TemplateOk(s.store, v.id);
    }
  }

  /** Windows are left alone while something of the template waits. */
  lemma WindowWaits(s: System, e: Event, t: Template)
    requires e.Advance? && In(s, e.p, Window(t)) && Waiting(s.store, t.id)
    ensures OnlyStage(s, Step(s, e), e.p, Unlock)
  {
    BusyStep(s, e);
    WaitingMeans(s.store, t.id);
  }

  /** They are passed over, with the checkpoint to follow, when none is due or the
      due ones deserve nothing. */
  lemma WindowIdle(s: System, e: Event, t: Template)
    requires e.Advance? && In(s, e.p, Window(t)) && t.intervalSeconds > 0 && !Waiting(s.store, t.id)
    requires Deserved(t, LastFor(s.store, t.id), EvaluationOf(s, e.p).now).None?
    ensures var passed := DueSet(t, LastFor(s.store, t.id), EvaluationOf(s, e.p).now) != {};
      OnlyStage(s, Step(s, e), e.p, if e.mute && passed then Throwing else Mark(t, Lookup(s.store.checkpoints, t.id)))
  {
    BusyStep(s, e);
    var now, last := EvaluationOf(s, e.p).now, LastFor(s.store, t.id);
    WaitingMeans(s.store, t.id);
    CountIsDue(t, last, now);
    assert DueSet(t, last, now) == {} <==> |DueSet(t, last, now)| == 0;
  }

  /** What the newest due instant deserves is claimed; a new record that is due is
      taken up at once against all occurrences of its template, and a slot that is
      taken already only lets the checkpoint follow. */
  lemma WindowClaims(s: System, e: Event, t: Template, at: Time)
    requires e.Advance? && In(s, e.p, Window(t)) && t.intervalSeconds > 0 && !Waiting(s.store, t.id)
    requires Newest(t, LastFor(s.store, t.id), EvaluationOf(s, e.p).now, at)
    requires Deserved(t, LastFor(s.store, t.id), EvaluationOf(s, e.p).now).Some?
    ensures var (s', now, k) := (Step(s, e), EvaluationOf(s, e.p).now, Slot(t.id, at));
      var (status, c) := (Deserved(t, LastFor(s.store, t.id), now).value, Lookup(s.store.checkpoints, t.id));
      var o := Occurrence(k, t.revision, t, status, None, 0, None, now, now, 1);
      && s'.relay == s.relay && s'.store.checkpoints == s.store.checkpoints
      && if k in s.store.occurrences then OnlyStage(s, s', e.p, Mark(t, c))
         else
           && s'.store.occurrences == s.store.occurrences[k := o]
           && StageIn(s', e.p) == Some(
                if e.mute then Throwing
                else if status == ReviewRequired then Mark(t, c)
                else Check(o, t, Occurrences(s'.store.history, s'.store.occurrences, t.id), Marking(t, c)))
  {
    var v := EvaluationOf(s, e.p);
    var status := Deserved(t, LastFor(s.store, t.id), v.now).value;
    BusyStep(s, e);
    WindowAdds(s, e.p, e);
    PlanMeans(s.store, t, v.now, at, status);
    assert EvaluationOk(s.store, s.relay, s.nextToken, v);
    WaitingMeans(s.store, t.id);
    NothingWaits(s.store, t.id);
    ClaimStepResult(s, v, t, at, status, Marking(t, Lookup(s.store.checkpoints, t.id)), e);
    assert TemplateOk(s.store, t.id);
  }

  /** The checkpoint goes to the evaluation's instant, at its next revision, unless
      it is there or later already; nothing else is written. */
  lemma MarkMeans(s: System, e: Event, t: Template, c: Option<Checkpoint>)
    requires e.Advance? && In(s, e.p, Mark(t, c))
    ensures var (s', v) := (Step(s, e), EvaluationOf(s, e.p));
      && StageIn(s', e.p) == Some(Unlock) && s'.relay == s.relay && s'.store.occurrences == s.store.occurrences
      && c == Lookup(s.store.checkpoints, v.id)
      && s'.store.checkpoints ==
           if c.Some? && v.now <= c.value.lastEvaluatedAt then s.store.checkpoints
           else s.store.checkpoints[v.id := Checkpoint(v.id, v.now, if c.Some? then c.value.revision + 1 else 1, v.now)]
  {
    assert EvaluationOk(s.store, s.relay, s.nextToken, EvaluationOf(s, e.p));
    BusyStep(s, e);
    MarkKeeps(s, e.p);
  }

  /** Leaving gives the lock back; in order the next template follows, after a
      throw the evaluation is over. */
  lemma LeavesMeans(s: System, e: Event)
    requires e.Advance? && Inv(s) && EvaluationOf(s, e.p).Working?
    requires EvaluationOf(s, e.p).stage.Unlock? || EvaluationOf(s, e.p).stage.Throwing?
    ensures var (s', v) := (Step(s, e), EvaluationOf(s, e.p));
      && s'.store == s.store.(locks := s.store.locks - {v.id}) && s'.relay == s.relay
      && EvaluationOf(s', e.p) == if v.stage.Unlock? then Scanning(v.now, v.todo) else Idle
  {
    assert EvaluationOk(s.store, s.relay, s.nextToken, EvaluationOf(s, e.p));
  }

  /** A listed template is taken up exactly when it was ACTIVE in the listing and
      nobody holds its lock, which is then the evaluation's. */
  lemma ScanMeans(s: System, e: Event)
    requires e.Advance? && EvaluationOf(s, e.p).Scanning?
    ensures var (s', v) := (Step(s, e), EvaluationOf(s, e.p));
      && s'.relay == s.relay
      && if v.todo == [] then s'.store == s.store && EvaluationOf(s', e.p) == Idle
         else if v.todo[0].status == Active && v.todo[0].id !in s.store.locks then
           && s'.store == s.store.(locks := s.store.locks[v.todo[0].id := s.nextToken]) && s'.nextToken == s.nextToken + 1
           && EvaluationOf(s', e.p) == Working(v.now, v.todo[1..], v.todo[0].id, s.nextToken, Locked)
         else s'.store == s.store && EvaluationOf(s', e.p) == Scanning(v.now, v.todo[1..])
  {
  }

  /** A definition the store takes: within its bounds, with nobody evaluating the
      template, and either the first one of a new template or the next one of a
      template that is not retired, no older and created at the same time. */
  predicate Takes(s: Store, t: Template, expected: Option<nat>) {
    && t.revision >= 1 && 60 <= t.intervalSeconds <= 31_536_000 && t.id !in s.locks
    && if t.id !in s.templates then expected.None? && t.revision == 1
       else
         var was := s.templates[t.id];
         && expected == Some(was.revision) && t.revision == was.revision + 1
         && was.status != Retired && was.updatedAt <= t.updatedAt && was.createdAt == t.createdAt
  }

  /** Exactly such an edit replaces the definition and adds its revision. */
  lemma EditIff(s: System, t: Template, expected: Option<nat>)
    ensures var s' := Step(s, EditTemplate(t, expected));
      if Takes(s.store, t, expected) then
        s' == s.(store := s.store.(
                   templates := s.store.templates[t.id := t], revisions := s.store.revisions[(t.id, t.revision) := t],
                   templateOrder := if t.id in s.store.templates then s.store.templateOrder else s.store.templateOrder + [t.id]))
      else s' == s
  {
  }

  predicate SameTemplates(s: Store, s': Store) {
    s'.templates == s.templates && s'.templateOrder == s.templateOrder
  }

  lemma UpdateKeepsTemplates(s: Store, o: Occurrence, p: Patch, token: nat, raw: Time)
    ensures SameTemplates(s, Update(s, o, p, token, raw).0)
  {
  }

  lemma ConcludeKeepsTemplates(s: System, w: Evaluation, o: Occurrence, p: Patch, after: After, e: Event)
    requires w.Working? && e.Advance?
    ensures SameTemplates(s.store, Conclude(s, w, o, p, after, e).0.store)
  {
    UpdateKeepsTemplates(s.store, o, p, w.token, e.raw);
  }

  lemma GuardedKeepsTemplates(s: System, w: Evaluation, o: Occurrence, p: Patch, after: After, e: Event)
    requires w.Working? && e.Advance?
    ensures SameTemplates(s.store, Guarded(s, w, o, p, after, e).0.store)
  {
    UpdateKeepsTemplates(s.store, o, p, w.token, e.raw2);
    var s1 := s.(store := Update(s.store, o, p, w.token, e.raw2).0);
    ConcludeKeepsTemplates(s1, w, o, ToStatus(ReviewRequired), after, e);
  }

  lemma EnterKeepsTemplates(s: System, w: Evaluation, o: Occurrence, after: After, e: Event)
    requires w.Working? && e.Advance?
    ensures SameTemplates(s.store, Enter(s, w, o, after, e).0.store)
  {
    ConcludeKeepsTemplates(s, w, o, ToStatus(ReviewRequired), after, e);
  }

  lemma CheckKeepsTemplates(s: System, w: Evaluation, e: Event)
    requires w.Working? && w.stage.Check? && e.Advance?
    ensures SameTemplates(s.store, CheckStep(s, w, e).0.store)
  {
    var o := w.stage.occ;
    ConcludeKeepsTemplates(s, w, o, ToStatus(ReviewRequired), w.stage.after, e);
    UpdateKeepsTemplates(ObserveTime(s.store, e.raw2), o, SubmissionPatch(s.store, o, e.raw2), w.token, e.raw);
  }

  lemma RepliedKeepsTemplates(s: System, w: Evaluation, e: Event)
    requires w.Working? && w.stage.Replied? && e.Advance?
    ensures SameTemplates(s.store, RepliedStep(s, w, e).0.store)
  {
    var Replied(o, _, reply, after) := w.stage;
    ConcludeKeepsTemplates(s, w, o, ToStatus(ReviewRequired), after, e);
    match reply
    case Bound(job) => GuardedKeepsTemplates(s, w, o, Patch(Submitted, Some(job.id), None, None, 0), after, e);
    case _ => GuardedKeepsTemplates(s, w, o, ToStatus(ReviewRequired), after, e);
  }

  lemma ClaimKeepsTemplates(s: System, w: Evaluation, t: Template, at: Time, status: OccurrenceStatus, after: After, e: Event)
    requires w.Working? && e.Advance?
    ensures SameTemplates(s.store, ClaimStep(s, w, t, at, status, after, e).0.store)
  {
    var (store, _, record) := ClaimOccurrence(s.store, FreshOccurrence(t, at, status, w.now), w.token);
    assert SameTemplates(s.store, store);
    if record.Some? {
      EnterKeepsTemplates(s.(store := store), w, record.value, after, e);
    }
  }

  lemma WindowKeepsTemplates(s: System, w: Evaluation, e: Event)
    requires w.Working? && w.stage.Window? && e.Advance?
    ensures SameTemplates(s.store, WindowStep(s, w, e).0.store)
  {
    var t := w.stage.template;
    match PlanOf(s.store, t, w.now)
    case ClaimOne(at, status) => ClaimKeepsTemplates(s, w, t, at, status, Marking(t, Lookup(s.store.checkpoints, t.id)), e);
    case _ =>
  }

  lemma WorkKeepsTemplates(s: System, w: Evaluation, e: Event)
    requires w.Working? && e.Advance? && !w.stage.Unlock? && !w.stage.Throwing?
    ensures SameTemplates(s.store, WorkStep(s, w, e).0.store)
  {
    match w.stage
    case Retry(t, pending) =>
      if pending != [] {
        EnterKeepsTemplates(s, w, pending[0], Retrying(t, pending[1..]), e);
      }
    case Window(_) => WindowKeepsTemplates(s, w, e);
    case Check(_, _, _, _) => CheckKeepsTemplates(s, w, e);
    case Answered(o, _, _, _, _, after) =>
      ConcludeKeepsTemplates(s, w, o, ToStatus(ReviewRequired), after, e);
      ConcludeKeepsTemplates(s, w, o, ToStatus(Skipped), after, e);
    case Replied(_, _, _, _) => RepliedKeepsTemplates(s, w, e);
    case _ =>
  }

  lemma StepOrders(s: System, e: Event)
    requires forall t :: t in s.store.templates ==> t in s.store.templateOrder
    ensures forall t :: t in Step(s, e).store.templates ==> t in Step(s, e).store.templateOrder
  {
    if AtWork(s, e) {
      BusyStep(s, e);
      WorkKeepsTemplates(s, EvaluationOf(s, e.p), e);
      assert SameTemplates(s.store, Step(s, e).store);
    } else if e.EditTemplate? {
    } else {
      QuietKeepsTemplates(s, e);
    }
  }

  lemma QuietKeepsTemplates(s: System, e: Event)
    requires !AtWork(s, e) && !e.EditTemplate?
    ensures SameTemplates(s.store, Step(s, e).store)
  {
    match e
    case Advance(p, _, _, _, _, _, _, _) =>
      match EvaluationOf(s, p) {
        case Scanning(now, todo) => assert SameTemplates(s.store, ScanStep(s, p, Scanning(now, todo)).store);
        case _ =>
      }
    case _ =>
  }

  /** Every stored template stays in the listing order. */
  lemma {:induction false} EveryTemplateOrdered(events: seq<Event>)
    ensures forall t :: t in Run(START, events).store.templates ==> t in Run(START, events).store.templateOrder
    decreases |events|
  {
    if events != [] {
      EveryTemplateOrdered(events[..|events| - 1]);
      StepOrders(Run(START, events[..|events| - 1]), events[|events| - 1]);
    }
  }

  /** Over every run: an evaluation starts at the later of the clock and the high
      water mark, with every stored template listed. */
  lemma BeginMeans(events: seq<Event>, p: Id, raw: Time)
    requires EvaluationOf(Run(START, events), p) == Idle
    ensures var s := Run(START, events).store;
      var v := EvaluationOf(Step(Run(START, events), Begin(p, raw)), p);
      && v.Scanning? && v.now == (if s.highWater.Some? && s.highWater.value > raw then s.highWater.value else raw)
      && forall t :: t in s.templates ==> s.templates[t] in v.todo
  {
    EveryTemplateOrdered(events);
    var s := Run(START, events).store;
    forall t | t in s.templates
      ensures s.templates[t] in ListTemplates(s.templateOrder, s.templates)
    {
      EveryListed(s.templateOrder, s.templates, t);
    }
  }

  lemma {:induction false} EveryListed(order: seq<Id>, templates: map<Id, Template>, t: Id)
    requires t in order && t in templates
    ensures templates[t] in ListTemplates(order, templates)
  {
    if order[0] != t {
      EveryListed(order[1..], templates, t);
    }
  }
}
