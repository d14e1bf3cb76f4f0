// What the recurring-work engine guarantees over whole runs.

module CalendarRuns {
  import opened Common
  import opened CalendarStore
  import opened CalendarEngine
  import opened CalendarInvariant
  import opened CalendarSafety

  // -------------------------------------------------- claiming a new window

  /** The store after a successful claim. */
  function Added(s: Store, o: Occurrence): Store {
    s.(occurrences := s.occurrences[o.id := o], history := s.history + [o.id],
       claims := s.claims[(o.id.template, o.id.scheduledAt) := o.id])
  }

  lemma AddStore(s: Store, o: Occurrence)
    requires StoreOk(s) && o.id !in s.occurrences
    requires ValidOccurrence(o) && o.attempts == 0 && (o.status == Due || o.status == ReviewRequired)
    requires (o.id.template, o.templateRevision) in s.revisions && s.revisions[(o.id.template, o.templateRevision)] == o.fingerprint
    requires s.highWater.Some? && o.updatedAt <= s.highWater.value
    ensures StoreOk(Added(s, o))
  {
    var s' := Added(s, o);
    forall id {:trigger OccurrenceOk(s', id)} | id in s'.occurrences
      ensures OccurrenceOk(s', id)
    {
      if id != o.id {
        assert OccurrenceOk(s, id);
      }
    }
    assert o.id !in s.history;
  }

  lemma AddApart(s: Store, jobs: Jobs, o: Occurrence)
    requires StoreOk(s) && AllApart(s.occurrences, jobs)
    requires o.id !in s.occurrences && o.attempts == 0
    requires forall id :: id in s.occurrences && id.template == o.id.template ==> !Unsettled(s.occurrences[id].status)
    ensures AllApart(Added(s, o).occurrences, jobs)
  {
    var occs := Added(s, o).occurrences;
    forall a, b {:trigger Apart(occs[a], occs[b], jobs)} | a in occs && b in occs && a.template == b.template && a != b
      ensures Apart(occs[a], occs[b], jobs)
    {
      if a != o.id && b != o.id {
        assert Apart(s.occurrences[a], s.occurrences[b], jobs);
      }
    }
  }

  lemma AddRelay(occs: Occs, r: Relay, o: Occurrence)
    requires RelayOk(occs, r) && o.id !in occs && o.attempts == 0 && o.status != Submitted
    ensures RelayOk(occs[o.id := o], r)
  {
    var occs' := occs[o.id := o];
    assert forall n :: n in r.keys ==> KeyOk(occs, r, n);
    assert forall j :: j in r.jobs ==> JobOk(r, j);
    assert forall k :: k in occs ==> SubmissionOk(occs, r, k);
  }

  lemma AddFrames(s: System, p: Id, o: Occurrence)
    requires EvaluationsOk(s) && EvaluationOf(s, p).Working? && o.id.template == EvaluationOf(s, p).id
    ensures forall q :: q in s.evaluations && q != p && s.evaluations[q].Working? ==>
      SameFor(s.store, Added(s.store, o), s.evaluations[q].id)
  {
    forall q | q in s.evaluations && q != p && s.evaluations[q].Working?
      ensures SameFor(s.store, Added(s.store, o), s.evaluations[q].id)
    {
      Exclusive(s, p, q);
    }
  }

  lemma AddKeeps(s: System, p: Id, o: Occurrence, stage: Stage)
    requires Inv(s) && EvaluationOf(s, p).Working? && o.id.template == EvaluationOf(s, p).id && o.id !in s.store.occurrences
    requires ValidOccurrence(o) && o.attempts == 0 && (o.status == Due || o.status == ReviewRequired)
    requires (o.id.template, o.templateRevision) in s.store.revisions && s.store.revisions[(o.id.template, o.templateRevision)] == o.fingerprint
    requires o.updatedAt == EvaluationOf(s, p).now
    requires forall id :: id in s.store.occurrences && id.template == o.id.template ==> !Unsettled(s.store.occurrences[id].status)
    requires StageOk(Added(s.store, o), s.relay, o.id.template, stage)
    ensures Inv(With(s.(store := Added(s.store, o)), p, EvaluationOf(s, p).(stage := stage)))
  {
    var v := EvaluationOf(s, p);
    assert EvaluationOk(s.store, s.relay, s.nextToken, v);
    var s' := With(s.(store := Added(s.store, o)), p, v.(stage := stage));
    AddStore(s.store, o);
    AddApart(s.store, s.relay.jobs, o);
    AddRelay(s.store.occurrences, s.relay, o);
    AddFrames(s, p, o);
    OneMoves(s, s', p, v.(stage := stage));
  }

  /** With its lock held and its definition active, a claim is granted unless
      the slot already has an occurrence, which is then returned. */
  lemma ClaimResult(s: Store, t: Template, at: Time, status: OccurrenceStatus, now: Time, token: nat)
    requires StoreOk(s) && Current(s, t.id, t) && Lookup(s.locks, t.id) == Some(token)
    requires status == Due || status == ReviewRequired
    ensures var o := FreshOccurrence(t, at, status, now);
      ClaimOccurrence(s, o, token) ==
        if o.id in s.occurrences then (s, Existing, Some(s.occurrences[o.id])) else (Added(s, o), Created, Some(o))
  {
    var id := Slot(t.id, at);
    assert id in s.occurrences ==> OccurrenceOk(s, id);
  }

  lemma ClaimDue(s: System, p: Id, o: Occurrence, after: After, e: Event)
    requires EvaluationOf(s, p).Working? && e.Advance?
    requires o.id !in s.store.occurrences && o.status == Due && o.id.template == EvaluationOf(s, p).id
    requires AfterOk(s.store, o.id.template, after)
    requires Inv(With(s.(store := Added(s.store, o)), p, EvaluationOf(s, p).(stage := Resume(after))))
    ensures var (s1, next) := Enter(s.(store := Added(s.store, o)), EvaluationOf(s, p), o, after, e);
      Inv(With(s1, p, EvaluationOf(s, p).(stage := next))) && next.Check?
  {
    var v := EvaluationOf(s, p);
    var added := s.(store := Added(s.store, o));
    var s1 := With(added, p, v.(stage := Resume(after)));
    EnterKeeps(s1, p, o, after, e);
    EnterForgetsStage(s1, added, p, v, Resume(after), o, after, e);
  }

  lemma ClaimStepResult(s: System, w: Evaluation, t: Template, at: Time, status: OccurrenceStatus, after: After, e: Event)
    requires StoreOk(s.store) && w.Working? && w.id == t.id && e.Advance?
    requires Current(s.store, t.id, t) && Lookup(s.store.locks, t.id) == Some(w.token)
    requires status == Due || status == ReviewRequired
    requires forall id :: id in s.store.occurrences && id.template == t.id ==> !Unsettled(s.store.occurrences[id].status)
    ensures var o := FreshOccurrence(t, at, status, w.now);
      var added := s.(store := Added(s.store, o));
      ClaimStep(s, w, t, at, status, after, e) ==
        if o.id in s.store.occurrences then (s, Resume(after))
        else if e.mute then (added, Throwing)
        else if status == Due then Enter(added, w, o, after, e)
        else (added, Resume(after))
  {
    var o := FreshOccurrence(t, at, status, w.now);
    ClaimResult(s.store, t, at, status, w.now, w.token);
    if o.id in s.store.occurrences {
      assert !Unsettled(s.store.occurrences[o.id].status);
      assert s.(store := s.store) == s;
    }
  }

  /** With nothing unsettled the store never refuses `#claim`, and an existing
      record it returns is one that is already final. */
  lemma ClaimKeeps(s: System, p: Id, t: Template, at: Time, status: OccurrenceStatus, after: After, e: Event)
    requires Inv(s) && EvaluationOf(s, p).Working? && e.Advance?
    requires Current(s.store, EvaluationOf(s, p).id, t) && t.id == EvaluationOf(s, p).id
    requires AfterOk(s.store, t.id, after)
    requires status == Due || status == ReviewRequired
    requires forall id :: id in s.store.occurrences && id.template == t.id ==> !Unsettled(s.store.occurrences[id].status)
    ensures var (s1, next) := ClaimStep(s, EvaluationOf(s, p), t, at, status, after, e);
      Inv(With(s1, p, EvaluationOf(s, p).(stage := next))) && (next == Throwing ==> e.mute)
  {
    var v := EvaluationOf(s, p);
    assert EvaluationOk(s.store, s.relay, s.nextToken, v);
    var o := FreshOccurrence(t, at, status, v.now);
    ClaimStepResult(s, v, t, at, status, after, e);
    if o.id in s.store.occurrences {
      MoveKeeps(s, p, Resume(after));
    } else {
      assert TemplateOk(s.store, t.id);
      assert AfterOk(Added(s.store, o), t.id, after);
      AddKeeps(s, p, o, if e.mute then Throwing else Resume(after));
      if status == Due && !e.mute {
        ClaimDue(s, p, o, after, e);
      }
    }
  }

  /** `Enter` looks at neither the stage nor the evaluation table. */
  lemma EnterForgetsStage(s1: System, s: System, p: Id, v: Evaluation, stage: Stage, o: Occurrence, after: After, e: Event)
    requires v.Working? && e.Advance? && s1 == With(s, p, v.(stage := stage))
    ensures var (a, next) := Enter(s, v, o, after, e);
      var (b, next') := Enter(s1, v.(stage := stage), o, after, e);
      next == next' && With(a, p, v.(stage := next)) == With(b, p, v.(stage := next))
  {
    var (a, next) := Enter(s, v, o, after, e);
    var (b, next') := Enter(s1, v.(stage := stage), o, after, e);
    assert a.evaluations == s.evaluations && b.evaluations == s1.evaluations;
    assert s.evaluations[p := v.(stage := next)] == s1.evaluations[p := v.(stage := next)];
  }

  lemma NothingWaits(s: Store, t: Id)
    requires StoreOk(s) && !AnyOpenOrReview(Occurrences(s.history, s.occurrences, t))
    ensures forall id :: id in s.occurrences && id.template == t ==> !Unsettled(s.occurrences[id].status)
  {
    forall id | id in s.occurrences && id.template == t
      ensures !Unsettled(s.occurrences[id].status)
    {
      assert OccurrenceOk(s, id);
      ListedIff(s.history, s.occurrences, t, s.occurrences[id]);
    }
  }

  lemma WindowKeeps(s: System, p: Id, e: Event)
    requires Inv(s) && EvaluationOf(s, p).Working? && EvaluationOf(s, p).stage.Window? && e.Advance?
    ensures var (s1, next) := WindowStep(s, EvaluationOf(s, p), e);
      Inv(With(s1, p, EvaluationOf(s, p).(stage := next))) && (next == Throwing ==> e.mute)
  {
    var v := EvaluationOf(s, p);
    var t := v.stage.template;
    assert EvaluationOk(s.store, s.relay, s.nextToken, v);
    assert TemplateOk(s.store, v.id);
    var checkpoint := Lookup(s.store.checkpoints, t.id);
    match PlanOf(s.store, t, v.now)
    case Wait => MoveKeeps(s, p, Unlock);
    case NothingDue => MoveKeeps(s, p, Mark(t, checkpoint));
    case Pass => MoveKeeps(s, p, if e.mute then Throwing else Mark(t, checkpoint));
    case ClaimOne(at, status) =>
      NothingWaits(s.store, t.id);
      ClaimKeeps(s, p, t, at, status, Marking(t, checkpoint), e);
  }

  // ---------------------------------------------------------- checkpoints

  lemma MarkKeeps(s: System, p: Id)
    requires Inv(s) && EvaluationOf(s, p).Working? && EvaluationOf(s, p).stage.Mark?
    ensures var (s1, next) := MarkStep(s, EvaluationOf(s, p));
      next == Unlock && Inv(With(s1, p, EvaluationOf(s, p).(stage := next)))
  {
    var v := EvaluationOf(s, p);
    assert EvaluationOk(s.store, s.relay, s.nextToken, v);
    var (s1, next) := MarkStep(s, v);
    var s' := With(s1, p, v.(stage := next));
    if s1 == s {
      MoveKeeps(s, p, Unlock);
    } else {
      StoreOkWithCheckpoint(s.store, s1.store);
      forall q | q in s.evaluations && q != p && s.evaluations[q].Working?
        ensures SameFor(s.store, s'.store, s.evaluations[q].id)
      {
        Exclusive(s, p, q);
      }
      OneMoves(s, s', p, v.(stage := next));
    }
  }

  lemma StoreOkWithCheckpoint(s: Store, s': Store)
    requires StoreOk(s) && s' == s.(checkpoints := s'.checkpoints)
    requires forall t :: t in s'.checkpoints ==>
      && s'.checkpoints[t].template == t && s'.checkpoints[t].revision >= 1
      && s'.checkpoints[t].updatedAt <= s'.checkpoints[t].lastEvaluatedAt
    ensures StoreOk(s')
  {
    forall id {:trigger OccurrenceOk(s', id)} | id in s'.occurrences
      ensures OccurrenceOk(s', id)
    {
      assert OccurrenceOk(s, id);
    }
  }

  // -------------------------------------------- locks, scans and the rest

  lemma StoreOkWithLocks(s: Store, s': Store)
    requires StoreOk(s) && s' == s.(locks := s'.locks)
    ensures StoreOk(s')
  {
    forall id {:trigger OccurrenceOk(s', id)} | id in s'.occurrences
      ensures OccurrenceOk(s', id)
    {
      assert OccurrenceOk(s, id);
    }
  }

  lemma LockMoves(s: System, s': System, p: Id, v: Evaluation, t: Id)
    requires Inv(s) && s'.evaluations == s.evaluations[p := v]
    requires s' == s.(store := s.store.(locks := s'.store.locks), evaluations := s'.evaluations, nextToken := s'.nextToken)
    requires s.nextToken <= s'.nextToken
    requires forall u :: u != t ==> Lookup(s'.store.locks, u) == Lookup(s.store.locks, u)
    requires forall q :: q in s.evaluations && q != p && s.evaluations[q].Working? ==> s.evaluations[q].id != t
    requires EvaluationOk(s'.store, s'.relay, s'.nextToken, v)
    requires v.Working? ==> v.token == s.nextToken
    ensures Inv(s')
  {
    StoreOkWithLocks(s.store, s'.store);
    forall q | q in s.evaluations && q != p && s.evaluations[q].Working?
      ensures SameFor(s.store, s'.store, s.evaluations[q].id)
    {
    }
    OneMoves(s, s', p, v);
  }

  lemma ScanKeeps(s: System, p: Id)
    requires Inv(s) && EvaluationOf(s, p).Scanning?
    ensures Inv(ScanStep(s, p, EvaluationOf(s, p)))
  {
    var v := EvaluationOf(s, p);
    var s' := ScanStep(s, p, v);
    var t := if v.todo == [] then 0 else v.todo[0].id;
    assert EvaluationOk(s.store, s.relay, s.nextToken, v);
    if s'.store == s.store {
      OneMoves(s, s', p, EvaluationOf(s', p));
    } else {
      forall q | q in s.evaluations && q != p && s.evaluations[q].Working?
        ensures s.evaluations[q].id != t
      {
        assert EvaluationOk(s.store, s.relay, s.nextToken, s.evaluations[q]);
      }
      LockMoves(s, s', p, EvaluationOf(s', p), t);
    }
  }

  /** Leaving, in order or by a throw, gives the lock back. */
  lemma UnlockKeeps(s: System, p: Id)
    requires Inv(s) && EvaluationOf(s, p).Working?
    ensures var v := EvaluationOf(s, p);
      var released := s.(store := Release(s.store, v.id, v.token));
      Inv(With(released, p, Scanning(v.now, v.todo))) && Inv(With(released, p, Idle))
  {
    var v := EvaluationOf(s, p);
    assert EvaluationOk(s.store, s.relay, s.nextToken, v);
    var released := s.(store := Release(s.store, v.id, v.token));
    forall q | q in s.evaluations && q != p && s.evaluations[q].Working?
      ensures s.evaluations[q].id != v.id
    {
      Exclusive(s, p, q);
    }
    LockMoves(s, With(released, p, Scanning(v.now, v.todo)), p, Scanning(v.now, v.todo), v.id);
    LockMoves(s, With(released, p, Idle), p, Idle, v.id);
  }

  lemma BeginKeeps(s: System, p: Id, raw: Time)
    requires Inv(s)
    ensures Inv(Step(s, Begin(p, raw)))
  {
    var s' := Step(s, Begin(p, raw));
    if s' != s {
      ObserveKeepsStore(s.store, raw);
      OneMoves(s, s', p, EvaluationOf(s', p));
    }
  }

  lemma EditTemplates(s: Store, value: Template, expected: Option<nat>)
    requires TemplatesOk(s)
    ensures TemplatesOk(PutTemplate(s, value, expected).0)
  {
    var s' := PutTemplate(s, value, expected).0;
    if s' != s {
      assert (value.id, value.revision) in s.revisions ==> RevisionOk(s, (value.id, value.revision));
      forall t {:trigger TemplateOk(s', t)} | t in s'.templates
        ensures TemplateOk(s', t)
      {
        assert t in s.templates ==> TemplateOk(s, t);
      }
      forall k {:trigger RevisionOk(s', k)} | k in s'.revisions
        ensures RevisionOk(s', k)
      {
        assert k in s.revisions ==> RevisionOk(s, k);
      }
    }
  }

  lemma EditStore(s: Store, value: Template, expected: Option<nat>)
    requires StoreOk(s)
    ensures var s' := PutTemplate(s, value, expected).0;
      StoreOk(s') && s' == s.(templates := s'.templates, templateOrder := s'.templateOrder, revisions := s'.revisions)
      && (forall t :: t in s.locks ==> Lookup(s'.templates, t) == Lookup(s.templates, t))
  {
    var s' := PutTemplate(s, value, expected).0;
    EditTemplates(s, value, expected);
    if s' != s {
      assert (value.id, value.revision) in s.revisions ==> RevisionOk(s, (value.id, value.revision));
      forall id {:trigger OccurrenceOk(s', id)} | id in s'.occurrences
        ensures OccurrenceOk(s', id)
      {
        assert OccurrenceOk(s, id);
      }
    }
  }

  /** The store refuses to edit a template while its evaluation is in progress. */
  lemma EditKeeps(s: System, value: Template, expected: Option<nat>)
    requires Inv(s)
    ensures Inv(Step(s, EditTemplate(value, expected)))
  {
    var s' := Step(s, EditTemplate(value, expected));
    EditStore(s.store, value, expected);
    forall q | q in s.evaluations
      ensures EvaluationOk(s'.store, s'.relay, s'.nextToken, s.evaluations[q])
    {
      var v := s.evaluations[q];
      assert EvaluationOk(s.store, s.relay, s.nextToken, v);
      if v.Working? {
        assert v.id in s.store.locks;
        StageFrame(s.store, s.relay, s'.store, s'.relay, v.id, v.stage);
      }
    }
  }

  lemma RetryKeeps(s: System, p: Id, e: Event)
    requires Inv(s) && e.Advance? && EvaluationOf(s, p).Working? && EvaluationOf(s, p).stage.Retry?
    ensures var (s1, next) := WorkStep(s, EvaluationOf(s, p), e);
      Inv(With(s1, p, EvaluationOf(s, p).(stage := next))) && next != Throwing
  {
    var v := EvaluationOf(s, p);
    var Retry(t, pending) := v.stage;
    assert EvaluationOk(s.store, s.relay, s.nextToken, v);
    if pending == [] {
      MoveKeeps(s, p, Window(t));
    } else {
      assert pending[0] in pending;
      EnterKeeps(s, p, pending[0], Retrying(t, pending[1..]), e);
    }
  }

  lemma WorkKeeps(s: System, p: Id, e: Event)
    requires Inv(s) && e.Advance? && EvaluationOf(s, p).Working?
    requires !EvaluationOf(s, p).stage.Unlock? && !EvaluationOf(s, p).stage.Throwing?
    ensures var (s1, next) := WorkStep(s, EvaluationOf(s, p), e);
      Inv(With(s1, p, EvaluationOf(s, p).(stage := next))) && (next == Throwing ==> e.mute)
  {
    var v := EvaluationOf(s, p);
    match v.stage
    case Locked => LockedKeeps(s, p);
    case Retry(_, _) => RetryKeeps(s, p, e);
    case Window(_) => WindowKeeps(s, p, e);
    case Check(_, _, _, _) => CheckKeeps(s, p, e);
    case Answered(_, _, _, _, _, _) => AnsweredKeeps(s, p, e);
    case Calling(_, _, _) => CallingKeeps(s, p, e);
    case Claimed(_, _, _, _) => ClaimedKeeps(s, p, e);
    case Replied(_, _, _, _) => RepliedKeeps(s, p, e);
    case Mark(_, _) => MarkKeeps(s, p);
  }

  lemma StepKeeps(s: System, e: Event)
    requires Inv(s)
    ensures Inv(Step(s, e))
  {
    match e
    case Begin(p, raw) => BeginKeeps(s, p, raw);
    case EditTemplate(value, expected) => EditKeeps(s, value, expected);
    case JobMoves(job, to) => JobMovesKeeps(s, job, to);
    case Advance(p, _, _, _, _, _, _, _) =>
      var v := EvaluationOf(s, p);
      if v.Scanning? {
        ScanKeeps(s, p);
      } else if v.Working? {
        assert EvaluationOk(s.store, s.relay, s.nextToken, v);
        if v.stage.Unlock? || v.stage.Throwing? {
          UnlockKeeps(s, p);
        } else {
          WorkKeeps(s, p, e);
        }
      }
  }

  lemma {:induction false} RunKeeps(events: seq<Event>)
    ensures Inv(Run(START, events))
    decreases |events|
  {
    if events == [] {
    } else {
      RunKeeps(events[..|events| - 1]);
      StepKeeps(Run(START, events[..|events| - 1]), events[|events| - 1]);
    }
  }
}
