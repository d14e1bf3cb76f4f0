// The promises of the recurring-work engine, for every run.

module CalendarTheorems {
  import opened Common
  import opened CalendarStore
  import opened CalendarEngine
  import opened CalendarInvariant
  import opened CalendarSafety
  import opened CalendarRuns

  // ------------------------------------------------ requesters and their jobs

  /** The requester and slot of an `accept` that reaches Relay's claim with this
      event: not rejected, not thrown before it. */
  function Reaches(s: System, e: Event): Option<Namespace> {
    if e.Advance? && EvaluationOf(s, e.p).Working? && EvaluationOf(s, e.p).stage.Calling? && !e.refuse && !e.fault then
      var space := Namespace(e.subject, EvaluationOf(s, e.p).stage.occ.id);
      if space in s.relay.keys || e.newId !in s.relay.jobs then Some(space) else None
    else None
  }

  /** Everyone a slot's claims were made for, over a run. */
  function Requesters(events: seq<Event>, k: Slot): set<Id>
    decreases |events|
  {
    if events == [] then {}
    else
      var front, last := events[..|events| - 1], events[|events| - 1];
      var reached := Reaches(Run(START, front), last);
      Requesters(front, k) + if reached.Some? && reached.value.key == k then {reached.value.subject} else {}
  }

  /** Every claim for the slot resolved the same requester. */
  predicate OneRequester(events: seq<Event>, k: Slot) {
    forall u, v :: u in Requesters(events, k) && v in Requesters(events, k) ==> u == v
  }

  lemma ClaimStaysHere(s: System, w: Evaluation, t: Template, at: Time, status: OccurrenceStatus, after: After, e: Event)
    requires w.Working? && e.Advance?
    ensures var s1 := ClaimStep(s, w, t, at, status, after, e).0;
      s1.relay == s.relay && s1.evaluations == s.evaluations
  {
  }

  lemma WorkKeys(s: System, w: Evaluation, e: Event)
    requires w.Working? && e.Advance? && !w.stage.Unlock? && !w.stage.Throwing? && !w.stage.Calling?
    ensures WorkStep(s, w, e).0.relay.keys == s.relay.keys
  {
    if w.stage.Window? {
      var t := w.stage.template;
      match PlanOf(s.store, t, w.now)
      case ClaimOne(at, status) => ClaimStaysHere(s, w, t, at, status, Marking(t, Lookup(s.store.checkpoints, t.id)), e);
      case _ =>
    }
  }

  lemma StepKeys(s: System, e: Event, n: Namespace)
    requires Inv(s)
    ensures n in Step(s, e).relay.keys <==> n in s.relay.keys || Reaches(s, e) == Some(n)
  {
    if AtWork(s, e) {
      var v := EvaluationOf(s, e.p);
      assert EvaluationOk(s.store, s.relay, s.nextToken, v);
      BusyStep(s, e);
      if v.stage.Calling? {
        var space := Namespace(e.subject, v.stage.occ.id);
        assert space in s.relay.keys ==> KeyOk(s.store.occurrences, s.relay, space);
      } else {
        WorkKeys(s, v, e);
      }
    } else {
      QuietStep(s, e);
    }
  }

  lemma {:induction false} KeysAreRequesters(events: seq<Event>, u: Id, k: Slot)
    ensures u in Requesters(events, k) <==> Namespace(u, k) in Run(START, events).relay.keys
    decreases |events|
  {
    if events != [] {
      KeysAreRequesters(events[..|events| - 1], u, k);
      RunKeeps(events[..|events| - 1]);
      StepKeys(Run(START, events[..|events| - 1]), events[|events| - 1], Namespace(u, k));
    }
  }

  ghost predicate SingleJob(jobs: Jobs, k: Slot) {
    forall a, b :: JobOf(jobs, a, k) && JobOf(jobs, b, k) ==> a == b
  }

  lemma JobHasRequester(events: seq<Event>, k: Slot, a: Id)
    requires JobOf(Run(START, events).relay.jobs, a, k)
    ensures var r := Run(START, events).relay;
      r.jobs[a].subject in Requesters(events, k) && Lookup(r.keys, Namespace(r.jobs[a].subject, k)) == Some(a)
  {
    RunKeeps(events);
    assert JobOk(Run(START, events).relay, a);
    KeysAreRequesters(events, Run(START, events).relay.jobs[a].subject, k);
  }

  lemma RequesterHasJob(events: seq<Event>, k: Slot, u: Id) returns (a: Id)
    requires u in Requesters(events, k)
    ensures JobOf(Run(START, events).relay.jobs, a, k) && Run(START, events).relay.jobs[a].subject == u
  {
    var s := Run(START, events);
    RunKeeps(events);
    KeysAreRequesters(events, u, k);
    assert KeyOk(s.store.occurrences, s.relay, Namespace(u, k));
    a := s.relay.keys[Namespace(u, k)];
  }

  /** One requester has at most one job of a slot. */
  lemma OneJobPerRequester(events: seq<Event>, k: Slot, a: Id, b: Id)
    requires var jobs := Run(START, events).relay.jobs;
      JobOf(jobs, a, k) && JobOf(jobs, b, k) && jobs[a].subject == jobs[b].subject
    ensures a == b
  {
    JobHasRequester(events, k, a);
    JobHasRequester(events, k, b);
  }

  /** So a slot has at most one job exactly when every claim for it resolved the
      same requester. */
  lemma OneJobIffOneRequester(events: seq<Event>, k: Slot)
    ensures SingleJob(Run(START, events).relay.jobs, k) <==> OneRequester(events, k)
  {
    var jobs := Run(START, events).relay.jobs;
    if OneRequester(events, k) {
      forall a, b | JobOf(jobs, a, k) && JobOf(jobs, b, k)
        ensures a == b
      {
        JobHasRequester(events, k, a);
        JobHasRequester(events, k, b);
      }
    } else {
      var u, v :| u in Requesters(events, k) && v in Requesters(events, k) && u != v;
      var a := RequesterHasJob(events, k, u);
      var b := RequesterHasJob(events, k, v);
    }
  }

  // --------------------------------------------------------- Relay overlap

  /** With one requester per slot, at most one job of a recurring template is
      non-terminal, in every state of every run. */
  lemma AtMostOneLiveJob(events: seq<Event>, a: Id, b: Id)
    requires var jobs := Run(START, events).relay.jobs;
      && a in jobs && b in jobs && a != b && jobs[a].key.template == jobs[b].key.template
      && OneRequester(events, jobs[a].key) && OneRequester(events, jobs[b].key)
    ensures var jobs := Run(START, events).relay.jobs; Terminal(jobs[a].state) || Terminal(jobs[b].state)
  {
    RunKeeps(events);
    var s := Run(START, events);
    var occs, r := s.store.occurrences, s.relay;
    assert JobOk(r, a) && JobOk(r, b);
    var ka, kb := r.jobs[a].key, r.jobs[b].key;
    assert KeyOk(occs, r, Namespace(r.jobs[a].subject, ka)) && KeyOk(occs, r, Namespace(r.jobs[b].subject, kb));
    assert SubmissionOk(occs, r, ka) && SubmissionOk(occs, r, kb);
    OneJobIffOneRequester(events, ka);
    OneJobIffOneRequester(events, kb);
    assert JobOf(r.jobs, a, ka) && JobOf(r.jobs, b, kb);
    assert Apart(occs[ka], occs[kb], r.jobs);
  }

  /** Per slot: at most three accept calls, each a recorded attempt; a job means an
      attempt was made and the slot is not SKIPPED; SUBMITTED names a job Relay
      holds for the slot's key, and with one requester it is the slot's only job. */
  lemma SlotGuarantees(events: seq<Event>, k: Slot)
    ensures var s := Run(START, events);
      && s.relay.calls[k] <= (if k in s.store.occurrences then s.store.occurrences[k].attempts else 0) <= MAX_SUBMISSION_ATTEMPTS
      && (forall a :: JobOf(s.relay.jobs, a, k) ==>
           k in s.store.occurrences && s.store.occurrences[k].attempts > 0 && s.store.occurrences[k].status != Skipped)
      && (k in s.store.occurrences && s.store.occurrences[k].status == Submitted ==> Names(s, k))
      && (OneRequester(events, k) ==> SingleJob(s.relay.jobs, k))
  {
    RunKeeps(events);
    var s := Run(START, events);
    assert k in s.store.occurrences ==> OccurrenceOk(s.store, k) && SubmissionOk(s.store.occurrences, s.relay, k);
    forall a | JobOf(s.relay.jobs, a, k)
      ensures k in s.store.occurrences && s.store.occurrences[k].attempts > 0
      ensures Lookup(s.relay.keys, Namespace(s.relay.jobs[a].subject, k)) == Some(a)
    {
      assert JobOk(s.relay, a) && KeyOk(s.store.occurrences, s.relay, Namespace(s.relay.jobs[a].subject, k));
    }
    OneJobIffOneRequester(events, k);
  }

  /** The occurrence names the job filed under its key and some requester. */
  ghost predicate Names(s: System, k: Slot)
    requires k in s.store.occurrences
  {
    var named := s.store.occurrences[k].relayJob;
    && named.Some? && JobOf(s.relay.jobs, named.value, k)
    && Lookup(s.relay.keys, Namespace(s.relay.jobs[named.value].subject, k)) == named
  }

  ghost predicate AtMostOneLive(jobs: Jobs, t: Id) {
    forall a, b {:trigger jobs[a], jobs[b]} ::
      a in jobs && b in jobs && a != b && jobs[a].key.template == t && jobs[b].key.template == t ==>
        Terminal(jobs[a].state) || Terminal(jobs[b].state)
  }

  lemma RequestersNext(events: seq<Event>, e: Event, k: Slot)
    ensures var reached := Reaches(Run(START, events), e);
      Requesters(events + [e], k) == Requesters(events, k) + if reached.Some? && reached.value.key == k then {reached.value.subject} else {}
  {
    assert (events + [e])[..|events|] == events;
  }

  lemma StillOneRequesterIff(events: seq<Event>, e: Event, j: Id, k: Slot)
    requires JobOf(Run(START, events).relay.jobs, j, k) && OneRequester(events, k)
    requires var reached := Reaches(Run(START, events), e); reached.Some? && reached.value.key == k
    ensures OneRequester(events + [e], k) <==> e.subject == Run(START, events).relay.jobs[j].subject
  {
    JobHasRequester(events, k, j);
    RequestersNext(events, e, k);
  }

  /** A job `j` was committed for a slot and a further attempt reaches the claim:
      the slot keeps one job if and only if this attempt resolves the requester
      of that job. */
  lemma NextClaimIff(events: seq<Event>, e: Event, j: Id, k: Slot)
    requires JobOf(Run(START, events).relay.jobs, j, k) && OneRequester(events, k)
    requires var reached := Reaches(Run(START, events), e); reached.Some? && reached.value.key == k
    ensures SingleJob(Run(START, events + [e]).relay.jobs, k) <==> e.subject == Run(START, events).relay.jobs[j].subject
  {
    StillOneRequesterIff(events, e, j, k);
    OneJobIffOneRequester(events + [e], k);
  }

  // ------------------------------------------- when overlap is let in, exactly

  ghost predicate LiveJob(jobs: Jobs, j: Id, t: Id) {
    j in jobs && jobs[j].key.template == t && !Terminal(jobs[j].state)
  }

  /** The event opens no second job of template `t`: it reaches no claim for `t`,
      or its requester's key is already filed, or no job of `t` is going. */
  ghost predicate SafeClaim(s: System, e: Event, t: Id) {
    var reached := Reaches(s, e);
    reached.Some? && reached.value.key.template == t && reached.value !in s.relay.keys ==>
      forall j :: !LiveJob(s.relay.jobs, j, t)
  }

  lemma KnownClaim(s: System, e: Event)
    requires Inv(s) && Reaches(s, e).Some? && Reaches(s, e).value in s.relay.keys
    ensures Step(s, e).relay.jobs == s.relay.jobs
  {
    var v := EvaluationOf(s, e.p);
    assert KeyOk(s.store.occurrences, s.relay, Reaches(s, e).value);
    BusyStep(s, e);
  }

  lemma NewClaim(s: System, e: Event)
    requires Reaches(s, e).Some? && Reaches(s, e).value !in s.relay.keys
    ensures var jobs' := Step(s, e).relay.jobs;
      && e.newId !in s.relay.jobs && jobs' == s.relay.jobs[e.newId := jobs'[e.newId]]
      && jobs'[e.newId].key == Reaches(s, e).value.key && jobs'[e.newId].state == JobSubmitted
  {
    BusyStep(s, e);
  }

  /** A claim leaves at most one live job of its template exactly when it is safe. */
  lemma NextLiveIff(events: seq<Event>, e: Event, t: Id)
    requires AtMostOneLive(Run(START, events).relay.jobs, t)
    ensures AtMostOneLive(Run(START, events + [e]).relay.jobs, t) <==> SafeClaim(Run(START, events), e, t)
  {
    RunKeeps(events);
    RunSplit(START, events, e);
    LiveStep(Run(START, events), e, t);
  }

  lemma LiveStep(s: System, e: Event, t: Id)
    requires Inv(s) && AtMostOneLive(s.relay.jobs, t)
    ensures AtMostOneLive(Step(s, e).relay.jobs, t) <==> SafeClaim(s, e, t)
  {
    var reached := Reaches(s, e);
    if reached.None? {
      NoClaim(s, e);
      OnlyEnding(s.relay.jobs, Step(s, e).relay.jobs, t);
    } else if reached.value in s.relay.keys {
      KnownClaim(s, e);
    } else {
      NewClaim(s, e);
      OneMore(s.relay.jobs, Step(s, e).relay.jobs, e.newId, t);
    }
  }

  /** The same jobs, and what has ended stays ended. */
  ghost predicate Proceeds(jobs: Jobs, jobs': Jobs) {
    JobsGrow(jobs, jobs') && jobs'.Keys == jobs.Keys
  }

  lemma NoClaim(s: System, e: Event)
    requires Inv(s) && Reaches(s, e).None?
    ensures Proceeds(s.relay.jobs, Step(s, e).relay.jobs)
  {
    if AtWork(s, e) {
      BusyStep(s, e);
      assert EvaluationOk(s.store, s.relay, s.nextToken, EvaluationOf(s, e.p));
      WorkProceeds(s, EvaluationOf(s, e.p), e);
    } else if e.Advance? {
      QuietAdvance(s, e);
    }
  }

  lemma WorkProceeds(s: System, w: Evaluation, e: Event)
    requires w.Working? && e.Advance? && !w.stage.Unlock? && !w.stage.Throwing?
    requires w.stage.Calling? ==> e.refuse || e.fault || (Namespace(e.subject, w.stage.occ.id) !in s.relay.keys && e.newId in s.relay.jobs)
    ensures Proceeds(s.relay.jobs, WorkStep(s, w, e).0.relay.jobs)
  {
    match w.stage
    case Window(t) =>
      match PlanOf(s.store, t, w.now) {
        case ClaimOne(at, status) => ClaimStaysHere(s, w, t, at, status, Marking(t, Lookup(s.store.checkpoints, t.id)), e);
        case _ =>
      }
    case _ =>
  }

  lemma OnlyEnding(jobs: Jobs, jobs': Jobs, t: Id)
    requires Proceeds(jobs, jobs') && AtMostOneLive(jobs, t)
    ensures AtMostOneLive(jobs', t)
  {
    forall a, b {:trigger jobs'[a], jobs'[b]} |
      a in jobs' && b in jobs' && a != b && jobs'[a].key.template == t && jobs'[b].key.template == t
      ensures Terminal(jobs'[a].state) || Terminal(jobs'[b].state)
    {
      assert a in jobs && b in jobs && jobs[a].key.template == t && jobs[b].key.template == t;
    }
  }

  lemma OneMore(jobs: Jobs, jobs': Jobs, n: Id, t: Id)
    requires AtMostOneLive(jobs, t) && n !in jobs && n in jobs' && jobs' == jobs[n := jobs'[n]] && jobs'[n].state == JobSubmitted
    ensures AtMostOneLive(jobs', t) <==> (jobs'[n].key.template == t ==> forall j :: !LiveJob(jobs, j, t))
  {
    if jobs'[n].key.template == t && exists j :: LiveJob(jobs, j, t) {
      var j :| LiveJob(jobs, j, t);
      assert jobs'[j] == jobs[j] && !Terminal(jobs'[n].state) && !Terminal(jobs'[j].state);
    }
    forall a, b {:trigger jobs'[a], jobs'[b]} |
      (jobs'[n].key.template == t ==> forall j :: !LiveJob(jobs, j, t))
      && a in jobs' && b in jobs' && a != b && jobs'[a].key.template == t && jobs'[b].key.template == t
      ensures Terminal(jobs'[a].state) || Terminal(jobs'[b].state)
    {
      if a == n {
        assert !LiveJob(jobs, b, t);
      } else if b == n {
        assert !LiveJob(jobs, a, t);
      } else {
        assert jobs[a] == jobs'[a] && jobs[b] == jobs'[b];
      }
    }
  }

  ghost predicate AlwaysOneLive(events: seq<Event>, t: Id)
    decreases |events|
  {
    AtMostOneLive(Run(START, events).relay.jobs, t) && (events != [] ==> AlwaysOneLive(events[..|events| - 1], t))
  }

  ghost predicate AlwaysSafe(events: seq<Event>, t: Id)
    decreases |events|
  {
    events != [] ==>
      var front, last := events[..|events| - 1], events[|events| - 1];
      SafeClaim(Run(START, front), last, t) && AlwaysSafe(front, t)
  }

  /** Over whole runs: a template never had two live jobs if and only if every one
      of its claims was safe. */
  lemma {:induction false} AlwaysOneLiveIff(events: seq<Event>, t: Id)
    ensures AlwaysOneLive(events, t) <==> AlwaysSafe(events, t)
    decreases |events|
  {
    if events == [] {
    } else {
      var front, last := events[..|events| - 1], events[|events| - 1];
      AlwaysOneLiveIff(front, t);
      assert events == front + [last];
      if AlwaysOneLive(front, t) {
        NextLiveIff(front, last, t);
      }
    }
  }

  /** Every evaluation works under a lock it holds, and it ends in a throw only
      when the evidence sink threw in that very step: the store never refuses it. */
  lemma NeverThrows(events: seq<Event>, e: Event, p: Id)
    ensures var s := Run(START, events);
      && (EvaluationOf(s, p).Working? ==> Lookup(s.store.locks, EvaluationOf(s, p).id) == Some(EvaluationOf(s, p).token))
      && (Thrown(Step(s, e), p) ==> Thrown(s, p) || (e.Advance? && e.p == p && e.mute))
  {
    RunKeeps(events);
    var s := Run(START, events);
    assert EvaluationOf(s, p).Working? ==> EvaluationOk(s.store, s.relay, s.nextToken, EvaluationOf(s, p));
    if Thrown(Step(s, e), p) && !Thrown(s, p) {
      ThrowsInStep(s, e, p);
    }
  }

  lemma ThrowsInStep(s: System, e: Event, p: Id)
    requires Inv(s) && Thrown(Step(s, e), p) && !Thrown(s, p)
    ensures e.Advance? && e.p == p && e.mute
  {
    if AtWork(s, e) {
      BusyStep(s, e);
      WorkKeeps(s, e.p, e);
      WorkLeavesOthers(s, EvaluationOf(s, e.p), e);
    }
  }

  predicate Thrown(s: System, p: Id) {
    EvaluationOf(s, p).Working? && EvaluationOf(s, p).stage == Throwing
  }

  lemma WorkLeavesOthers(s: System, w: Evaluation, e: Event)
    requires w.Working? && e.Advance? && !w.stage.Unlock? && !w.stage.Throwing?
    ensures WorkStep(s, w, e).0.evaluations == s.evaluations
  {
    match w.stage
    case Window(t) =>
      match PlanOf(s.store, t, w.now) {
        case ClaimOne(at, status) => ClaimStaysHere(s, w, t, at, status, Marking(t, Lookup(s.store.checkpoints, t.id)), e);
        case _ =>
      }
    case _ =>
  }

  // ------------------------------------------- occurrences only move forward

  ghost predicate Forward(a: Occurrence, b: Occurrence) {
    && b.id == a.id && b.attempts >= a.attempts && b.revision >= a.revision
    && b.templateRevision == a.templateRevision && b.createdAt == a.createdAt
    && (b.revision == a.revision ==> b == a)
    && (CalendarStore.Frozen(a.status) ==> b == a)
  }

  /** What one event may do to slot `k` when it works on template `t`: existing
      occurrences move forward, and slots of other templates are left alone. */
  ghost predicate Moves(s: System, s': System, k: Slot, t: Id) {
    && (k in s.store.occurrences ==>
         k in s'.store.occurrences && Forward(s.store.occurrences[k], s'.store.occurrences[k]))
    && (k.template != t ==>
         && Lookup(s'.store.occurrences, k) == Lookup(s.store.occurrences, k)
         && s'.relay.calls[k] == s.relay.calls[k])
  }

  /** Checkpoints and Relay keys of other templates are left alone. */
  ghost predicate TablesMove(s: System, s': System, t: Id) {
    && (forall n: Namespace ::
         n.key.template != t ==> Lookup(s'.relay.keys, n) == Lookup(s.relay.keys, n))
    && (forall u: Id ::
         u != t ==> Lookup(s'.store.checkpoints, u) == Lookup(s.store.checkpoints, u))
  }

  ghost predicate AllMove(s: System, s': System, t: Id) {
    && (forall k: Slot {:trigger Moves(s, s', k, t)} :: Moves(s, s', k, t))
    && TablesMove(s, s', t)
  }

  lemma UpdateMoves(s: System, o: Occurrence, p: Patch, token: nat, raw: Time)
    ensures AllMove(s, s.(store := Update(s.store, o, p, token, raw).0), o.id.template)
  {
  }

  lemma ConcludeMoves(s: System, w: Evaluation, o: Occurrence, p: Patch, after: After, e: Event)
    requires w.Working? && o.id.template == w.id && e.Advance?
    ensures AllMove(s, Conclude(s, w, o, p, after, e).0, w.id)
  {
    UpdateMoves(s, o, p, w.token, e.raw);
  }

  lemma GuardedMoves(s: System, w: Evaluation, o: Occurrence, p: Patch, after: After, e: Event)
    requires w.Working? && o.id.template == w.id && e.Advance?
    ensures AllMove(s, Guarded(s, w, o, p, after, e).0, w.id)
  {
    UpdateMoves(s, o, p, w.token, e.raw2);
    var m := s.(store := Update(s.store, o, p, w.token, e.raw2).0);
    ConcludeMoves(m, w, o, ToStatus(ReviewRequired), after, e);
    MovesTogether(s, m, Conclude(m, w, o, ToStatus(ReviewRequired), after, e).0, w.id);
  }

  lemma EnterMoves(s: System, w: Evaluation, o: Occurrence, after: After, e: Event)
    requires w.Working? && o.id.template == w.id && e.Advance?
    ensures AllMove(s, Enter(s, w, o, after, e).0, w.id)
  {
    ConcludeMoves(s, w, o, ToStatus(ReviewRequired), after, e);
  }

  lemma MovesTogether(s: System, m: System, s': System, t: Id)
    requires AllMove(s, m, t) && AllMove(m, s', t)
    ensures AllMove(s, s', t)
  {
    forall k: Slot {:trigger Moves(s, s', k, t)}
      ensures Moves(s, s', k, t)
    {
      assert Moves(s, m, k, t) && Moves(m, s', k, t);
    }
  }

  lemma ClaimMoves(s: System, w: Evaluation, u: Template, at: Time, status: OccurrenceStatus, after: After, e: Event)
    requires StoreOk(s.store) && w.Working? && u.id == w.id && e.Advance?
    ensures AllMove(s, ClaimStep(s, w, u, at, status, after, e).0, w.id)
  {
    var o := FreshOccurrence(u, at, status, w.now);
    var (store, d, record) := ClaimOccurrence(s.store, o, w.token);
    var m := s.(store := store);
    assert AllMove(s, m, w.id);
    if record.Some? && d != Rejected {
      assert o.id in s.store.occurrences ==> OccurrenceOk(s.store, o.id);
      EnterMoves(m, w, record.value, after, e);
      MovesTogether(s, m, Enter(m, w, record.value, after, e).0, w.id);
    }
  }

  lemma WindowMoves(s: System, w: Evaluation, e: Event)
    requires StoreOk(s.store) && w.Working? && w.stage.Window? && e.Advance? && w.stage.template.id == w.id
    ensures AllMove(s, WindowStep(s, w, e).0, w.id)
  {
    var u := w.stage.template;
    match PlanOf(s.store, u, w.now)
    case ClaimOne(at, status) => ClaimMoves(s, w, u, at, status, Marking(u, Lookup(s.store.checkpoints, u.id)), e);
    case _ => Still(s, w.id);
  }

  lemma SubmitMoves(s: System, w: Evaluation, e: Event)
    requires w.Working? && w.stage.Check? && e.Advance? && w.stage.occ.id.template == w.id
    requires w.stage.priors == [] && w.stage.occ.attempts < MAX_SUBMISSION_ATTEMPTS
    ensures AllMove(s, CheckStep(s, w, e).0, w.id)
  {
    var o := w.stage.occ;
    var seen := s.(store := ObserveTime(s.store, e.raw2));
    var patch := SubmissionPatch(s.store, o, e.raw2);
    UpdateMoves(seen, o, patch, w.token, e.raw);
    var updated := seen.(store := Update(seen.store, o, patch, w.token, e.raw).0);
    var s1 := CheckStep(s, w, e).0;
    assert s1.store == updated.store;
    forall k: Slot {:trigger Moves(s, s1, k, w.id)}
      ensures Moves(s, s1, k, w.id)
    {
      assert Moves(seen, updated, k, w.id);
    }
  }

  lemma CheckMoves(s: System, w: Evaluation, e: Event)
    requires w.Working? && w.stage.Check? && e.Advance? && w.stage.occ.id.template == w.id
    ensures AllMove(s, CheckStep(s, w, e).0, w.id)
  {
    var Check(o, def, priors, after) := w.stage;
    if priors == [] && o.attempts < MAX_SUBMISSION_ATTEMPTS {
      SubmitMoves(s, w, e);
    } else {
      ConcludeMoves(s, w, o, ToStatus(ReviewRequired), after, e);
      Still(s, w.id);
    }
  }

  lemma Still(s: System, t: Id)
    ensures AllMove(s, s, t)
  {
  }

  /** An evaluation touches no template but the one it holds. */
  lemma WorkMoves(s: System, w: Evaluation, e: Event)
    requires StoreOk(s.store) && w.Working? && e.Advance? && !w.stage.Unlock? && !w.stage.Throwing?
    requires StageOk(s.store, s.relay, w.id, w.stage)
    ensures AllMove(s, WorkStep(s, w, e).0, w.id)
  {
    Still(s, w.id);
    match w.stage
    case Check(_, _, _, _) => CheckMoves(s, w, e);
    case Answered(o, _, _, _, _, after) =>
      ConcludeMoves(s, w, o, ToStatus(ReviewRequired), after, e);
      ConcludeMoves(s, w, o, ToStatus(Skipped), after, e);
    case Replied(o, _, reply, after) => RepliedMoves(s, w, e);
    case Retry(u, pending) =>
      if pending != [] {
        assert pending[0] in pending;
        EnterMoves(s, w, pending[0], Retrying(u, pending[1..]), e);
      }
    case Window(u) =>
      assert TemplateOk(s.store, w.id);
      WindowMoves(s, w, e);
    case Calling(o, _, _) => AcceptMovesKey(s, CallingStep(s, w, e).0, o.id);
    case Claimed(o, _, _, _) => AcceptMovesKey(s, ClaimedStep(s, w, e).0, o.id);
    case _ =>
  }

  lemma RepliedMoves(s: System, w: Evaluation, e: Event)
    requires w.Working? && w.stage.Replied? && e.Advance? && w.stage.occ.id.template == w.id
    ensures AllMove(s, RepliedStep(s, w, e).0, w.id)
  {
    var Replied(o, _, reply, after) := w.stage;
    match reply
    case Bound(job) => GuardedMoves(s, w, o, Patch(Submitted, Some(job.id), None, None, 0), after, e);
    case Refused => GuardedMoves(s, w, o, ToStatus(ReviewRequired), after, e);
    case Unknown =>
      ConcludeMoves(s, w, o, ToStatus(ReviewRequired), after, e);
      Still(s, w.id);
  }

  lemma AcceptMovesKey(s: System, s1: System, id: Slot)
    requires s1.store == s.store && s1.relay.calls == s.relay.calls
    requires forall n: Namespace :: n.key != id ==> Lookup(s1.relay.keys, n) == Lookup(s.relay.keys, n)
    ensures AllMove(s, s1, id.template)
  {
  }

  function WorkedOn(s: System, e: Event): Id {
    if e.Advance? && EvaluationOf(s, e.p).Working? then EvaluationOf(s, e.p).id else 0
  }

  lemma SameTables(s: System, s': System, s'': System, t: Id)
    requires AllMove(s, s', t)
    requires s''.store.occurrences == s'.store.occurrences && s''.store.checkpoints == s'.store.checkpoints
    requires s''.relay.keys == s'.relay.keys && s''.relay.calls == s'.relay.calls
    ensures AllMove(s, s'', t)
  {
    forall k: Slot {:trigger Moves(s, s'', k, t)}
      ensures Moves(s, s'', k, t)
    {
      assert Moves(s, s', k, t);
    }
  }

  predicate AtWork(s: System, e: Event) {
    e.Advance? && EvaluationOf(s, e.p).Working? && !EvaluationOf(s, e.p).stage.Unlock? && !EvaluationOf(s, e.p).stage.Throwing?
  }

  /** What an evaluation that is not at work may move. */
  ghost predicate Quiet(s: System, s': System) {
    s' == s.(store := s.store.(locks := s'.store.locks), evaluations := s'.evaluations, nextToken := s'.nextToken)
  }

  lemma QuietScan(s: System, p: Id, v: Evaluation)
    requires v.Scanning?
    ensures Quiet(s, ScanStep(s, p, v))
  {
  }

  lemma QuietAdvance(s: System, e: Event)
    requires e.Advance? && !AtWork(s, e)
    ensures Quiet(s, AdvanceStep(s, e))
  {
    match EvaluationOf(s, e.p)
    case Idle =>
    case Scanning(now, todo) => QuietScan(s, e.p, Scanning(now, todo));
    case Working(_, _, _, _, _) =>
  }

  /** Events other than an evaluation at work leave occurrences, Relay keys,
      accept calls and checkpoints alone. */
  lemma QuietStep(s: System, e: Event)
    requires !AtWork(s, e)
    ensures var s' := Step(s, e);
      && s'.store.occurrences == s.store.occurrences && s'.relay.keys == s.relay.keys && s'.relay.calls == s.relay.calls
      && s'.store.checkpoints == s.store.checkpoints && s'.consumed == s.consumed
  {
    match e
    case Advance(_, _, _, _, _, _, _, _) => QuietAdvance(s, e);
    case EditTemplate(value, expected) => assert PutTemplate(s.store, value, expected).0.occurrences == s.store.occurrences;
    case _ =>
  }

  lemma BusyStep(s: System, e: Event)
    requires AtWork(s, e)
    ensures var v := EvaluationOf(s, e.p);
      Step(s, e) == With(WorkStep(s, v, e).0, e.p, v.(stage := WorkStep(s, v, e).1))
  {
  }

  lemma StepMoves(s: System, e: Event)
    requires Inv(s)
    ensures AllMove(s, Step(s, e), WorkedOn(s, e))
  {
    var t := WorkedOn(s, e);
    if AtWork(s, e) {
      var v := EvaluationOf(s, e.p);
      assert EvaluationOk(s.store, s.relay, s.nextToken, v);
      WorkMoves(s, v, e);
      BusyStep(s, e);
      SameTables(s, WorkStep(s, v, e).0, Step(s, e), t);
    } else {
      assert AllMove(s, s, t);
      QuietStep(s, e);
      SameTables(s, s, Step(s, e), t);
    }
  }

  ghost predicate AllForward(s: System, s': System) {
    forall k :: k in s.store.occurrences ==>
      k in s'.store.occurrences && Forward(s.store.occurrences[k], s'.store.occurrences[k])
  }

  lemma StepForward(s: System, e: Event)
    requires Inv(s)
    ensures AllForward(s, Step(s, e))
  {
    StepMoves(s, e);
    assert forall k :: k in s.store.occurrences ==> Moves(s, Step(s, e), k, WorkedOn(s, e));
  }

  lemma RunSplit(s: System, a: seq<Event>, e: Event)
    ensures Run(s, a + [e]) == Step(Run(s, a), e)
  {
    assert (a + [e])[..|a|] == a;
  }

  lemma {:induction false} RunForward(events: seq<Event>, more: seq<Event>)
    ensures AllForward(Run(START, events), Run(START, events + more))
    decreases |more|
  {
    if more == [] {
      assert events + more == events;
    } else {
      var before, e := more[..|more| - 1], more[|more| - 1];
      RunForward(events, before);
      assert events + more == (events + before) + [e];
      RunSplit(START, events + before, e);
      RunKeeps(events + before);
      StepForward(Run(START, events + before), e);
    }
  }

  /** An occurrence that has made an attempt is never SKIPPED afterwards. */
  lemma AttemptedNeverSkipped(events: seq<Event>, more: seq<Event>, k: Slot)
    requires var s := Run(START, events).store; k in s.occurrences && s.occurrences[k].attempts > 0
    ensures var s := Run(START, events + more).store; k in s.occurrences && s.occurrences[k].status != Skipped
  {
    RunForward(events, more);
    RunKeeps(events + more);
    assert OccurrenceOk(Run(START, events + more).store, k);
  }

  // ------------------------------------------------ REVIEW_REQUIRED freezes

  /** Nothing about template `t` has moved: not its occurrences, not its Relay
      keys under any requester, not the accept calls made for it. */
  ghost predicate Untouched(s: System, s': System, t: Id) {
    && (forall k: Slot :: k.template == t ==>
         Lookup(s'.store.occurrences, k) == Lookup(s.store.occurrences, k) && s'.relay.calls[k] == s.relay.calls[k])
    && (forall n: Namespace :: n.key.template == t ==> Lookup(s'.relay.keys, n) == Lookup(s.relay.keys, n))
  }

  lemma NothingPending(s: Store, t: Id, pending: seq<Occurrence>)
    requires forall o :: !InHand(s, t, o)
    requires forall o :: o in pending ==> InHand(s, t, o)
    ensures pending == []
  {
    HeadIn(pending);
  }

  lemma HeadIn(pending: seq<Occurrence>)
    ensures pending == [] || pending[0] in pending
  {
  }

  lemma FrozenPlan(s: Store, t: Template, now: Time, k: Slot)
    requires StoreOk(s) && k in s.occurrences && s.occurrences[k].status == ReviewRequired && t.id == k.template
    ensures PlanOf(s, t, now) == Wait
  {
    assert OccurrenceOk(s, k);
    ListedIff(s.history, s.occurrences, t.id, s.occurrences[k]);
  }

  /** The evaluation that holds a frozen template can only let go of it. */
  lemma FrozenWork(s: System, w: Evaluation, e: Event, k: Slot)
    requires Inv(s) && e.Advance? && w.Working? && w.id == k.template && StageOk(s.store, s.relay, w.id, w.stage)
    requires k in s.store.occurrences && s.store.occurrences[k].status == ReviewRequired
    requires !w.stage.Unlock? && !w.stage.Throwing?
    ensures Untouched(s, WorkStep(s, w, e).0, k.template)
  {
    NothingInHand(s, k);
    match w.stage
    case Retry(u, pending) => NothingPending(s.store, w.id, pending);
    case Locked =>
    case Mark(_, _) =>
    case Window(u) =>
      assert TemplateOk(s.store, w.id);
      FrozenPlan(s.store, u, w.now, k);
    case _ => HandlesSomething(s, w);
  }

  lemma HandlesSomething(s: System, w: Evaluation)
    requires w.Working? && StageOk(s.store, s.relay, w.id, w.stage)
    requires w.stage.Check? || w.stage.Answered? || w.stage.Calling? || w.stage.Claimed? || w.stage.Replied?
    ensures InHand(s.store, w.id, w.stage.occ)
  {
  }

  lemma NothingInHand(s: System, k: Slot)
    requires Inv(s) && k in s.store.occurrences && s.store.occurrences[k].status == ReviewRequired
    ensures forall o :: !InHand(s.store, k.template, o)
  {
    forall o
      ensures !InHand(s.store, k.template, o)
    {
      if InHand(s.store, k.template, o) {
        NotBothWaiting(s.store.occurrences, s.relay.jobs, k, o.id);
      }
    }
  }

  lemma FrozenStep(s: System, e: Event, k: Slot)
    requires Inv(s) && k in s.store.occurrences && s.store.occurrences[k].status == ReviewRequired
    ensures Untouched(s, Step(s, e), k.template)
  {
    if AtWork(s, e) {
      var v := EvaluationOf(s, e.p);
      assert EvaluationOk(s.store, s.relay, s.nextToken, v);
      if v.id == k.template {
        FrozenWork(s, v, e, k);
        BusyStep(s, e);
      } else {
        StepMoves(s, e);
        assert forall id: Slot :: id.template == k.template ==> Moves(s, Step(s, e), id, v.id);
      }
    } else {
      QuietStep(s, e);
    }
  }

  /** Once an occurrence is REVIEW_REQUIRED its template is frozen for good: no
      occurrence changes, no job is created and `accept` is never called for it. */
  lemma {:induction false} ReviewFreezes(events: seq<Event>, more: seq<Event>, k: Slot)
    requires var s := Run(START, events); k in s.store.occurrences && s.store.occurrences[k].status == ReviewRequired
    ensures Untouched(Run(START, events), Run(START, events + more), k.template)
    decreases |more|
  {
    if more == [] {
      assert events + more == events;
    } else {
      var before, e := more[..|more| - 1], more[|more| - 1];
      ReviewFreezes(events, before, k);
      assert events + more == (events + before) + [e];
      RunSplit(START, events + before, e);
      RunKeeps(events + before);
      assert Lookup(Run(START, events + before).store.occurrences, k) == Lookup(Run(START, events).store.occurrences, k);
      FrozenStep(Run(START, events + before), e, k);
    }
  }
}
