// A run in which Relay resolves two requesters for one recurring slot. The first
// attempt commits a job and then throws; the retry is filed under the second
// requester, so Relay finds nothing to replay and creates another job.

module CalendarTwoRequesters {
  import opened Common
  import opened CalendarStore
  import opened CalendarEngine
  import opened CalendarInvariant
  import opened CalendarTheorems

  const T := Template(1, Active, 0, 0, 0, MIN_INTERVAL_SECONDS, SkipMissed, 1, 0, 0)
  const SLOT := Slot(1, 0)

  /** One evaluation, alone, at instant 0; `u` is both the requester that would be
      resolved and the next job id. */
  function Go(u: Id): Event { Advance(0, 0, 0, false, false, u, u, false) }

  function Throw(u: Id): Event { Advance(0, 0, 0, true, false, u, u, false) }

  function TheOccurrence(status: OccurrenceStatus, job: Option<Id>, attempts: nat, revision: nat): Occurrence {
    Occurrence(SLOT, 1, T, status, job, attempts, if attempts == 0 then None else Some(0), 0, 0, revision)
  }

  const DUE := TheOccurrence(Due, None, 0, 1)
  const TRIED := TheOccurrence(SubmissionPending, None, 1, 2)
  const TRIED_AGAIN := TheOccurrence(SubmissionPending, None, 2, 3)
  const DONE := TheOccurrence(Submitted, Some(2), 2, 4)

  function Book(occurrences: map<Slot, Occurrence>, marked: bool, lock: Option<nat>): Store {
    Store(map[1 := T], [1], map[(1, 1) := T], occurrences,
          if SLOT in occurrences then [SLOT] else [], if SLOT in occurrences then map[(1, 0) := SLOT] else map[],
          if marked then map[1 := Checkpoint(1, 0, 1, 0)] else map[],
          if lock.Some? then map[1 := lock.value] else map[], Some(0))
  }

  function At(occurrences: map<Slot, Occurrence>, marked: bool, relay: Relay, v: Evaluation, tokens: nat): System {
    System(Book(occurrences, marked, if v.Working? then Some(v.token) else None), relay, map[0 := v], tokens,
           if marked then map[1 := [Accounted(T, None, 0)]] else map[])
  }

  function Working1(token: nat, stage: Stage): Evaluation { Working(0, [], 1, token, stage) }

  const NO_JOBS := Relay(map[], map[], multiset{})
  const FIRST := Job(1, SLOT, 0, 0, 1, JobSubmitted)
  const SECOND := Job(2, SLOT, 0, 0, 2, JobSubmitted)

  function Jobs1(calls: multiset<Slot>): Relay { Relay(map[Namespace(1, SLOT) := 1], map[1 := FIRST], calls) }

  function Jobs2(second: Job): Relay {
    Relay(map[Namespace(1, SLOT) := 1, Namespace(2, SLOT) := 2], map[1 := FIRST, 2 := second], multiset{SLOT, SLOT})
  }

  // ------------------------------------------------------------- step by step

  lemma Edits()
    ensures Step(START, EditTemplate(T, None)) == START.(store := Book(map[], false, None).(highWater := None))
  {
  }

  lemma Begins()
    ensures Step(START.(store := Book(map[], false, None).(highWater := None)), Begin(0, 0))
      == At(map[], false, NO_JOBS, Scanning(0, [T]), 0)
  {
    Listed();
  }

  lemma Listed()
    ensures ListTemplates([1], map[1 := T]) == [T]
  {
    assert [1][1..] == [];
  }

  lemma Scans(occs: map<Slot, Occurrence>, marked: bool, r: Relay, tokens: nat, u: Id)
    ensures Step(At(occs, marked, r, Scanning(0, [T]), tokens), Go(u)) == At(occs, marked, r, Working1(tokens, Locked), tokens + 1)
  {
    assert [T][1..] == [];
    var v := Scanning(0, [T]);
    assert map[0 := v][0 := Working1(tokens, Locked)] == map[0 := Working1(tokens, Locked)];
  }

  /** A step of the evaluation at work, read off its `WorkStep`. */
  lemma Works(occs: map<Slot, Occurrence>, marked: bool, r: Relay, token: nat, stage: Stage, tokens: nat, e: Event,
              occs': map<Slot, Occurrence>, marked': bool, r': Relay, stage': Stage)
    requires e.Advance? && e.p == 0 && !stage.Unlock? && !stage.Throwing?
    requires WorkStep(At(occs, marked, r, Working1(token, stage), tokens), Working1(token, stage), e)
      == (At(occs', marked', r', Working1(token, stage), tokens), stage')
    ensures Step(At(occs, marked, r, Working1(token, stage), tokens), e) == At(occs', marked', r', Working1(token, stage'), tokens)
  {
    var v := Working1(token, stage);
    assert map[0 := v][0 := Working1(token, stage')] == map[0 := Working1(token, stage')];
    BusyStep(At(occs, marked, r, v, tokens), e);
  }

  lemma Looks(u: Id)
    ensures Step(At(map[], false, NO_JOBS, Working1(0, Locked), 1), Go(u)) == At(map[], false, NO_JOBS, Working1(0, Retry(T, [])), 1)
    ensures Step(At(map[], false, NO_JOBS, Working1(0, Retry(T, [])), 1), Go(u)) == At(map[], false, NO_JOBS, Working1(0, Window(T)), 1)
  {
    Works(map[], false, NO_JOBS, 0, Locked, 1, Go(u), map[], false, NO_JOBS, Retry(T, []));
    Works(map[], false, NO_JOBS, 0, Retry(T, []), 1, Go(u), map[], false, NO_JOBS, Window(T));
  }

  const MARKING := Marking(T, None)
  const RETRYING := Retrying(T, [])

  lemma OneListed(o: Occurrence)
    requires o.id == SLOT
    ensures Occurrences([SLOT], map[SLOT := o], 1) == [o]
    ensures Open(o.status) ==> OnlyOpen([o]) == [o] && !AnyReview([o])
  {
    assert [SLOT][1..] == [] && [o][1..] == [];
  }

  lemma PlansDue()
    ensures PlanOf(Book(map[], false, Some(0)), T, 0) == ClaimOne(0, Due)
  {
    assert Occurrences([], map[], 1) == [];
    assert DueCount(0, Interval(T), None, 0) == 1 && LatestIndex(0, Interval(T), 0) == 0;
  }

  lemma BooksDue()
    ensures ClaimOccurrence(Book(map[], false, Some(0)), DUE, 0) == (Book(map[SLOT := DUE], false, Some(0)), Created, Some(DUE))
  {
    var s := Book(map[], false, Some(0));
    assert [] + [SLOT] == [SLOT];
    assert s.claims[(1, 0) := SLOT] == map[(1, 0) := SLOT];
    assert s.occurrences[SLOT := DUE] == map[SLOT := DUE];
  }

  lemma EntersDue(u: Id)
    ensures var s, w := At(map[SLOT := DUE], false, NO_JOBS, Working1(0, Window(T)), 1), Working1(0, Window(T));
      Enter(s, w, DUE, MARKING, Go(u)) == (s, Check(DUE, T, [DUE], MARKING))
  {
    OneListed(DUE);
  }

  lemma ClaimChecks(u: Id)
    ensures var w := Working1(0, Window(T));
      ClaimStep(At(map[], false, NO_JOBS, w, 1), w, T, 0, Due, MARKING, Go(u))
        == (At(map[SLOT := DUE], false, NO_JOBS, w, 1), Check(DUE, T, [DUE], MARKING))
  {
    BooksDue();
    EntersDue(u);
    var w := Working1(0, Window(T));
    var s := At(map[], false, NO_JOBS, w, 1);
    assert FreshOccurrence(T, 0, Due, 0) == DUE;
    assert s.(store := Book(map[SLOT := DUE], false, Some(0))) == At(map[SLOT := DUE], false, NO_JOBS, w, 1);
  }

  /** Under a claiming plan the step is the claim. */
  lemma Claims(s: System, w: Evaluation, e: Event, at: Time, status: OccurrenceStatus)
    requires w.Working? && w.stage.Window? && e.Advance? && PlanOf(s.store, w.stage.template, w.now) == ClaimOne(at, status)
    ensures var t := w.stage.template;
      WorkStep(s, w, e) == ClaimStep(s, w, t, at, status, Marking(t, Lookup(s.store.checkpoints, t.id)), e)
  {
  }

  lemma ClaimsDue(u: Id)
    ensures Step(At(map[], false, NO_JOBS, Working1(0, Window(T)), 1), Go(u))
      == At(map[SLOT := DUE], false, NO_JOBS, Working1(0, Check(DUE, T, [DUE], MARKING)), 1)
  {
    PlansDue();
    ClaimChecks(u);
    var w := Working1(0, Window(T));
    Claims(At(map[], false, NO_JOBS, w, 1), w, Go(u), 0, Due);
    Works(map[], false, NO_JOBS, 0, Window(T), 1, Go(u), map[SLOT := DUE], false, NO_JOBS, Check(DUE, T, [DUE], MARKING));
  }

  lemma PassesItself(o: Occurrence, marked: bool, r: Relay, token: nat, after: After, tokens: nat, u: Id)
    requires o.id == SLOT
    ensures Step(At(map[SLOT := o], marked, r, Working1(token, Check(o, T, [o], after)), tokens), Go(u))
      == At(map[SLOT := o], marked, r, Working1(token, Check(o, T, [], after)), tokens)
  {
    assert [o][1..] == [];
    Works(map[SLOT := o], marked, r, token, Check(o, T, [o], after), tokens, Go(u), map[SLOT := o], marked, r, Check(o, T, [], after));
  }

  /** The pending occurrence in hand becomes its next revision, with the accept
      call counted. */
  lemma Submits(o: Occurrence, o': Occurrence, marked: bool, keys: map<Namespace, Id>, jobs: map<Id, Job>, calls: multiset<Slot>,
                token: nat, after: After, tokens: nat, u: Id)
    requires (o, o') == (DUE, TRIED) || (o, o') == (TRIED, TRIED_AGAIN)
    ensures Step(At(map[SLOT := o], marked, Relay(keys, jobs, calls), Working1(token, Check(o, T, [], after)), tokens), Go(u))
      == At(map[SLOT := o'], marked, Relay(keys, jobs, calls + multiset{SLOT}), Working1(token, Calling(o', T, after)), tokens)
  {
    assert map[SLOT := o][SLOT := o'] == map[SLOT := o'];
    Works(map[SLOT := o], marked, Relay(keys, jobs, calls), token, Check(o, T, [], after), tokens, Go(u),
          map[SLOT := o'], marked, Relay(keys, jobs, calls + multiset{SLOT}), Calling(o', T, after));
  }

  lemma FirstClaim()
    ensures Step(At(map[SLOT := TRIED], false, Relay(map[], map[], multiset{SLOT}), Working1(0, Calling(TRIED, T, MARKING)), 1), Go(1))
      == At(map[SLOT := TRIED], false, Jobs1(multiset{SLOT}), Working1(0, Claimed(TRIED, T, 1, MARKING)), 1)
  {
    assert map[][Namespace(1, SLOT) := 1] == map[Namespace(1, SLOT) := 1] && map[][1 := FIRST] == map[1 := FIRST];
    Works(map[SLOT := TRIED], false, Relay(map[], map[], multiset{SLOT}), 0, Calling(TRIED, T, MARKING), 1, Go(1),
          map[SLOT := TRIED], false, Jobs1(multiset{SLOT}), Claimed(TRIED, T, 1, MARKING));
  }

  /** `accept` throws with the job committed, and the occurrence stays pending. */
  lemma Throws()
    ensures Step(At(map[SLOT := TRIED], false, Jobs1(multiset{SLOT}), Working1(0, Claimed(TRIED, T, 1, MARKING)), 1), Throw(1))
      == At(map[SLOT := TRIED], false, Jobs1(multiset{SLOT}), Working1(0, Replied(TRIED, T, Unknown, MARKING)), 1)
    ensures Step(At(map[SLOT := TRIED], false, Jobs1(multiset{SLOT}), Working1(0, Replied(TRIED, T, Unknown, MARKING)), 1), Go(1))
      == At(map[SLOT := TRIED], false, Jobs1(multiset{SLOT}), Working1(0, Mark(T, None)), 1)
  {
    var occs, r := map[SLOT := TRIED], Jobs1(multiset{SLOT});
    Works(occs, false, r, 0, Claimed(TRIED, T, 1, MARKING), 1, Throw(1), occs, false, r, Replied(TRIED, T, Unknown, MARKING));
    Works(occs, false, r, 0, Replied(TRIED, T, Unknown, MARKING), 1, Go(1), occs, false, r, Mark(T, None));
  }

  lemma Marks(occs: map<Slot, Occurrence>, r: Relay)
    ensures Step(At(occs, false, r, Working1(0, Mark(T, None)), 1), Go(1)) == At(occs, true, r, Working1(0, Unlock), 1)
    ensures Step(At(occs, true, r, Working1(0, Unlock), 1), Go(1)) == At(occs, true, r, Scanning(0, []), 1)
    ensures Step(At(occs, true, r, Scanning(0, []), 1), Go(1)) == At(occs, true, r, Idle, 1)
  {
    var s := At(occs, false, r, Working1(0, Mark(T, None)), 1);
    assert map[][1 := Checkpoint(1, 0, 1, 0)] == map[1 := Checkpoint(1, 0, 1, 0)];
    assert Consumed(s, 1) + [Accounted(T, None, 0)] == [Accounted(T, None, 0)];
    assert map[][1 := [Accounted(T, None, 0)]] == map[1 := [Accounted(T, None, 0)]];
    assert MarkStep(s, Working1(0, Mark(T, None))).0.store.checkpoints == map[1 := Checkpoint(1, 0, 1, 0)];
    assert map[0 := Working1(0, Mark(T, None))][0 := Working1(0, Unlock)] == map[0 := Working1(0, Unlock)];
    BusyStep(s, Go(1));
    assert map[1 := 0 as nat] - {1} == map[];
    assert map[0 := Working1(0, Unlock)][0 := Scanning(0, [])] == map[0 := Scanning(0, [])];
    assert map[0 := Scanning(0, [])][0 := Idle] == map[0 := Idle];
  }

  lemma BeginsAgain(occs: map<Slot, Occurrence>, r: Relay)
    ensures Step(At(occs, true, r, Idle, 1), Begin(0, 0)) == At(occs, true, r, Scanning(0, [T]), 1)
  {
    Listed();
    assert map[0 := Idle][0 := Scanning(0, [T])] == map[0 := Scanning(0, [T])];
  }

  lemma FindsPending(r: Relay)
    ensures Step(At(map[SLOT := TRIED], true, r, Working1(1, Locked), 2), Go(2)) == At(map[SLOT := TRIED], true, r, Working1(1, Retry(T, [TRIED])), 2)
    ensures Step(At(map[SLOT := TRIED], true, r, Working1(1, Retry(T, [TRIED])), 2), Go(2))
      == At(map[SLOT := TRIED], true, r, Working1(1, Check(TRIED, T, [TRIED], RETRYING)), 2)
  {
    var occs := map[SLOT := TRIED];
    OneListed(TRIED);
    assert [TRIED][1..] == [];
    Works(occs, true, r, 1, Locked, 2, Go(2), occs, true, r, Retry(T, [TRIED]));
    Works(occs, true, r, 1, Retry(T, [TRIED]), 2, Go(2), occs, true, r, Check(TRIED, T, [TRIED], RETRYING));
  }

  /** The retry looks in the second requester's namespace and finds nothing. */
  lemma SecondClaim()
    ensures Step(At(map[SLOT := TRIED_AGAIN], true, Jobs1(multiset{SLOT, SLOT}), Working1(1, Calling(TRIED_AGAIN, T, RETRYING)), 2), Go(2))
      == At(map[SLOT := TRIED_AGAIN], true, Jobs2(SECOND), Working1(1, Claimed(TRIED_AGAIN, T, 2, RETRYING)), 2)
  {
    var r := Jobs1(multiset{SLOT, SLOT});
    assert r.keys[Namespace(2, SLOT) := 2] == Jobs2(SECOND).keys && r.jobs[2 := SECOND] == Jobs2(SECOND).jobs;
    Works(map[SLOT := TRIED_AGAIN], true, r, 1, Calling(TRIED_AGAIN, T, RETRYING), 2, Go(2),
          map[SLOT := TRIED_AGAIN], true, Jobs2(SECOND), Claimed(TRIED_AGAIN, T, 2, RETRYING));
  }

  const ACCEPTED := SECOND.(state := JobAccepted)

  lemma Accepts()
    ensures Step(At(map[SLOT := TRIED_AGAIN], true, Jobs2(SECOND), Working1(1, Claimed(TRIED_AGAIN, T, 2, RETRYING)), 2), Go(2))
      == At(map[SLOT := TRIED_AGAIN], true, Jobs2(ACCEPTED), Working1(1, Replied(TRIED_AGAIN, T, Bound(ACCEPTED), RETRYING)), 2)
  {
    assert Jobs2(SECOND).jobs[2 := ACCEPTED] == Jobs2(ACCEPTED).jobs;
    Works(map[SLOT := TRIED_AGAIN], true, Jobs2(SECOND), 1, Claimed(TRIED_AGAIN, T, 2, RETRYING), 2, Go(2),
          map[SLOT := TRIED_AGAIN], true, Jobs2(ACCEPTED), Replied(TRIED_AGAIN, T, Bound(ACCEPTED), RETRYING));
  }

  lemma Acknowledges()
    ensures Step(At(map[SLOT := TRIED_AGAIN], true, Jobs2(ACCEPTED), Working1(1, Replied(TRIED_AGAIN, T, Bound(ACCEPTED), RETRYING)), 2), Go(2))
      == At(map[SLOT := DONE], true, Jobs2(ACCEPTED), Working1(1, Retry(T, [])), 2)
  {
    assert map[SLOT := TRIED_AGAIN][SLOT := DONE] == map[SLOT := DONE];
    Works(map[SLOT := TRIED_AGAIN], true, Jobs2(ACCEPTED), 1, Replied(TRIED_AGAIN, T, Bound(ACCEPTED), RETRYING), 2, Go(2),
          map[SLOT := DONE], true, Jobs2(ACCEPTED), Retry(T, []));
  }

  // ---------------------------------------------------------------- the run

  /** One event more. */
  lemma Next(a: seq<Event>, s: System, e: Event) returns (a': seq<Event>, s': System)
    requires Run(START, a) == s
    ensures a' == a + [e] && s' == Step(s, e) && Run(START, a') == s'
  {
    a', s' := a + [e], Step(s, e);
    RunSplit(START, a, e);
  }

  /** Edit, evaluate, scan, look, look for pending, claim, pass itself, submit. */
  const CALLED := [] + [EditTemplate(T, None)] + [Begin(0, 0)] + [Go(1)] + [Go(1)] + [Go(1)] + [Go(1)] + [Go(1)] + [Go(1)]
  /** The claim commits, `accept` throws, and the evaluation ends. */
  const LEFT := CALLED + [Go(1)] + [Throw(1)] + [Go(1)] + [Go(1)] + [Go(1)] + [Go(1)]
  /** The next evaluation finds the pending occurrence and submits it again. */
  const CALLED_AGAIN := LEFT + [Begin(0, 0)] + [Go(2)] + [Go(2)] + [Go(2)] + [Go(2)] + [Go(2)]
  /** Its claim is made for another requester. */
  const TWICE := CALLED_AGAIN + [Go(2)] + [Go(2)] + [Go(2)]

  lemma Called()
    ensures Run(START, CALLED)
      == At(map[SLOT := TRIED], false, Relay(map[], map[], multiset{SLOT}), Working1(0, Calling(TRIED, T, MARKING)), 1)
  {
    var es, s := Next([], START, EditTemplate(T, None));
    Edits();
    es, s := Next(es, s, Begin(0, 0));
    Begins();
    es, s := Next(es, s, Go(1));
    Scans(map[], false, NO_JOBS, 0, 1);
    Looks(1);
    es, s := Next(es, s, Go(1));
    es, s := Next(es, s, Go(1));
    es, s := Next(es, s, Go(1));
    ClaimsDue(1);
    es, s := Next(es, s, Go(1));
    PassesItself(DUE, false, NO_JOBS, 0, MARKING, 1, 1);
    es, s := Next(es, s, Go(1));
    Submits(DUE, TRIED, false, map[], map[], multiset{}, 0, MARKING, 1, 1);
    assert multiset{} + multiset{SLOT} == multiset{SLOT};
  }

  lemma Left()
    ensures Run(START, LEFT) == At(map[SLOT := TRIED], true, Jobs1(multiset{SLOT}), Idle, 1)
  {
    Called();
    var es, s := Next(CALLED, Run(START, CALLED), Go(1));
    FirstClaim();
    Throws();
    es, s := Next(es, s, Throw(1));
    es, s := Next(es, s, Go(1));
    Marks(map[SLOT := TRIED], Jobs1(multiset{SLOT}));
    es, s := Next(es, s, Go(1));
    es, s := Next(es, s, Go(1));
    es, s := Next(es, s, Go(1));
  }

  lemma CalledAgain()
    ensures Run(START, CALLED_AGAIN)
      == At(map[SLOT := TRIED_AGAIN], true, Jobs1(multiset{SLOT, SLOT}), Working1(1, Calling(TRIED_AGAIN, T, RETRYING)), 2)
  {
    Left();
    var es, s := Next(LEFT, Run(START, LEFT), Begin(0, 0));
    var r := Jobs1(multiset{SLOT});
    BeginsAgain(map[SLOT := TRIED], r);
    es, s := Next(es, s, Go(2));
    Scans(map[SLOT := TRIED], true, r, 1, 2);
    FindsPending(r);
    es, s := Next(es, s, Go(2));
    es, s := Next(es, s, Go(2));
    es, s := Next(es, s, Go(2));
    PassesItself(TRIED, true, r, 1, RETRYING, 2, 2);
    es, s := Next(es, s, Go(2));
    Submits(TRIED, TRIED_AGAIN, true, r.keys, r.jobs, r.calls, 1, RETRYING, 2, 2);
  }

  lemma Doubled()
    ensures Run(START, TWICE) == At(map[SLOT := DONE], true, Jobs2(ACCEPTED), Working1(1, Retry(T, [])), 2)
  {
    CalledAgain();
    var es, s := Next(CALLED_AGAIN, Run(START, CALLED_AGAIN), Go(2));
    SecondClaim();
    Accepts();
    Acknowledges();
    es, s := Next(es, s, Go(2));
    es, s := Next(es, s, Go(2));
  }

  /** Two requesters for one slot leave two live jobs of one template, and the
      SUBMITTED occurrence names the second while the first is still going. */
  lemma TwoRequestersTwoLiveJobs()
    ensures var s := Run(START, TWICE);
      && !OneRequester(TWICE, SLOT)
      && JobOf(s.relay.jobs, 1, SLOT) && JobOf(s.relay.jobs, 2, SLOT)
      && !Terminal(s.relay.jobs[1].state) && !Terminal(s.relay.jobs[2].state)
      && SLOT in s.store.occurrences && s.store.occurrences[SLOT].relayJob == Some(2)
      && !AtMostOneLive(s.relay.jobs, SLOT.template)
  {
    Doubled();
    OneJobIffOneRequester(TWICE, SLOT);
    var jobs := Jobs2(ACCEPTED).jobs;
    assert JobOf(jobs, 1, SLOT) && JobOf(jobs, 2, SLOT);
    assert !Terminal(jobs[1].state) && !Terminal(jobs[2].state);
  }
}
