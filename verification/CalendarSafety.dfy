// Every event keeps the invariant.

module CalendarSafety {
  import opened Common
  import opened CalendarStore
  import opened CalendarEngine
  import opened CalendarInvariant

  // ------------------------------------------------ replacing an occurrence

  lemma PairApart(s: Store, jobs: Jobs, o: Occurrence, o': Occurrence, b: Slot)
    requires StoreOk(s) && AllApart(s.occurrences, jobs)
    requires o.id in s.occurrences && s.occurrences[o.id] == o && Open(o.status)
    requires o'.attempts > 0 ==> o.attempts > 0 || Covered(s.occurrences, jobs, o, [])
    requires b in s.occurrences && b.template == o.id.template && b != o.id
    ensures Apart(o', s.occurrences[b], jobs) && Apart(s.occurrences[b], o', jobs)
  {
    assert Apart(s.occurrences[o.id], s.occurrences[b], jobs);
    if o.attempts == 0 && o'.attempts > 0 {
      assert Cleared(s.occurrences[b], jobs) && OccurrenceOk(s, b);
    }
  }

  lemma ReplaceApart(s: Store, jobs: Jobs, o: Occurrence, o': Occurrence)
    requires StoreOk(s) && AllApart(s.occurrences, jobs)
    requires o.id in s.occurrences && s.occurrences[o.id] == o && Open(o.status)
    requires o'.attempts > 0 ==> o.attempts > 0 || Covered(s.occurrences, jobs, o, [])
    ensures AllApart(s.occurrences[o.id := o'], jobs)
  {
    var occs := s.occurrences[o.id := o'];
    forall a, b {:trigger Apart(occs[a], occs[b], jobs)} | a in occs && b in occs && a.template == b.template && a != b
      ensures Apart(occs[a], occs[b], jobs)
    {
      assert Apart(s.occurrences[a], s.occurrences[b], jobs);
      if a == o.id {
        PairApart(s, jobs, o, o', b);
      } else if b == o.id {
        PairApart(s, jobs, o, o', a);
      }
    }
  }

  ghost predicate GoodRecord(o: Occurrence, o': Occurrence) {
    && o'.id == o.id && o'.templateRevision == o.templateRevision && o'.fingerprint == o.fingerprint
    && ValidOccurrence(o') && o'.attempts <= MAX_SUBMISSION_ATTEMPTS
    && (o'.status == Due || o'.status == Skipped ==> o'.attempts == 0)
    && (o'.status == SubmissionPending || o'.status == Submitted ==> o'.attempts >= 1)
  }

  lemma ReplaceStore(s: Store, o: Occurrence, o': Occurrence, now: Time)
    requires StoreOk(s) && o.id in s.occurrences && s.occurrences[o.id] == o
    requires GoodRecord(o, o')
    requires s.highWater.Some? && s.highWater.value <= now && o'.updatedAt <= now
    ensures StoreOk(s.(occurrences := s.occurrences[o.id := o'], highWater := Some(now)))
  {
    var s' := s.(occurrences := s.occurrences[o.id := o'], highWater := Some(now));
    forall id {:trigger OccurrenceOk(s', id)} | id in s'.occurrences
      ensures OccurrenceOk(s', id)
    {
      assert OccurrenceOk(s, id);
    }
  }

  lemma ReplaceRelay(occs: Occs, r: Relay, o: Occurrence, o': Occurrence, calls: multiset<Slot>)
    requires RelayOk(occs, r) && o.id in occs && occs[o.id] == o
    requires o.attempts <= o'.attempts && o'.fingerprint == o.fingerprint
    requires forall k :: calls[k] <= if k == o.id then o'.attempts else r.calls[k]
    requires o'.status == Submitted ==> o'.relayJob.Some? && JobOf(r.jobs, o'.relayJob.value, o.id)
    ensures RelayOk(occs[o.id := o'], r.(calls := calls))
  {
    var occs', r' := occs[o.id := o'], r.(calls := calls);
    assert forall n :: n in r.keys ==> KeyOk(occs, r, n);
    assert forall j :: j in r.jobs ==> JobOk(r, j);
    assert forall k :: k in occs ==> SubmissionOk(occs, r, k);
  }

  function Replace(s: System, p: Id, o': Occurrence, now: Time, calls: multiset<Slot>, stage: Stage): System
    requires EvaluationOf(s, p).Working?
  {
    var store := s.store.(occurrences := s.store.occurrences[o'.id := o'], highWater := Some(now));
    With(s.(store := store, relay := s.relay.(calls := calls)), p, EvaluationOf(s, p).(stage := stage))
  }

  lemma ReplaceKeeps(s: System, p: Id, o: Occurrence, o': Occurrence, now: Time, calls: multiset<Slot>, stage: Stage)
    requires Inv(s) && EvaluationOf(s, p).Working? && InHand(s.store, EvaluationOf(s, p).id, o)
    requires GoodRecord(o, o') && o.attempts <= o'.attempts
    requires forall k :: calls[k] <= if k == o.id then o'.attempts else s.relay.calls[k]
    requires o'.attempts > 0 ==> o.attempts > 0 || Covered(s.store.occurrences, s.relay.jobs, o, [])
    requires o'.status == Submitted ==> o'.relayJob.Some? && JobOf(s.relay.jobs, o'.relayJob.value, o.id)
    requires s.store.highWater.Some? && s.store.highWater.value <= now && o'.updatedAt <= now
    requires var s' := Replace(s, p, o', now, calls, stage); StageOk(s'.store, s'.relay, EvaluationOf(s, p).id, stage)
    ensures Inv(Replace(s, p, o', now, calls, stage))
  {
    var s' := Replace(s, p, o', now, calls, stage);
    ReplaceApart(s.store, s.relay.jobs, o, o');
    ReplaceStore(s.store, o, o', now);
    ReplaceRelay(s.store.occurrences, s.relay, o, o', calls);
    forall q | q in s.evaluations && q != p && s.evaluations[q].Working?
      ensures SameFor(s.store, s'.store, s.evaluations[q].id)
    {
      Exclusive(s, p, q);
    }
    OneMoves(s, s', p, EvaluationOf(s, p).(stage := stage));
  }

  /** `#update` never throws on the occurrence in hand: its lock, revision,
      status and clock are all still good. */
  lemma UpdateSucceeds(s: Store, o: Occurrence, patch: Patch, token: nat, raw: Time)
    requires StoreOk(s) && o.id in s.occurrences && s.occurrences[o.id] == o && Open(o.status)
    requires Lookup(s.locks, o.id.template) == Some(token)
    requires patch.status == Submitted <==> patch.relayJob.Some?
    requires patch.attempts.Some? ==> o.attempts <= patch.attempts.value <= MAX_ATTEMPT_COUNT
    ensures var now := Observed(s, raw);
      var o' := Patched(o, patch.(updatedAt := now));
      && Update(s, o, patch, token, raw) == (s.(highWater := Some(now), occurrences := s.occurrences[o.id := o']), Some(o'))
      && s.highWater.Some? && s.highWater.value <= now
  {
    assert OccurrenceOk(s, o.id);
  }

  lemma ConcludeKeeps(s: System, p: Id, o: Occurrence, patch: Patch, after: After, e: Event)
    requires Inv(s) && EvaluationOf(s, p).Working? && e.Advance?
    requires InHand(s.store, EvaluationOf(s, p).id, o) && AfterOk(s.store, EvaluationOf(s, p).id, after)
    requires patch.status == Submitted <==> patch.relayJob.Some?
    requires patch.attempts.None? && !Open(patch.status)
    requires patch.status == Skipped ==> o.attempts == 0
    requires patch.status == Submitted ==> o.attempts >= 1 && patch.relayJob.Some? && JobOf(s.relay.jobs, patch.relayJob.value, o.id)
    ensures var (s1, next) := Conclude(s, EvaluationOf(s, p), o, patch, after, e);
      Inv(With(s1, p, EvaluationOf(s, p).(stage := next))) && (next == Throwing ==> e.mute)
  {
    var v := EvaluationOf(s, p);
    assert EvaluationOk(s.store, s.relay, s.nextToken, v);
    UpdateSucceeds(s.store, o, patch, v.token, e.raw);
    var (s1, next) := Conclude(s, v, o, patch, after, e);
    FinalKeeps(s, p, o, patch, e.raw, Observed(s.store, e.raw), next);
    assert With(s1, p, v.(stage := next)) ==
      Replace(s, p, Patched(o, patch.(updatedAt := Observed(s.store, e.raw))), Observed(s.store, e.raw), s.relay.calls, next);
  }

  /** A final status may be written, whatever the evaluation does next. */
  lemma FinalKeeps(s: System, p: Id, o: Occurrence, patch: Patch, raw: Time, now: Time, next: Stage)
    requires Inv(s) && EvaluationOf(s, p).Working? && InHand(s.store, EvaluationOf(s, p).id, o)
    requires patch.status == Submitted <==> patch.relayJob.Some?
    requires patch.attempts.None? && !Open(patch.status)
    requires patch.status == Skipped ==> o.attempts == 0
    requires patch.status == Submitted ==> o.attempts >= 1 && patch.relayJob.Some? && JobOf(s.relay.jobs, patch.relayJob.value, o.id)
    requires Observed(s.store, raw) <= now && s.store.highWater.Some?
    requires next == Throwing || exists after: After :: next == Resume(after) && AfterOk(s.store, EvaluationOf(s, p).id, after)
    ensures Inv(Replace(s, p, Patched(o, patch.(updatedAt := Observed(s.store, raw))), now, s.relay.calls, next))
  {
    assert OccurrenceOk(s.store, o.id);
    ReplaceKeeps(s, p, o, Patched(o, patch.(updatedAt := Observed(s.store, raw))), now, s.relay.calls, next);
  }

  /** A second update on an occurrence that is already final changes nothing but
      the clock. */
  lemma SecondRefused(s: Store, o: Occurrence, o': Occurrence, patch: Patch, token: nat, raw: Time)
    requires o.id in s.occurrences && s.occurrences[o.id] == o' && CalendarStore.Frozen(o'.status)
    ensures Update(s, o, patch, token, raw) == (ObserveTime(s, raw), None)
  {
  }

  /** The caught update: written and acknowledged, or written and, with all
      attempts used, ending in a throw; only a throwing sink makes it throw. */
  lemma GuardedKeeps(s: System, p: Id, o: Occurrence, patch: Patch, after: After, e: Event)
    requires Inv(s) && EvaluationOf(s, p).Working? && e.Advance?
    requires InHand(s.store, EvaluationOf(s, p).id, o) && AfterOk(s.store, EvaluationOf(s, p).id, after)
    requires patch.status == Submitted <==> patch.relayJob.Some?
    requires patch.attempts.None? && (patch.status == Submitted || patch.status == ReviewRequired)
    requires patch.status == Submitted ==> o.attempts >= 1 && patch.relayJob.Some? && JobOf(s.relay.jobs, patch.relayJob.value, o.id)
    ensures var (s1, next) := Guarded(s, EvaluationOf(s, p), o, patch, after, e);
      Inv(With(s1, p, EvaluationOf(s, p).(stage := next))) && (next == Throwing ==> e.mute)
  {
    var v := EvaluationOf(s, p);
    assert EvaluationOk(s.store, s.relay, s.nextToken, v);
    UpdateSucceeds(s.store, o, patch, v.token, e.raw2);
    var now := Observed(s.store, e.raw2);
    var o' := Patched(o, patch.(updatedAt := now));
    var (s1, next) := Guarded(s, v, o, patch, after, e);
    var m := s.(store := Update(s.store, o, patch, v.token, e.raw2).0);
    if e.mute && o.attempts >= MAX_SUBMISSION_ATTEMPTS {
      SecondRefused(m.store, o, o', ToStatus(ReviewRequired), v.token, e.raw);
      FinalKeeps(s, p, o, patch, e.raw2, Observed(m.store, e.raw), Throwing);
      assert With(s1, p, v.(stage := next)) == Replace(s, p, o', Observed(m.store, e.raw), s.relay.calls, Throwing);
    } else {
      FinalKeeps(s, p, o, patch, e.raw2, now, Resume(after));
      assert With(s1, p, v.(stage := next)) == Replace(s, p, o', now, s.relay.calls, Resume(after));
    }
  }

  // -------------------------------------------------------------- listings

  lemma {:induction false} ListedIff(history: seq<Slot>, occs: Occs, t: Id, o: Occurrence)
    ensures o in Occurrences(history, occs, t) <==>
      exists id :: id in history && id in occs && id.template == t && occs[id] == o
  {
    if history != [] {
      ListedIff(history[1..], occs, t, o);
      assert history == [history[0]] + history[1..];
    }
  }

  lemma {:induction false} OnlyOpenIn(occs: seq<Occurrence>, o: Occurrence)
    ensures o in OnlyOpen(occs) <==> o in occs && Open(o.status)
  {
    if occs != [] {
      OnlyOpenIn(occs[1..], o);
      assert occs == [occs[0]] + occs[1..];
    }
  }

  lemma NotBothWaiting(occs: Occs, jobs: Jobs, a: Slot, b: Slot)
    requires AllApart(occs, jobs) && a in occs && b in occs && a.template == b.template && a != b
    ensures !(Unsettled(occs[a].status) && Unsettled(occs[b].status))
  {
    assert Apart(occs[a], occs[b], jobs);
  }

  /** With at most one unsettled occurrence per template there is at most one to retry. */
  lemma {:induction false} OneToRetry(occs: Occs, jobs: Jobs, history: seq<Slot>, t: Id)
    requires AllApart(occs, jobs) && NoRepeats(history)
    ensures |OnlyOpen(Occurrences(history, occs, t))| <= 1
  {
    if history != [] {
      var rest := Occurrences(history[1..], occs, t);
      assert forall i, j :: 0 <= i < j < |history[1..]| ==> history[1..][i] == history[i + 1] && history[1..][j] == history[j + 1];
      OneToRetry(occs, jobs, history[1..], t);
      if history[0] in occs && history[0].template == t && Open(occs[history[0]].status) {
        if OnlyOpen(rest) != [] {
          var o := OnlyOpen(rest)[0];
          OnlyOpenIn(rest, o);
          ListedIff(history[1..], occs, t, o);
          var id :| id in history[1..] && id in occs && id.template == t && occs[id] == o;
          NotBothWaiting(occs, jobs, history[0], id);
        }
      }
      var all := Occurrences(history, occs, t);
      assert if history[0] in occs && history[0].template == t
        then all[0] == occs[history[0]] && all[1..] == rest else all == rest;
    }
  }

  // ------------------------------------------------------ steps, one by one

  lemma MoveKeeps(s: System, p: Id, stage: Stage)
    requires Inv(s) && EvaluationOf(s, p).Working? && StageOk(s.store, s.relay, EvaluationOf(s, p).id, stage)
    ensures Inv(With(s, p, EvaluationOf(s, p).(stage := stage)))
  {
    var s' := With(s, p, EvaluationOf(s, p).(stage := stage));
    OneMoves(s, s', p, EvaluationOf(s, p).(stage := stage));
  }

  lemma LockedKeeps(s: System, p: Id)
    requires Inv(s) && EvaluationOf(s, p).Working?
    ensures Inv(With(s, p, EvaluationOf(s, p).(stage := LockedStep(s, EvaluationOf(s, p)))))
  {
    var v := EvaluationOf(s, p);
    var next := LockedStep(s, v);
    if next.Retry? {
      var occs := Occurrences(s.store.history, s.store.occurrences, v.id);
      OneToRetry(s.store.occurrences, s.relay.jobs, s.store.history, v.id);
      forall o | o in next.pending
        ensures InHand(s.store, v.id, o)
      {
        OnlyOpenIn(occs, o);
        ListedIff(s.store.history, s.store.occurrences, v.id, o);
        var id :| id in s.store.history && id in s.store.occurrences && id.template == v.id && s.store.occurrences[id] == o;
        assert OccurrenceOk(s.store, id);
      }
    }
    MoveKeeps(s, p, next);
  }

  lemma ListingCovers(s: Store, jobs: Jobs, t: Id, o: Occurrence)
    requires StoreOk(s) && o.id.template == t
    ensures var priors := Occurrences(s.history, s.occurrences, t);
      Snapshots(s.occurrences, t, priors) && Covered(s.occurrences, jobs, o, priors)
  {
    var priors := Occurrences(s.history, s.occurrences, t);
    forall q | q in priors
      ensures q.id.template == t && q.id in s.occurrences && s.occurrences[q.id] == q
    {
      ListedIff(s.history, s.occurrences, t, q);
      var id :| id in s.history && id in s.occurrences && id.template == t && s.occurrences[id] == q;
      assert OccurrenceOk(s, id);
    }
    forall a | a in s.occurrences && a.template == t
      ensures s.occurrences[a] in priors
    {
      assert OccurrenceOk(s, a);
      ListedIff(s.history, s.occurrences, t, s.occurrences[a]);
    }
  }

  lemma EnterKeeps(s: System, p: Id, o: Occurrence, after: After, e: Event)
    requires Inv(s) && EvaluationOf(s, p).Working? && e.Advance?
    requires InHand(s.store, EvaluationOf(s, p).id, o) && AfterOk(s.store, EvaluationOf(s, p).id, after)
    ensures var (s1, next) := Enter(s, EvaluationOf(s, p), o, after, e);
      Inv(With(s1, p, EvaluationOf(s, p).(stage := next))) && next.Check?
  {
    var v := EvaluationOf(s, p);
    assert OccurrenceOk(s.store, o.id);
    ListingCovers(s.store, s.relay.jobs, v.id, o);
    var (s1, next) := Enter(s, v, o, after, e);
    assert s1 == s && next.Check? && next.def == o.fingerprint && next.def.id == v.id;
    MoveKeeps(s, p, next);
  }

  // -------------------------------------------------------------- submitting

  lemma ObserveKeepsStore(s: Store, raw: Time)
    requires StoreOk(s)
    ensures StoreOk(ObserveTime(s, raw))
  {
    var s' := ObserveTime(s, raw);
    forall id {:trigger OccurrenceOk(s', id)} | id in s'.occurrences
      ensures OccurrenceOk(s', id)
    {
      assert OccurrenceOk(s, id);
    }
  }

  function SubmissionPatch(s: Store, o: Occurrence, raw2: Time): Patch {
    Patch(SubmissionPending, None, Some(o.attempts + 1), Some(Observed(s, raw2)), 0)
  }

  function Submission(s: Store, o: Occurrence, raw: Time, raw2: Time): Occurrence {
    Patched(o, SubmissionPatch(s, o, raw2).(updatedAt := Observed(ObserveTime(s, raw2), raw)))
  }

  lemma SubmitUpdate(s: Store, o: Occurrence, raw: Time, raw2: Time, token: nat)
    requires StoreOk(s) && o.id in s.occurrences && s.occurrences[o.id] == o && Open(o.status)
    requires o.attempts < MAX_SUBMISSION_ATTEMPTS && Lookup(s.locks, o.id.template) == Some(token)
    ensures var now, o' := Observed(ObserveTime(s, raw2), raw), Submission(s, o, raw, raw2);
      && Update(ObserveTime(s, raw2), o, SubmissionPatch(s, o, raw2), token, raw)
           == (s.(highWater := Some(now), occurrences := s.occurrences[o.id := o']), Some(o'))
      && s.highWater.Some? && s.highWater.value <= now
  {
    assert OccurrenceOk(s, o.id);
    ObserveKeepsStore(s, raw2);
    UpdateSucceeds(ObserveTime(s, raw2), o, SubmissionPatch(s, o, raw2), token, raw);
  }

  /** `accept` is called only once the attempt's own evidence is in. */
  function CallsAfter(calls: multiset<Slot>, o: Occurrence, e: Event): multiset<Slot>
    requires e.Advance?
  {
    if e.mute then calls else calls + multiset{o.id}
  }

  lemma SubmitResult(s: System, p: Id, e: Event, o: Occurrence, def: Template, after: After)
    requires StoreOk(s.store) && EvaluationOf(s, p).Working? && EvaluationOf(s, p).stage == Check(o, def, [], after) && e.Advance?
    requires InHand(s.store, EvaluationOf(s, p).id, o) && o.attempts < MAX_SUBMISSION_ATTEMPTS
    requires Lookup(s.store.locks, o.id.template) == Some(EvaluationOf(s, p).token)
    ensures var v := EvaluationOf(s, p);
      var o' := Submission(s.store, o, e.raw, e.raw2);
      var (s1, next) := CheckStep(s, v, e);
      var now := Observed(ObserveTime(s.store, e.raw2), e.raw);
      && next == (if e.mute then Throwing else Calling(o', def, after))
      && With(s1, p, v.(stage := next)) == Replace(s, p, o', now, CallsAfter(s.relay.calls, o, e), next)
      && s.store.highWater.Some? && s.store.highWater.value <= now
  {
    SubmitUpdate(s.store, o, e.raw, e.raw2, EvaluationOf(s, p).token);
  }

  lemma CoveredAfterReplace(occs: Occs, jobs: Jobs, o: Occurrence, o': Occurrence)
    requires Covered(occs, jobs, o, []) && o'.id == o.id
    ensures Covered(occs[o.id := o'], jobs, o', [])
  {
    var occs' := occs[o.id := o'];
    forall a {:trigger Cleared(occs'[a], jobs)} | a in occs' && a.template == o.id.template && a != o.id
      ensures Cleared(occs'[a], jobs)
    {
      assert Cleared(occs[a], jobs);
    }
  }

  lemma SubmitGood(s: Store, o: Occurrence, raw: Time, raw2: Time)
    requires StoreOk(s) && o.id in s.occurrences && s.occurrences[o.id] == o && Open(o.status) && o.attempts < MAX_SUBMISSION_ATTEMPTS
    ensures var o' := Submission(s, o, raw, raw2);
      && GoodRecord(o, o') && o'.attempts == o.attempts + 1 && o'.status == SubmissionPending
      && o'.updatedAt == Observed(ObserveTime(s, raw2), raw)
  {
    assert OccurrenceOk(s, o.id);
  }

  lemma SubmitStage(s: System, p: Id, o: Occurrence, o': Occurrence, def: Template, after: After, now: Time)
    requires EvaluationOf(s, p).Working? && StageOk(s.store, s.relay, EvaluationOf(s, p).id, Check(o, def, [], after))
    requires o'.id == o.id && o'.fingerprint == o.fingerprint && o'.status == SubmissionPending
    ensures StageOk(s.store.(occurrences := s.store.occurrences[o'.id := o'], highWater := Some(now)), s.relay,
                    EvaluationOf(s, p).id, Calling(o', def, after))
  {
    CoveredAfterReplace(s.store.occurrences, s.relay.jobs, o, o');
  }

  lemma SubmitReplaces(s: System, p: Id, e: Event, o: Occurrence, def: Template, after: After)
    requires Inv(s) && EvaluationOf(s, p).Working? && e.Advance? && o.attempts < MAX_SUBMISSION_ATTEMPTS
    requires StageOk(s.store, s.relay, EvaluationOf(s, p).id, Check(o, def, [], after))
    requires s.store.highWater.Some? && s.store.highWater.value <= Observed(ObserveTime(s.store, e.raw2), e.raw)
    ensures var o' := Submission(s.store, o, e.raw, e.raw2);
      Inv(Replace(s, p, o', Observed(ObserveTime(s.store, e.raw2), e.raw), CallsAfter(s.relay.calls, o, e),
                  if e.mute then Throwing else Calling(o', def, after)))
  {
    var o' := Submission(s.store, o, e.raw, e.raw2);
    var now := Observed(ObserveTime(s.store, e.raw2), e.raw);
    SubmitStage(s, p, o, o', def, after, now);
    SubmitGood(s.store, o, e.raw, e.raw2);
    assert forall k :: CallsAfter(s.relay.calls, o, e)[k] <= if k == o.id then o'.attempts else s.relay.calls[k];
    ReplaceKeeps(s, p, o, o', now, CallsAfter(s.relay.calls, o, e), if e.mute then Throwing else Calling(o', def, after));
  }

  /** Submission: all other occurrences are cleared, so this one may be attempted. */
  lemma SubmitKeeps(s: System, p: Id, e: Event, o: Occurrence, def: Template, after: After)
    requires Inv(s) && EvaluationOf(s, p).Working? && EvaluationOf(s, p).stage == Check(o, def, [], after) && e.Advance?
    requires o.attempts < MAX_SUBMISSION_ATTEMPTS
    ensures var (s1, next) := CheckStep(s, EvaluationOf(s, p), e);
      Inv(With(s1, p, EvaluationOf(s, p).(stage := next))) && (next == Throwing ==> e.mute)
  {
    assert EvaluationOk(s.store, s.relay, s.nextToken, EvaluationOf(s, p));
    SubmitResult(s, p, e, o, def, after);
    SubmitReplaces(s, p, e, o, def, after);
  }

  lemma DropHead(s: Store, jobs: Jobs, o: Occurrence, priors: seq<Occurrence>)
    requires StoreOk(s) && priors != []
    requires Covered(s.occurrences, jobs, o, priors)
    requires priors[0].id == o.id || Cleared(priors[0], jobs)
    ensures Covered(s.occurrences, jobs, o, priors[1..])
  {
    forall a {:trigger Cleared(s.occurrences[a], jobs)} | a in s.occurrences && a.template == o.id.template && a != o.id
      ensures Cleared(s.occurrences[a], jobs) || s.occurrences[a] in priors[1..]
    {
      assert OccurrenceOk(s, a);
      assert Cleared(s.occurrences[a], jobs) || s.occurrences[a] in priors;
      assert priors == [priors[0]] + priors[1..];
    }
  }

  /** A predecessor job still running means this occurrence was never attempted. */
  lemma NonTerminalMeansFirst(s: System, o: Occurrence, prior: Occurrence, fault: bool)
    requires Inv(s) && o.id in s.store.occurrences && s.store.occurrences[o.id] == o && Open(o.status)
    requires prior.id in s.store.occurrences && s.store.occurrences[prior.id] == prior && prior.status == Submitted
    requires prior.id != o.id && prior.id.template == o.id.template
    ensures AnswerOk(s.relay.jobs, o, prior, AnswerOf(s, prior, fault))
  {
    assert OccurrenceOk(s.store, prior.id) && SubmissionOk(s.store.occurrences, s.relay, prior.id);
    assert JobOk(s.relay, prior.relayJob.value);
    assert Apart(s.store.occurrences[o.id], s.store.occurrences[prior.id], s.relay.jobs);
  }

  lemma CheckKeeps(s: System, p: Id, e: Event)
    requires Inv(s) && EvaluationOf(s, p).Working? && EvaluationOf(s, p).stage.Check? && e.Advance?
    ensures var (s1, next) := CheckStep(s, EvaluationOf(s, p), e);
      Inv(With(s1, p, EvaluationOf(s, p).(stage := next))) && (next == Throwing ==> e.mute)
  {
    var v := EvaluationOf(s, p);
    var Check(o, def, priors, after) := v.stage;
    assert EvaluationOk(s.store, s.relay, s.nextToken, v);
    if priors == [] {
      if o.attempts >= MAX_SUBMISSION_ATTEMPTS {
        ConcludeKeeps(s, p, o, ToStatus(ReviewRequired), after, e);
      } else {
        SubmitKeeps(s, p, e, o, def, after);
      }
    } else {
      var prior := priors[0];
      assert priors == [prior] + priors[1..];
      assert prior in priors;
      if prior.id == o.id || prior.status == Skipped {
        DropHead(s.store, s.relay.jobs, o, priors);
        MoveKeeps(s, p, Check(o, def, priors[1..], after));
      } else if prior.status != Submitted {
        ConcludeKeeps(s, p, o, ToStatus(ReviewRequired), after, e);
      } else {
        NonTerminalMeansFirst(s, o, prior, e.fault);
        MoveKeeps(s, p, Answered(o, def, prior, AnswerOf(s, prior, e.fault), priors[1..], after));
      }
    }
  }

  lemma AnsweredKeeps(s: System, p: Id, e: Event)
    requires Inv(s) && EvaluationOf(s, p).Working? && EvaluationOf(s, p).stage.Answered? && e.Advance?
    ensures var (s1, next) := AnsweredStep(s, EvaluationOf(s, p), e);
      Inv(With(s1, p, EvaluationOf(s, p).(stage := next))) && (next == Throwing ==> e.mute)
  {
    var v := EvaluationOf(s, p);
    var Answered(o, def, prior, answer, priors, after) := v.stage;
    assert EvaluationOk(s.store, s.relay, s.nextToken, v);
    var all := [prior] + priors;
    assert prior in all;
    if answer.None? {
      ConcludeKeeps(s, p, o, ToStatus(ReviewRequired), after, e);
    } else if !Terminal(answer.value.state) {
      ConcludeKeeps(s, p, o, ToStatus(Skipped), after, e);
    } else {
      assert all[1..] == priors;
      DropHead(s.store, s.relay.jobs, o, all);
      MoveKeeps(s, p, Check(o, def, priors, after));
    }
  }

  lemma RepliedKeeps(s: System, p: Id, e: Event)
    requires Inv(s) && EvaluationOf(s, p).Working? && EvaluationOf(s, p).stage.Replied? && e.Advance?
    ensures var (s1, next) := RepliedStep(s, EvaluationOf(s, p), e);
      Inv(With(s1, p, EvaluationOf(s, p).(stage := next))) && (next == Throwing ==> e.mute)
  {
    var v := EvaluationOf(s, p);
    var Replied(o, def, reply, after) := v.stage;
    assert EvaluationOk(s.store, s.relay, s.nextToken, v);
    assert OccurrenceOk(s.store, o.id);
    match reply
    case Bound(job) => GuardedKeeps(s, p, o, Patch(Submitted, Some(job.id), None, None, 0), after, e);
    case Refused => GuardedKeeps(s, p, o, ToStatus(ReviewRequired), after, e);
    case Unknown => UnresolvedKeeps(s, p, o, after, e);
  }

  lemma UnresolvedKeeps(s: System, p: Id, o: Occurrence, after: After, e: Event)
    requires Inv(s) && EvaluationOf(s, p).Working? && e.Advance?
    requires InHand(s.store, EvaluationOf(s, p).id, o) && AfterOk(s.store, EvaluationOf(s, p).id, after)
    ensures var (s1, next) := Unresolved(s, EvaluationOf(s, p), o, after, e);
      Inv(With(s1, p, EvaluationOf(s, p).(stage := next))) && (next == Throwing ==> e.mute)
  {
    if o.attempts < MAX_SUBMISSION_ATTEMPTS {
      MoveKeeps(s, p, Resume(after));
    } else {
      ConcludeKeeps(s, p, o, ToStatus(ReviewRequired), after, e);
    }
  }

  // ------------------------------------------------------ Relay's own moves

  lemma GrowingJobsApart(occs: Occs, jobs: Jobs, jobs': Jobs)
    requires AllApart(occs, jobs) && JobsGrow(jobs, jobs')
    ensures AllApart(occs, jobs')
  {
    forall a, b {:trigger Apart(occs[a], occs[b], jobs')} | a in occs && b in occs && a.template == b.template && a != b
      ensures Apart(occs[a], occs[b], jobs')
    {
      assert Apart(occs[a], occs[b], jobs);
    }
  }

  lemma ProgressRelay(occs: Occs, r: Relay, id: Id, to: JobState)
    requires RelayOk(occs, r) && id in r.jobs && LegalProgress(r.jobs[id].state, to)
    ensures var r' := r.(jobs := r.jobs[id := r.jobs[id].(state := to)]);
      RelayOk(occs, r') && JobsGrow(r.jobs, r'.jobs)
  {
    var r' := r.(jobs := r.jobs[id := r.jobs[id].(state := to)]);
    forall n {:trigger KeyOk(occs, r', n)} | n in r'.keys
      ensures KeyOk(occs, r', n)
    {
      assert KeyOk(occs, r, n);
    }
    forall j {:trigger JobOk(r', j)} | j in r'.jobs
      ensures JobOk(r', j)
    {
      assert JobOk(r, j);
    }
    forall k {:trigger SubmissionOk(occs, r', k)} | k in occs
      ensures SubmissionOk(occs, r', k)
    {
      assert SubmissionOk(occs, r, k);
    }
  }

  lemma NewJobRelay(occs: Occs, r: Relay, job: Job)
    requires RelayOk(occs, r)
    requires job.key in occs && occs[job.key].attempts > 0 && occs[job.key].status != Submitted
    requires (job.jobType, job.capability) == (occs[job.key].fingerprint.jobType, occs[job.key].fingerprint.capability)
    requires Namespace(job.subject, job.key) !in r.keys && job.id !in r.jobs
    ensures var r' := r.(keys := r.keys[Namespace(job.subject, job.key) := job.id], jobs := r.jobs[job.id := job]);
      RelayOk(occs, r') && JobsGrow(r.jobs, r'.jobs)
  {
    var r' := r.(keys := r.keys[Namespace(job.subject, job.key) := job.id], jobs := r.jobs[job.id := job]);
    forall n {:trigger KeyOk(occs, r', n)} | n in r'.keys
      ensures KeyOk(occs, r', n)
    {
      assert n in r.keys ==> KeyOk(occs, r, n);
    }
    forall j {:trigger JobOk(r', j)} | j in r'.jobs
      ensures JobOk(r', j)
    {
      assert j in r.jobs ==> JobOk(r, j);
    }
    forall k {:trigger SubmissionOk(occs, r', k)} | k in occs
      ensures SubmissionOk(occs, r', k)
    {
      assert SubmissionOk(occs, r, k);
    }
  }

  lemma JobMovesKeeps(s: System, id: Id, to: JobState)
    requires Inv(s)
    ensures Inv(Progress(s, id, to))
  {
    var s' := Progress(s, id, to);
    if s' != s {
      ProgressRelay(s.store.occurrences, s.relay, id, to);
      GrowingJobsApart(s.store.occurrences, s.relay.jobs, s'.relay.jobs);
      forall p | p in s.evaluations
        ensures EvaluationOk(s'.store, s'.relay, s'.nextToken, s.evaluations[p])
      {
        if s.evaluations[p].Working? {
          StageFrame(s.store, s.relay, s'.store, s'.relay, s.evaluations[p].id, s.evaluations[p].stage);
        }
      }
    }
  }

  /** `accept` changes Relay's tables, for the slot in hand only. */
  lemma AcceptMoves(s: System, p: Id, r': Relay, stage: Stage)
    requires Inv(s) && EvaluationOf(s, p).Working?
    requires RelayOk(s.store.occurrences, r') && JobsGrow(s.relay.jobs, r'.jobs)
    requires StageOk(s.store, r', EvaluationOf(s, p).id, stage)
    ensures Inv(With(s.(relay := r'), p, EvaluationOf(s, p).(stage := stage)))
  {
    var s' := With(s.(relay := r'), p, EvaluationOf(s, p).(stage := stage));
    GrowingJobsApart(s.store.occurrences, s.relay.jobs, r'.jobs);
    forall q | q in s.evaluations && q != p && s.evaluations[q].Working?
      ensures SameFor(s.store, s'.store, s.evaluations[q].id)
    {
      Exclusive(s, p, q);
    }
    OneMoves(s, s', p, EvaluationOf(s, p).(stage := stage));
  }

  /** Relay's conflict answer is unreachable for a recurring key: whatever is
      filed under the slot and the resolved requester has their fingerprint, and
      is the job the occurrence asks for. */
  lemma ReplayBinds(s: System, o: Occurrence, def: Template, subject: Id)
    requires Inv(s) && o.id in s.store.occurrences && s.store.occurrences[o.id] == o && Open(o.status) && def == o.fingerprint
    requires Namespace(subject, o.id) in s.relay.keys
    ensures var id := s.relay.keys[Namespace(subject, o.id)];
      && id in s.relay.jobs && s.relay.jobs[id].key == o.id
      && (s.relay.jobs[id].subject, s.relay.jobs[id].jobType, s.relay.jobs[id].capability) == (subject, def.jobType, def.capability)
      && BoundTo(s.relay.jobs[id], o, def)
  {
    assert KeyOk(s.store.occurrences, s.relay, Namespace(subject, o.id)) && OccurrenceOk(s.store, o.id);
  }

  lemma CallingKeeps(s: System, p: Id, e: Event)
    requires Inv(s) && EvaluationOf(s, p).Working? && EvaluationOf(s, p).stage.Calling? && e.Advance?
    ensures var (s1, next) := CallingStep(s, EvaluationOf(s, p), e);
      Inv(With(s1, p, EvaluationOf(s, p).(stage := next)))
  {
    var v := EvaluationOf(s, p);
    var Calling(o, def, after) := v.stage;
    var (s1, next) := CallingStep(s, v, e);
    assert EvaluationOk(s.store, s.relay, s.nextToken, v);
    assert OccurrenceOk(s.store, o.id);
    var space := Namespace(e.subject, o.id);
    assert space in s.relay.keys ==> KeyOk(s.store.occurrences, s.relay, space);
    if next.Replied? {
      MoveKeeps(s, p, next);
    } else {
      var job := s1.relay.jobs[e.newId];
      NewJobRelay(s.store.occurrences, s.relay, job);
      CoveredFrame(s.store.occurrences, s.relay.jobs, s.store.occurrences, s1.relay.jobs, o, []);
      AcceptMoves(s, p, s1.relay, next);
    }
  }

  lemma ClaimedKeeps(s: System, p: Id, e: Event)
    requires Inv(s) && EvaluationOf(s, p).Working? && EvaluationOf(s, p).stage.Claimed? && e.Advance?
    ensures var (s1, next) := ClaimedStep(s, EvaluationOf(s, p), e);
      Inv(With(s1, p, EvaluationOf(s, p).(stage := next)))
  {
    var v := EvaluationOf(s, p);
    var Claimed(o, def, job, after) := v.stage;
    assert EvaluationOk(s.store, s.relay, s.nextToken, v);
    var (s1, next) := ClaimedStep(s, v, e);
    assert JobOk(s.relay, job);
    if s1 == s {
      MoveKeeps(s, p, next);
    } else {
      ProgressRelay(s.store.occurrences, s.relay, job, JobAccepted);
      CoveredFrame(s.store.occurrences, s.relay.jobs, s.store.occurrences, s1.relay.jobs, o, []);
      AcceptMoves(s, p, s1.relay, next);
    }
  }
}
