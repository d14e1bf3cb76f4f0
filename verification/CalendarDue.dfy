// Which windows are due, counted on the schedule's own grid, and what an
// evaluation adds to the store for them.

module CalendarDue {
  import opened Common
  import opened CalendarStore
  import opened CalendarEngine
  import opened CalendarInvariant
  import opened CalendarSafety
  import opened CalendarRuns
  import opened CalendarTheorems
  import opened CalendarWindows

  // ------------------------------------------------------------ due instants

  /** A grid point of the schedule, not before the anchor, not after `now`, and
      after the last evaluation. */
  predicate DueInstant(t: Template, last: Option<Time>, now: Time, at: Time)
    requires t.intervalSeconds > 0
  {
    && t.anchor <= at <= now && (at - t.anchor) % (t.intervalSeconds * 1000) == 0
    && (last.Some? ==> last.value < at)
  }

  function DueSet(t: Template, last: Option<Time>, now: Time): set<Time>
    requires t.intervalSeconds > 0
  {
    set at | t.anchor <= at <= now && DueInstant(t, last, now, at)
  }

  function Points(anchor: Time, d: int, first: int, latest: int): set<Time> {
    set i | first <= i <= latest :: anchor + i * d
  }

  lemma LaterPoint(anchor: Time, d: int, first: int, latest: int)
    requires d > 0
    ensures anchor + latest * d !in Points(anchor, d, first, latest - 1)
  {
    forall i | first <= i <= latest - 1
      ensures anchor + i * d != anchor + latest * d
    {
      TimesMonotone(latest, i + 1, d);
      assert (i + 1) * d == i * d + d;
    }
  }

  lemma {:induction false} PointsCount(anchor: Time, d: int, first: int, latest: int)
    requires d > 0 && first <= latest + 1
    ensures |Points(anchor, d, first, latest)| == latest - first + 1
    decreases latest + 1 - first
  {
    if first == latest + 1 {
      assert Points(anchor, d, first, latest) == {};
    } else {
      PointsCount(anchor, d, first, latest - 1);
      LaterPoint(anchor, d, first, latest);
      PointsExtend(anchor, d, first, latest);
    }
  }

  lemma PointsExtend(anchor: Time, d: int, first: int, latest: int)
    requires d > 0 && first <= latest
    ensures Points(anchor, d, first, latest) == Points(anchor, d, first, latest - 1) + {anchor + latest * d}
  {
    forall x
      ensures x in Points(anchor, d, first, latest) <==> x in Points(anchor, d, first, latest - 1) || x == anchor + latest * d
    {
      if x in Points(anchor, d, first, latest) {
        var i :| first <= i <= latest && x == anchor + i * d;
      }
      if x in Points(anchor, d, first, latest - 1) {
        var i :| first <= i <= latest - 1 && x == anchor + i * d;
        assert first <= i <= latest;
      }
    }
  }

  /** A grid point is due exactly when its index lies in the window range. */
  lemma IndexIsDue(t: Template, last: Option<Time>, now: Time, i: int)
    requires t.intervalSeconds > 0
    ensures var d := Interval(t);
      DueInstant(t, last, now, t.anchor + i * d) <==> FirstIndex(t.anchor, d, last) <= i <= LatestIndex(t.anchor, d, now)
  {
    var d := Interval(t);
    FloorBounds(now - t.anchor, d);
    OnGrid(i, d);
    var l := LatestIndex(t.anchor, d, now);
    TimesMonotone(l, i, d);
    TimesMonotone(i, l + 1, d);
    TimesMonotone(i, 0, d);
    TimesMonotone(-1, i, d);
    if last.Some? {
      var j := Floor(last.value - t.anchor, d);
      FloorBounds(last.value - t.anchor, d);
      TimesMonotone(i, j + 1, d);
      TimesMonotone(j, i, d);
    }
  }

  lemma OnGrid(i: int, d: int)
    requires d > 0
    ensures (i * d) % d == 0 && i * d / d == i
  {
    var q, r := i * d / d, (i * d) % d;
    assert i * d == q * d + r;
    assert (i - q) * d == r;
    if i > q {
      TimesMonotone(i - q, 1, d);
    } else if i < q {
      TimesMonotone(-1, i - q, d);
    }
  }

  lemma GridIndex(x: int, d: int)
    requires d > 0 && x % d == 0
    ensures x == Floor(x, d) * d
  {
    assert x == x / d * d + x % d;
  }

  lemma DueHasIndex(t: Template, last: Option<Time>, now: Time, at: Time) returns (i: int)
    requires t.intervalSeconds > 0 && DueInstant(t, last, now, at)
    ensures var d := Interval(t);
      FirstIndex(t.anchor, d, last) <= i <= LatestIndex(t.anchor, d, now) && at == t.anchor + i * d
  {
    i := Floor(at - t.anchor, Interval(t));
    GridIndex(at - t.anchor, Interval(t));
    IndexIsDue(t, last, now, i);
  }

  lemma InPoints(anchor: Time, d: int, first: int, latest: int, x: Time) returns (i: int)
    requires x in Points(anchor, d, first, latest)
    ensures first <= i <= latest && x == anchor + i * d
  {
    i :| first <= i <= latest && x == anchor + i * d;
  }

  lemma PointIn(anchor: Time, d: int, first: int, latest: int, i: int)
    requires first <= i <= latest
    ensures anchor + i * d in Points(anchor, d, first, latest)
  {
  }

  lemma DueIsRange(t: Template, last: Option<Time>, now: Time)
    requires t.intervalSeconds > 0
    ensures DueSet(t, last, now) == Range(t, last, now)
  {
    forall x
      ensures x in DueSet(t, last, now) <==> x in Range(t, last, now)
    {
      DueOrPoint(t, last, now, x);
    }
  }

  function Range(t: Template, last: Option<Time>, now: Time): set<Time>
    requires t.intervalSeconds > 0
  {
    Points(t.anchor, Interval(t), FirstIndex(t.anchor, Interval(t), last), LatestIndex(t.anchor, Interval(t), now))
  }

  lemma DueOrPoint(t: Template, last: Option<Time>, now: Time, x: Time)
    requires t.intervalSeconds > 0
    ensures x in DueSet(t, last, now) <==> x in Range(t, last, now)
  {
    var d := Interval(t);
    var f, l := FirstIndex(t.anchor, d, last), LatestIndex(t.anchor, d, now);
    if x in DueSet(t, last, now) {
      var i := DueHasIndex(t, last, now, x);
      PointIn(t.anchor, d, f, l, i);
    } else if x in Range(t, last, now) {
      var i := InPoints(t.anchor, d, f, l, x);
      IndexIsDue(t, last, now, i);
    }
  }

  /** The engine's count is the number of due instants. */
  lemma CountIsDue(t: Template, last: Option<Time>, now: Time)
    requires t.intervalSeconds > 0
    ensures |DueSet(t, last, now)| == DueCount(t.anchor, Interval(t), last, now)
  {
    var d := Interval(t);
    var f, l := FirstIndex(t.anchor, d, last), LatestIndex(t.anchor, d, now);
    DueIsRange(t, last, now);
    if f <= l + 1 {
      PointsCount(t.anchor, d, f, l);
    } else {
      assert Range(t, last, now) == {};
    }
  }

  /** The newest due instant is the grid point within one interval of `now`. */
  predicate Newest(t: Template, last: Option<Time>, now: Time, at: Time)
    requires t.intervalSeconds > 0
  {
    DueInstant(t, last, now, at) && now < at + t.intervalSeconds * 1000
  }

  lemma LatestIsNewest(t: Template, last: Option<Time>, now: Time)
    requires t.intervalSeconds > 0 && DueCount(t.anchor, Interval(t), last, now) > 0
    ensures Newest(t, last, now, t.anchor + LatestIndex(t.anchor, Interval(t), now) * Interval(t))
  {
    FloorBounds(now - t.anchor, Interval(t));
    IndexIsDue(t, last, now, LatestIndex(t.anchor, Interval(t), now));
  }

  lemma NewestIsLatest(t: Template, last: Option<Time>, now: Time, at: Time)
    requires t.intervalSeconds > 0 && Newest(t, last, now, at)
    ensures DueCount(t.anchor, Interval(t), last, now) > 0
    ensures at == t.anchor + LatestIndex(t.anchor, Interval(t), now) * Interval(t)
  {
    var i := DueHasIndex(t, last, now, at);
    SameIndex(now - t.anchor, i, Interval(t));
  }

  lemma SameIndex(x: int, i: int, d: int)
    requires d > 0 && i <= Floor(x, d) && x < i * d + d
    ensures i == Floor(x, d)
  {
    FloorBounds(x, d);
    TimesMonotone(Floor(x, d), i + 1, d);
    assert (i + 1) * d == i * d + d;
  }

  // --------------------------------------------------- what is added for them

  const MISSED_LIMIT := 64

  /** One due window is run, up to 64 are run as one or passed over as the
      template says, and more than 64 go to review. */
  function Deserved(t: Template, last: Option<Time>, now: Time): Option<OccurrenceStatus>
    requires t.intervalSeconds > 0
  {
    var due := |DueSet(t, last, now)|;
    if due == 0 then None
    else if due > MISSED_LIMIT then Some(ReviewRequired)
    else if due == 1 || t.missed == RunOnceForMissed then Some(Due)
    else None
  }

  /** Something of the template is still open or under review. */
  ghost predicate Waiting(s: Store, t: Id) {
    exists id :: id in s.occurrences && id.template == t
      && (s.occurrences[id].status == Due || s.occurrences[id].status == SubmissionPending || s.occurrences[id].status == ReviewRequired)
  }

  function LastFor(s: Store, t: Id): Option<Time> {
    if t in s.checkpoints then Some(s.checkpoints[t].lastEvaluatedAt) else None
  }

  lemma WaitingIsListed(s: Store, t: Id)
    requires StoreOk(s) && Waiting(s, t)
    ensures AnyOpenOrReview(Occurrences(s.history, s.occurrences, t))
  {
    var id :| id in s.occurrences && id.template == t
      && (s.occurrences[id].status == Due || s.occurrences[id].status == SubmissionPending || s.occurrences[id].status == ReviewRequired);
    var o, occs := s.occurrences[id], Occurrences(s.history, s.occurrences, t);
    assert OccurrenceOk(s, id);
    ListedIff(s.history, s.occurrences, t, o);
    assert o in occs && (Open(o.status) || o.status == ReviewRequired);
  }

  lemma ListedIsWaiting(s: Store, t: Id, o: Occurrence)
    requires o in Occurrences(s.history, s.occurrences, t) && Unsettled(o.status)
    ensures Waiting(s, t)
  {
    ListedIff(s.history, s.occurrences, t, o);
    var id :| id in s.history && id in s.occurrences && id.template == t && s.occurrences[id] == o;
    assert s.occurrences[id].status == o.status;
  }

  lemma WaitingMeans(s: Store, t: Id)
    requires StoreOk(s)
    ensures Waiting(s, t) <==> AnyOpenOrReview(Occurrences(s.history, s.occurrences, t))
  {
    if Waiting(s, t) {
      WaitingIsListed(s, t);
    } else if AnyOpenOrReview(Occurrences(s.history, s.occurrences, t)) {
      var o :| o in Occurrences(s.history, s.occurrences, t) && (Open(o.status) || o.status == ReviewRequired);
      ListedIsWaiting(s, t, o);
    }
  }

  lemma PlanMeans(s: Store, t: Template, now: Time, at: Time, status: OccurrenceStatus)
    requires StoreOk(s) && t.intervalSeconds > 0
    ensures PlanOf(s, t, now) == ClaimOne(at, status) <==>
      !Waiting(s, t.id) && Newest(t, LastFor(s, t.id), now, at) && Deserved(t, LastFor(s, t.id), now) == Some(status)
  {
    var last := LastFor(s, t.id);
    assert LastEvaluated(Lookup(s.checkpoints, t.id)) == last;
    WaitingMeans(s, t.id);
    CountIsDue(t, last, now);
    if PlanOf(s, t, now) == ClaimOne(at, status) {
      LatestIsNewest(t, last, now);
    }
    if Newest(t, last, now, at) {
      NewestIsLatest(t, last, now, at);
    }
  }

  lemma UpdateAddsNothing(s: Store, o: Occurrence, p: Patch, token: nat, raw: Time)
    ensures Update(s, o, p, token, raw).0.occurrences.Keys == s.occurrences.Keys
  {
  }

  lemma ConcludeAddsNothing(s: System, w: Evaluation, o: Occurrence, p: Patch, after: After, e: Event)
    requires w.Working? && e.Advance?
    ensures Conclude(s, w, o, p, after, e).0.store.occurrences.Keys == s.store.occurrences.Keys
    ensures Guarded(s, w, o, p, after, e).0.store.occurrences.Keys == s.store.occurrences.Keys
  {
    UpdateAddsNothing(s.store, o, p, w.token, e.raw);
    UpdateAddsNothing(s.store, o, p, w.token, e.raw2);
    var m := s.(store := Update(s.store, o, p, w.token, e.raw2).0);
    UpdateAddsNothing(m.store, o, ToStatus(ReviewRequired), w.token, e.raw);
  }

  lemma CheckAddsNothing(s: System, w: Evaluation, e: Event)
    requires w.Working? && w.stage.Check? && e.Advance?
    ensures CheckStep(s, w, e).0.store.occurrences.Keys == s.store.occurrences.Keys
  {
    var o := w.stage.occ;
    ConcludeAddsNothing(s, w, o, ToStatus(ReviewRequired), w.stage.after, e);
    UpdateAddsNothing(ObserveTime(s.store, e.raw2), o, SubmissionPatch(s.store, o, e.raw2), w.token, e.raw);
  }

  lemma RepliedAddsNothing(s: System, w: Evaluation, e: Event)
    requires w.Working? && w.stage.Replied? && e.Advance?
    ensures RepliedStep(s, w, e).0.store.occurrences.Keys == s.store.occurrences.Keys
  {
    var Replied(o, _, reply, after) := w.stage;
    match reply
    case Bound(job) => ConcludeAddsNothing(s, w, o, Patch(Submitted, Some(job.id), None, None, 0), after, e);
    case _ => ConcludeAddsNothing(s, w, o, ToStatus(ReviewRequired), after, e);
  }

  lemma WorkAddsNothing(s: System, w: Evaluation, e: Event)
    requires w.Working? && e.Advance? && !w.stage.Unlock? && !w.stage.Throwing? && !w.stage.Window?
    ensures WorkStep(s, w, e).0.store.occurrences.Keys == s.store.occurrences.Keys
  {
    match w.stage
    case Retry(t, pending) =>
      if pending != [] {
        EnterAddsNothing(s, w, pending[0], Retrying(t, pending[1..]), e);
      }
    case Check(_, _, _, _) => CheckAddsNothing(s, w, e);
    case Answered(o, _, _, _, _, after) =>
      ConcludeAddsNothing(s, w, o, ToStatus(ReviewRequired), after, e);
      ConcludeAddsNothing(s, w, o, ToStatus(Skipped), after, e);
    case Replied(_, _, _, _) => RepliedAddsNothing(s, w, e);
    case _ =>
  }

  lemma EnterAddsNothing(s: System, w: Evaluation, o: Occurrence, after: After, e: Event)
    requires w.Working? && e.Advance?
    ensures Enter(s, w, o, after, e).0.store.occurrences.Keys == s.store.occurrences.Keys
  {
  }

  /** What the window step leaves in the store. */
  lemma WindowAdds(s: System, p: Id, e: Event)
    requires Inv(s) && EvaluationOf(s, p).Working? && EvaluationOf(s, p).stage.Window? && e.Advance?
    ensures var (v, t) := (EvaluationOf(s, p), EvaluationOf(s, p).stage.template);
      var s1 := WindowStep(s, v, e).0.store;
      && t.intervalSeconds > 0 && Current(s.store, v.id, t) && t.id == v.id
      && match PlanOf(s.store, t, v.now)
         case ClaimOne(at, status) =>
           && (status == Due || status == ReviewRequired)
           && s1.occurrences == if Slot(t.id, at) in s.store.occurrences then s.store.occurrences
                                else s.store.occurrences[Slot(t.id, at) := FreshOccurrence(t, at, status, v.now)]
         case _ => s1.occurrences == s.store.occurrences
  {
    var v := EvaluationOf(s, p);
    var t := v.stage.template;
    assert EvaluationOk(s.store, s.relay, s.nextToken, v);
    assert TemplateOk(s.store, v.id);
    match PlanOf(s.store, t, v.now)
    case ClaimOne(at, status) =>
      NothingWaits(s.store, t.id);
      var after := Marking(t, Lookup(s.store.checkpoints, t.id));
      ClaimStepResult(s, v, t, at, status, after, e);
      var o := FreshOccurrence(t, at, status, v.now);
      if o.id !in s.store.occurrences {
        EnterFresh(s.(store := Added(s.store, o)), v, o, after, e);
      }
    case _ =>
  }

  lemma EnterFresh(s: System, w: Evaluation, o: Occurrence, after: After, e: Event)
    requires w.Working? && e.Advance? && Lookup(s.store.revisions, (o.id.template, o.templateRevision)) == Some(o.fingerprint)
    ensures Enter(s, w, o, after, e).0 == s
  {
  }

  /** An evaluation looks for due windows of template `t`. */
  predicate Looks(s: System, e: Event, t: Id) {
    e.Advance? && EvaluationOf(s, e.p).Working? && EvaluationOf(s, e.p).stage.Window? && EvaluationOf(s, e.p).stage.template.id == t
  }

  /** Over every run: an event adds an occurrence exactly when an evaluation looks
      for due windows of its template, nothing of the template waits, the slot is
      the newest due instant and is not taken, and the number of due instants
      deserves one. */
  lemma OccurrenceAddedIff(events: seq<Event>, e: Event, k: Slot)
    ensures var (s, s') := (Run(START, events), Step(Run(START, events), e));
      k !in s.store.occurrences ==>
        (k in s'.store.occurrences <==>
           && Looks(s, e, k.template) && !Waiting(s.store, k.template)
           && var (t, now) := (EvaluationOf(s, e.p).stage.template, EvaluationOf(s, e.p).now);
           && t.intervalSeconds > 0 && Newest(t, LastFor(s.store, t.id), now, k.scheduledAt)
           && Deserved(t, LastFor(s.store, t.id), now).Some?)
  {
    RunKeeps(events);
    if k !in Run(START, events).store.occurrences {
      AddedInStep(Run(START, events), e, k);
    }
  }

  lemma AddedInStep(s: System, e: Event, k: Slot)
    requires Inv(s) && k !in s.store.occurrences
    ensures k in Step(s, e).store.occurrences <==>
      && Looks(s, e, k.template) && !Waiting(s.store, k.template)
      && var (t, now) := (EvaluationOf(s, e.p).stage.template, EvaluationOf(s, e.p).now);
      && t.intervalSeconds > 0 && Newest(t, LastFor(s.store, t.id), now, k.scheduledAt)
      && Deserved(t, LastFor(s.store, t.id), now).Some?
  {
    if AtWork(s, e) {
      var v := EvaluationOf(s, e.p);
      BusyStep(s, e);
      if v.stage.Window? {
        WindowAdds(s, e.p, e);
        PlanGives(s.store, v.stage.template, v.now, k.scheduledAt);
      } else {
        WorkAddsNothing(s, v, e);
      }
    } else {
      QuietStep(s, e);
    }
  }

  lemma PlanGives(s: Store, t: Template, now: Time, at: Time)
    requires StoreOk(s) && t.intervalSeconds > 0
    ensures (PlanOf(s, t, now).ClaimOne? && PlanOf(s, t, now).at == at) <==>
      !Waiting(s, t.id) && Newest(t, LastFor(s, t.id), now, at) && Deserved(t, LastFor(s, t.id), now).Some?
  {
    if PlanOf(s, t, now).ClaimOne? {
      PlanMeans(s, t, now, at, PlanOf(s, t, now).status);
    }
    if Deserved(t, LastFor(s, t.id), now).Some? {
      PlanMeans(s, t, now, at, Deserved(t, LastFor(s, t.id), now).value);
    }
  }

  /** And it is added as deserved, from the active revision that was looked at. */
  lemma AddedAsDeserved(events: seq<Event>, e: Event, k: Slot)
    requires var (s, s') := (Run(START, events), Step(Run(START, events), e));
      k !in s.store.occurrences && k in s'.store.occurrences
    ensures var (s, o) := (Run(START, events), Step(Run(START, events), e).store.occurrences[k]);
      && Looks(s, e, k.template)
      && var (t, now) := (EvaluationOf(s, e.p).stage.template, EvaluationOf(s, e.p).now);
      && k.template in s.store.templates && s.store.templates[k.template] == t && t.status == Active && t.intervalSeconds > 0
      && Deserved(t, LastFor(s.store, t.id), now) == Some(o.status)
      && o == Occurrence(k, t.revision, t, o.status, None, 0, None, now, now, 1)
  {
    RunKeeps(events);
    var s := Run(START, events);
    AddedInStep(s, e, k);
    var v := EvaluationOf(s, e.p);
    BusyStep(s, e);
    WindowAdds(s, e.p, e);
    PlanGives(s.store, v.stage.template, v.now, k.scheduledAt);
    PlanMeans(s.store, v.stage.template, v.now, k.scheduledAt, PlanOf(s.store, v.stage.template, v.now).status);
  }
}
