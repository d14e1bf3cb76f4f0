// Accounting for schedule windows: what successive checkpoints consume.

module CalendarWindows {
  import opened Common
  import opened CalendarStore
  import opened CalendarEngine
  import opened CalendarInvariant
  import opened CalendarSafety
  import opened CalendarRuns
  import opened CalendarTheorems

  // ------------------------------------------------------------- arithmetic

  lemma TimesMonotone(x: int, y: int, d: int)
    requires d > 0
    ensures x >= y ==> x * d >= y * d
  {
  }

  lemma FloorBounds(a: int, d: int)
    requires d > 0
    ensures Floor(a, d) * d <= a < (Floor(a, d) + 1) * d == Floor(a, d) * d + d
  {
    assert a == a / d * d + a % d;
  }

  lemma FloorMonotone(a: int, b: int, d: int)
    requires d > 0 && a <= b
    ensures Floor(a, d) <= Floor(b, d)
  {
    TimesMonotone(a / d, b / d + 1, d);
  }

  /** An evaluation holding a `now` no later than the checkpoint consumes nothing. */
  lemma StaleConsumesNothing(anchor: Time, interval: int, last: Time, now: Time)
    requires interval > 0 && now <= last
    ensures DueCount(anchor, interval, Some(last), now) == 0
  {
    FloorMonotone(now - anchor, last - anchor, interval);
  }

  /** It looks, and whatever others do before it moves again, it lets go: store,
      Relay and ledger are as they were. */
  lemma StaleLooksOnly(s: System, w: Evaluation, e: Event, later: System)
    requires w.Working? && w.stage.Window? && e.Advance?
    requires var c := Lookup(s.store.checkpoints, w.stage.template.id); c.Some? && w.now <= c.value.lastEvaluatedAt
    ensures var (s1, next) := WindowStep(s, w, e);
      s1 == s && (next == Unlock || (next.Mark? && MarkStep(later, w.(stage := next)) == (later, Unlock)))
  {
    var t, c := w.stage.template, Lookup(s.store.checkpoints, w.stage.template.id);
    if Interval(t) > 0 {
      StaleConsumesNothing(t.anchor, Interval(t), c.value.lastEvaluatedAt, w.now);
    }
    assert PlanOf(s.store, t, w.now).Wait? || PlanOf(s.store, t, w.now).NothingDue?;
  }

  predicate NotBy(p: Id, events: seq<Event>) {
    forall i :: 0 <= i < |events| && events[i].Advance? ==> events[i].p != p
  }

  lemma {:induction false} Waits(s: System, p: Id, events: seq<Event>)
    requires EvaluationOf(s, p).Working? && NotBy(p, events)
    ensures EvaluationOf(Run(s, events), p) == EvaluationOf(s, p)
    decreases |events|
  {
    if events != [] {
      var front, e := events[..|events| - 1], events[|events| - 1];
      assert forall i :: 0 <= i < |front| ==> front[i] == events[i];
      Waits(s, p, front);
      OthersStay(Run(s, front), e, p);
    }
  }

  lemma OthersStay(s: System, e: Event, p: Id)
    requires EvaluationOf(s, p).Working? && !(e.Advance? && e.p == p)
    ensures EvaluationOf(Step(s, e), p) == EvaluationOf(s, p)
  {
    if AtWork(s, e) {
      BusyStep(s, e);
      WorkLeavesOthers(s, EvaluationOf(s, e.p), e);
    }
  }

  /** Over runs: an evaluation that reads a checkpoint not before its own `now`
      changes nothing but its own progress, in this step and, whatever events of
      others come between, in its next one, after which only the unlock is left. */
  lemma StaleLeavesNoTrace(events: seq<Event>, e: Event, others: seq<Event>, e': Event)
    requires e.Advance? && e'.Advance? && e'.p == e.p && NotBy(e.p, others)
    requires var (s, v) := (Run(START, events), EvaluationOf(Run(START, events), e.p));
      && v.Working? && v.stage.Window?
      && v.stage.template.id in s.store.checkpoints && v.now <= s.store.checkpoints[v.stage.template.id].lastEvaluatedAt
    ensures var (s, v) := (Run(START, events), EvaluationOf(Run(START, events), e.p));
      var (s1, next) := (Step(s, e), EvaluationOf(Step(s, e), e.p).stage);
      var s2 := Run(s1, others);
      && s1 == With(s, e.p, v.(stage := next))
      && EvaluationOf(s2, e.p) == v.(stage := next)
      && (next == Unlock || Step(s2, e') == With(s2, e.p, v.(stage := Unlock)))
  {
    var s := Run(START, events);
    var v := EvaluationOf(s, e.p);
    var s1 := Step(s, e);
    BusyStep(s, e);
    StaleLooksOnly(s, v, e, Run(s1, others));
    Waits(s1, e.p, others);
    if EvaluationOf(s1, e.p).stage != Unlock {
      BusyStep(Run(s1, others), e');
    }
  }

  /** The window that is claimed is the newest one not after `now`, and no
      earlier than the anchor. */
  lemma ClaimedWindow(anchor: Time, interval: int, last: Option<Time>, now: Time)
    requires interval > 0 && DueCount(anchor, interval, last, now) > 0
    ensures var at := anchor + LatestIndex(anchor, interval, now) * interval;
      anchor <= at <= now < at + interval && (last.Some? ==> last.value < at)
  {
    var i := LatestIndex(anchor, interval, now);
    FloorBounds(now - anchor, interval);
    TimesMonotone(i, 0, interval);
    if last.Some? {
      var j := Floor(last.value - anchor, interval);
      FloorBounds(last.value - anchor, interval);
      TimesMonotone(i, j + 1, interval);
    }
  }

  // ------------------------------------------------------------ the ledger

  predicate EntryOk(c: Consumption) {
    && c.interval > 0
    && c.first == FirstIndex(c.anchor, c.interval, c.previous)
    && c.count == DueCount(c.anchor, c.interval, c.previous, c.now)
    && (c.previous.Some? ==> c.previous.value < c.now)
  }

  predicate Follows(log: seq<Consumption>, i: nat)
    requires i < |log|
  {
    && EntryOk(log[i])
    && log[i].previous == if i == 0 then None else Some(log[i - 1].now)
  }

  ghost predicate Chain(log: seq<Consumption>, last: Option<Time>) {
    && (forall i :: 0 <= i < |log| ==> Follows(log, i))
    && last == if log == [] then None else Some(log[|log| - 1].now)
  }

  /** The committed windows of a template form a chain that ends at its checkpoint. */
  ghost predicate LedgerOk(s: System, t: Id) {
    Chain(Consumed(s, t), LastEvaluated(Lookup(s.store.checkpoints, t)))
  }

  lemma Appended(log: seq<Consumption>, last: Option<Time>, c: Consumption)
    requires Chain(log, last) && EntryOk(c) && c.previous == last
    ensures Chain(log + [c], Some(c.now))
  {
    var log' := log + [c];
    forall i | 0 <= i < |log'|
      ensures Follows(log', i)
    {
      assert i < |log| ==> Follows(log, i);
    }
  }

  lemma MarkLedger(s: System, w: Evaluation, t: Id)
    requires w.Working? && w.stage.Mark? && StageOk(s.store, s.relay, w.id, w.stage) && LedgerOk(s, t)
    ensures LedgerOk(MarkStep(s, w).0, t)
  {
    var s1 := MarkStep(s, w).0;
    if s1.consumed != s.consumed && t == w.id {
      var entry := Accounted(w.stage.template, w.stage.checkpoint, w.now);
      Appended(Consumed(s, t), LastEvaluated(Lookup(s.store.checkpoints, t)), entry);
      assert Consumed(s1, t) == Consumed(s, t) + [entry];
    }
  }

  ghost predicate SameLedger(s: System, s': System) {
    s'.store.checkpoints == s.store.checkpoints && s'.consumed == s.consumed
  }

  lemma UpdateCheckpoints(s: Store, o: Occurrence, p: Patch, token: nat, raw: Time)
    ensures Update(s, o, p, token, raw).0.checkpoints == s.checkpoints
  {
  }

  lemma ConcludeCheckpoints(s: System, w: Evaluation, o: Occurrence, p: Patch, after: After, e: Event)
    requires w.Working? && e.Advance?
    ensures SameLedger(s, Conclude(s, w, o, p, after, e).0) && SameLedger(s, Guarded(s, w, o, p, after, e).0)
  {
    UpdateCheckpoints(s.store, o, p, w.token, e.raw);
    UpdateCheckpoints(s.store, o, p, w.token, e.raw2);
    var m := s.(store := Update(s.store, o, p, w.token, e.raw2).0);
    UpdateCheckpoints(m.store, o, ToStatus(ReviewRequired), w.token, e.raw);
  }

  lemma EnterCheckpoints(s: System, w: Evaluation, o: Occurrence, after: After, e: Event)
    requires w.Working? && e.Advance?
    ensures SameLedger(s, Enter(s, w, o, after, e).0)
  {
    ConcludeCheckpoints(s, w, o, ToStatus(ReviewRequired), after, e);
  }

  lemma ClaimCheckpoints(s: System, w: Evaluation, t: Template, at: Time, status: OccurrenceStatus, after: After, e: Event)
    requires w.Working? && e.Advance?
    ensures SameLedger(s, ClaimStep(s, w, t, at, status, after, e).0)
  {
    var (store, d, record) := ClaimOccurrence(s.store, FreshOccurrence(t, at, status, w.now), w.token);
    assert store.checkpoints == s.store.checkpoints;
    if record.Some? {
      EnterCheckpoints(s.(store := store), w, record.value, after, e);
    }
  }

  lemma WindowCheckpoints(s: System, w: Evaluation, e: Event)
    requires w.Working? && w.stage.Window? && e.Advance?
    ensures SameLedger(s, WindowStep(s, w, e).0)
  {
    var t := w.stage.template;
    match PlanOf(s.store, t, w.now)
    case ClaimOne(at, status) => ClaimCheckpoints(s, w, t, at, status, Marking(t, Lookup(s.store.checkpoints, t.id)), e);
    case _ =>
  }

  lemma CheckCheckpoints(s: System, w: Evaluation, e: Event)
    requires w.Working? && w.stage.Check? && e.Advance?
    ensures SameLedger(s, CheckStep(s, w, e).0)
  {
    var o := w.stage.occ;
    ConcludeCheckpoints(s, w, o, ToStatus(ReviewRequired), w.stage.after, e);
    UpdateCheckpoints(ObserveTime(s.store, e.raw2), o, SubmissionPatch(s.store, o, e.raw2), w.token, e.raw);
  }

  lemma WorkCheckpoints(s: System, w: Evaluation, e: Event)
    requires w.Working? && e.Advance? && !w.stage.Unlock? && !w.stage.Throwing? && !w.stage.Mark?
    ensures SameLedger(s, WorkStep(s, w, e).0)
  {
    match w.stage
    case Retry(u, pending) =>
      if pending != [] {
        EnterCheckpoints(s, w, pending[0], Retrying(u, pending[1..]), e);
      }
    case Window(_) => WindowCheckpoints(s, w, e);
    case Check(_, _, _, _) => CheckCheckpoints(s, w, e);
    case Answered(o, _, _, _, _, after) =>
      ConcludeCheckpoints(s, w, o, ToStatus(ReviewRequired), after, e);
      ConcludeCheckpoints(s, w, o, ToStatus(Skipped), after, e);
    case Replied(o, _, reply, after) =>
      ConcludeCheckpoints(s, w, o, ToStatus(ReviewRequired), after, e);
      if reply.Bound? {
        ConcludeCheckpoints(s, w, o, Patch(Submitted, Some(reply.job.id), None, None, 0), after, e);
      }
    case _ =>
  }

  lemma StepLedger(s: System, e: Event, t: Id)
    requires Inv(s) && LedgerOk(s, t)
    ensures LedgerOk(Step(s, e), t)
  {
    if AtWork(s, e) {
      var v := EvaluationOf(s, e.p);
      assert EvaluationOk(s.store, s.relay, s.nextToken, v);
      BusyStep(s, e);
      if v.stage.Mark? {
        MarkLedger(s, v, t);
      } else {
        WorkCheckpoints(s, v, e);
      }
    } else {
      QuietStep(s, e);
    }
  }

  lemma {:induction false} RunLedger(events: seq<Event>, t: Id)
    ensures LedgerOk(Run(START, events), t)
    decreases |events|
  {
    if events == [] {
    } else {
      RunLedger(events[..|events| - 1], t);
      RunKeeps(events[..|events| - 1]);
      StepLedger(Run(START, events[..|events| - 1]), events[|events| - 1], t);
    }
  }

  // ------------------------------------------------------------ the theorem

  function Total(log: seq<Consumption>): nat {
    if log == [] then 0 else Total(log[..|log| - 1]) + log[|log| - 1].count
  }

  ghost predicate SameSchedule(log: seq<Consumption>, anchor: Time, interval: int) {
    forall i :: 0 <= i < |log| ==> log[i].anchor == anchor && log[i].interval == interval
  }

  /** The index after the last window due at the entry's `now`. */
  function EndOf(c: Consumption): nat
    requires c.interval > 0
  {
    Max(0, Floor(c.now - c.anchor, c.interval) + 1)
  }

  /** Where one entry's windows end is where the next ones begin. */
  lemma EntryEnds(c: Consumption)
    requires EntryOk(c)
    ensures c.first + c.count == EndOf(c)
  {
    if c.previous.Some? {
      FloorMonotone(c.previous.value - c.anchor, c.now - c.anchor, c.interval);
    }
  }

  ghost predicate Contiguous(log: seq<Consumption>) {
    forall i :: 0 <= i < |log| ==>
      log[i].interval > 0 && log[i].first + log[i].count == EndOf(log[i])
      && log[i].first == if i == 0 then 0 else log[i - 1].first + log[i - 1].count
  }

  lemma LedgerContiguous(log: seq<Consumption>, anchor: Time, interval: int)
    requires forall i :: 0 <= i < |log| ==> Follows(log, i)
    requires SameSchedule(log, anchor, interval)
    ensures Contiguous(log)
  {
    forall i | 0 <= i < |log|
      ensures log[i].interval > 0 && log[i].first + log[i].count == EndOf(log[i])
      ensures log[i].first == if i == 0 then 0 else log[i - 1].first + log[i - 1].count
    {
      assert Follows(log, i);
      EntryEnds(log[i]);
      if i > 0 {
        assert Follows(log, i - 1);
        PairContiguous(log, i - 1);
      }
    }
  }

  lemma {:induction false} ContiguousTotal(log: seq<Consumption>)
    requires Contiguous(log)
    ensures log != [] ==> Total(log) == EndOf(log[|log| - 1])
    decreases |log|
  {
    if log == [] {
    } else {
      var n := |log| - 1;
      var last := log[n];
      ContiguousTotal(log[..n]);
      assert last.first + last.count == EndOf(last);
      if n > 0 {
        assert log[..n][n - 1] == log[n - 1];
        assert log[n - 1].first + log[n - 1].count == EndOf(log[n - 1]);
        assert last.first == log[n - 1].first + log[n - 1].count;
      }
    }
  }

  lemma ContiguousFirst(log: seq<Consumption>, i: nat)
    requires Contiguous(log) && i < |log|
    ensures log[i].first == Total(log[..i])
  {
    ContiguousTotal(log[..i]);
    if i == 0 {
      assert log[..i] == [];
    } else {
      assert log[..i][i - 1] == log[i - 1];
      assert log[i].first == EndOf(log[i - 1]);
    }
  }

  lemma ContiguousTotals(log: seq<Consumption>)
    requires Contiguous(log)
    ensures forall i :: 0 <= i < |log| ==> log[i].first == Total(log[..i])
    ensures Total(log) == if log == [] then 0 else EndOf(log[|log| - 1])
  {
    ContiguousTotal(log);
    forall i | 0 <= i < |log|
      ensures log[i].first == Total(log[..i])
    {
      ContiguousFirst(log, i);
    }
  }

  /** The windows of a schedule due by an instant, from the anchor on. */
  function DueUpTo(anchor: Time, interval: int, last: Option<Time>): nat
    requires interval > 0
  {
    if last.None? then 0 else Max(0, Floor(last.value - anchor, interval) + 1)
  }

  lemma ChainTotals(log: seq<Consumption>, last: Option<Time>, anchor: Time, interval: int)
    requires Chain(log, last) && SameSchedule(log, anchor, interval) && interval > 0
    ensures forall i :: 0 <= i < |log| ==> log[i].first == Total(log[..i])
    ensures Total(log) == DueUpTo(anchor, interval, last)
  {
    LedgerContiguous(log, anchor, interval);
    ContiguousTotals(log);
  }

  /** For a template whose schedule never changed, the windows consumed by
      successive checkpoints are contiguous from the anchor and disjoint, and
      their number is exactly the windows due at the last checkpoint. */
  lemma WindowsConserved(events: seq<Event>, t: Id, anchor: Time, interval: int)
    requires SameSchedule(Consumed(Run(START, events), t), anchor, interval) && interval > 0
    ensures var s := Run(START, events);
      var log := Consumed(s, t);
      var last := LastEvaluated(Lookup(s.store.checkpoints, t));
      && (forall i :: 0 <= i < |log| ==> log[i].first == Total(log[..i]))
      && Total(log) == DueUpTo(anchor, interval, last)
  {
    RunLedger(events, t);
    var s := Run(START, events);
    ChainTotals(Consumed(s, t), LastEvaluated(Lookup(s.store.checkpoints, t)), anchor, interval);
  }

  /** Across schedule edits: whenever two neighbouring entries share a schedule,
      the second begins where the first ended. */
  lemma NeighboursContiguous(events: seq<Event>, t: Id, i: nat)
    requires var log := Consumed(Run(START, events), t);
      i + 1 < |log| && log[i].anchor == log[i + 1].anchor && log[i].interval == log[i + 1].interval
    ensures var log := Consumed(Run(START, events), t);
      log[i + 1].first == log[i].first + log[i].count && log[i].now < log[i + 1].now
  {
    RunLedger(events, t);
    PairContiguous(Consumed(Run(START, events), t), i);
  }

  lemma PairContiguous(log: seq<Consumption>, i: nat)
    requires i + 1 < |log| && Follows(log, i) && Follows(log, i + 1)
    requires log[i].anchor == log[i + 1].anchor && log[i].interval == log[i + 1].interval
    ensures log[i + 1].first == log[i].first + log[i].count && log[i].now < log[i + 1].now
  {
    EntryEnds(log[i]);
    assert FirstIndex(log[i + 1].anchor, log[i + 1].interval, Some(log[i].now)) == EndOf(log[i]);
  }
}
