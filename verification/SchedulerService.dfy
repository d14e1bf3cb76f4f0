// The Scheduler service: trusted time, the issuance table and the two stages
// of a start, evaluate-and-reserve and confirm.

module SchedulerService {
  import opened Common
  import Eligibility
  import Store = SchedulerStore

  // ----------------------------------------------------------- trusted time

  /** The clamp: never earlier than the latest time already observed. */
  function Trusted(last: Option<Time>, raw: Time): Time {
    if last.Some? then Max(last.value, raw) else raw
  }

  class TrustedClock {
    var last: Option<Time>
    var rollbacks: nat

    constructor ()
      ensures last == None && rollbacks == 0
    {
      last, rollbacks := None, 0;
    }

    method Now(raw: Time) returns (now: Time)
      modifies this
      ensures now == Trusted(old(last), raw) && last == Some(now)
      ensures rollbacks == old(rollbacks) + if now > raw then 1 else 0
    {
      if last.Some? && raw < last.value {
        rollbacks := rollbacks + 1;
        return last.value;
      }
      last := Some(raw);
      return raw;
    }
  }

  // --------------------------------------------------------------- records

  const LEASE: int := 5 * 60 * 1000

  /** What stage 1 remembers of an evaluation. The requirement hash is
      injective, so the requirement itself stands for it. */
  datatype Issuance = Issuance(
    job: Id, decision: Eligibility.Decision, reason: Eligibility.Reason, resource: Id,
    consumed: bool, requirement: Option<Eligibility.Requirement>, issuedAt: Time)

  type Traces = map<Id, Issuance>

  /** An evaluation as a caller hands it back: nothing in it is trusted. */
  datatype Echo = Echo(id: Id, decision: Eligibility.Decision, reason: Eligibility.Reason, job: Id, resource: Id)

  datatype Scheduler = Scheduler(clock: Option<Time>, reservations: Store.Reservations, traces: Traces)

  const EMPTY := Scheduler(None, map[], map[])

  datatype Outcome = Granted(reservation: Store.Reservation) | Waiting | Refused

  function Limit(i: Issuance): int {
    if i.consumed then LEASE * 2 else LEASE
  }

  function Evicted(traces: Traces, now: Time): Traces {
    map id | id in traces && now - traces[id].issuedAt <= Limit(traces[id]) :: traces[id]
  }

  function Recorded(traces: Traces, id: Id, entry: Issuance): Traces {
    Evicted(traces[id := entry], entry.issuedAt)
  }

  // ------------------------------------------------------ what calls mean

  function Ticked(s: Scheduler, raw: Time): Scheduler {
    s.(clock := Some(Trusted(s.clock, raw)))
  }

  function Evaluated(s: Scheduler, id: Id, job: Id, decision: Eligibility.Decision, reason: Eligibility.Reason,
                     resource: Id, requirement: Option<Eligibility.Requirement>, raw: Time): Scheduler {
    var now := Trusted(s.clock, raw);
    Ticked(s, raw).(traces := Recorded(s.traces, id, Issuance(job, decision, reason, resource, false, requirement, now)))
  }

  predicate Issued(s: Scheduler, e: Echo) {
    && e.id in s.traces
    && var i := s.traces[e.id];
    !i.consumed && i.job == e.job && i.decision == e.decision && i.reason == e.reason && i.resource == e.resource
  }

  function NewLease(id: Id, e: Echo, execution: Option<Id>, now: Time): Store.Reservation {
    Store.Reservation(id, Store.Active, 1, now, Some(now), e.job, execution, e.resource, e.id, Some(now + LEASE))
  }

  function Reserved(s: Scheduler, e: Echo, job: Id, execution: Option<Id>, resource: Option<Id>, id: Id, raw: Time): (Scheduler, Outcome) {
    if e.decision != Eligibility.Eligible || e.reason != Eligibility.EligibleNow then (s, Refused)
    else if !Issued(s, e) || job != e.job || (resource.Some? && resource.value != e.resource) then (s, Refused)
    else
      var now := Trusted(s.clock, raw);
      var s1 := Ticked(s, raw);
      if now - s.traces[e.id].issuedAt > LEASE then (s1, Refused)
      else
        var lease := NewLease(id, e, execution, now);
        var (m, d) := Store.ReserveIn(s.reservations, lease, Some(now));
        if d != Store.Reserved then (s1.(reservations := m), Waiting)
        else (s1.(reservations := m, traces := s.traces[e.id := s.traces[e.id].(consumed := true)]), Granted(lease))
  }

  function Read(s: Scheduler, id: Id, raw: Time): (Scheduler, Option<Store.Reservation>) {
    var now := Trusted(s.clock, raw);
    var (m, r) := Store.CurrentIn(s.reservations, id, Some(now));
    (Ticked(s, raw).(reservations := m), r)
  }

  function ReleaseDone(s: Scheduler, id: Id, expected: Option<nat>, raw: Time, raw2: Time): (Scheduler, bool) {
    var s1 := Read(s, id, raw).0;
    var now := Trusted(s1.clock, raw2);
    var (m, d) := Store.TransitionIn(s1.reservations, id, Store.Released, Some(now), expected);
    (Ticked(s1, raw2).(reservations := m), d == Store.Updated)
  }

  /** What `confirmExecutionStart` holds across its await. */
  datatype Ticket = Ticket(now: Time, reservation: Option<Store.Reservation>)

  /** The job as Relay reports it after the await. */
  datatype JobView = JobView(accepted: bool, revision: nat, facts: Eligibility.Job)

  /** `org` is what the inputs are composed from, and nothing when composing them
      throws. */
  predicate Confirms(s: Scheduler, t: Ticket, jobId: Id, view: Option<JobView>, expectedRevision: nat,
                     req: Eligibility.Requirement, environment: Id, clock: Time, org: Option<Eligibility.Organization>) {
    && view.Some? && view.value.accepted && view.value.revision == expectedRevision
    && t.reservation.Some?
    && var r := t.reservation.value;
    && r.state == Store.Active && (r.expiresAt.None? || t.now < r.expiresAt.value) && r.job == jobId
    && r.eligibility in s.traces
    && s.traces[r.eligibility].job == jobId && s.traces[r.eligibility].requirement == Some(req)
    && req.resource == r.resource && org.Some?
    && Eligibility.Evaluate(environment, clock, clock, view.value.facts, req, org.value).0 == Eligibility.Eligible
  }

  // ---------------------------------------------------------------- class

  class SchedulerService {
    const environment: Id
    const clock: TrustedClock
    const store: Store.SimulatorSchedulerStore
    var traces: Traces

    ghost predicate Valid()
      reads this, store
    {
      store.Valid()
    }

    function Contents(): Scheduler
      reads this, clock, store
    {
      Scheduler(clock.last, store.reservations, traces)
    }

    constructor (environment: Id)
      ensures Valid() && Contents() == EMPTY && fresh(clock) && fresh(store)
    {
      this.environment := environment;
      clock := new TrustedClock();
      store := new Store.SimulatorSchedulerStore();
      traces := map[];
    }

    /** The eviction loop runs over the table while deleting from it. */
    method RecordIssuance(id: Id, entry: Issuance)
      modifies this`traces
      ensures traces == Recorded(old(traces), id, entry)
    {
      traces := traces[id := entry];
      ghost var full := traces;
      var pending := traces.Keys;
      while pending != {}
        invariant pending <= full.Keys
        invariant traces == map k | k in full && (k in pending || entry.issuedAt - full[k].issuedAt <= Limit(full[k])) :: full[k]
        decreases pending
      {
        var key :| key in pending;
        var candidate := traces[key];
        var age := entry.issuedAt - candidate.issuedAt;
        var limit := if candidate.consumed then LEASE * 2 else LEASE;
        if age > limit {
          traces := traces - {key};
        }
        pending := pending - {key};
      }
    }

    /** Stage 1, once the job has been read. `id` is the next event id; a job
        that could not be read, or inputs that threw, are recorded too. */
    method Evaluate(id: Id, jobId: Id, job: Option<Eligibility.Job>, req: Option<Eligibility.Requirement>,
                    org: Option<Eligibility.Organization>, fallback: Id, raw: Time, raw2: Time)
      returns (decision: Eligibility.Decision, reason: Eligibility.Reason)
      requires Valid()
      modifies this, clock
      ensures Valid()
      ensures job.None? || req.None? ==> (decision, reason) == (Eligibility.Deny, Eligibility.DenyInputInvalid)
      ensures job.Some? && req.Some? && org.None? ==> (decision, reason) == (Eligibility.Wait, Eligibility.WaitDependency)
      ensures job.Some? && req.Some? && org.Some? ==>
        (decision, reason) == Eligibility.Evaluate(environment, Trusted(old(clock.last), raw), Trusted(old(clock.last), raw), job.value, req.value, org.value)
      ensures var judged := job.Some? && req.Some? && org.Some?;
        Contents() == Evaluated(Ticked(old(Contents()), raw), id, jobId, decision, reason,
                                if judged then req.value.resource else fallback, if judged then req else None, raw2)
    {
      var now := clock.Now(raw);
      var resource, requirement := fallback, None;
      if job.None? || req.None? {
        decision, reason := Eligibility.Deny, Eligibility.DenyInputInvalid;
      } else if org.None? {
        decision, reason := Eligibility.Wait, Eligibility.WaitDependency;
      } else {
        var (d, r) := Eligibility.Evaluate(environment, now, now, job.value, req.value, org.value);
        decision, reason, resource, requirement := d, r, req.value.resource, req;
      }
      var issuedAt := clock.Now(raw2);
      RecordIssuance(id, Issuance(jobId, decision, reason, resource, false, requirement, issuedAt));
    }

    method Reserve(e: Echo, job: Id, execution: Option<Id>, resource: Option<Id>, id: Id, raw: Time) returns (outcome: Outcome)
      requires Valid()
      modifies this, clock, store
      ensures Valid() && (Contents(), outcome) == Reserved(old(Contents()), e, job, execution, resource, id, raw)
    {
      if e.decision != Eligibility.Eligible || e.reason != Eligibility.EligibleNow {
        return Refused;
      }
      if e.id !in traces {
        return Refused;
      }
      var issued := traces[e.id];
      if issued.consumed || issued.job != e.job || issued.decision != e.decision
        || issued.reason != e.reason || issued.resource != e.resource {
        return Refused;
      }
      if job != e.job || (resource.Some? && resource.value != e.resource) {
        return Refused;
      }
      var now := clock.Now(raw);
      if now - issued.issuedAt > LEASE {
        return Refused;
      }
      var lease := NewLease(id, e, execution, now);
      var d, _ := store.Reserve(lease, Some(now));
      if d != Store.Reserved {
        return Waiting;
      }
      traces := traces[e.id := issued.(consumed := true)];
      return Granted(lease);
    }

    method Release(id: Id, expected: Option<nat>, raw: Time, raw2: Time) returns (released: bool)
      requires Valid()
      modifies clock, store
      ensures Valid() && (Contents(), released) == ReleaseDone(old(Contents()), id, expected, raw, raw2)
    {
      var now := clock.Now(raw);
      var _ := store.Current(id, Some(now));
      now := clock.Now(raw2);
      var d := store.Transition(id, Store.Released, Some(now), expected);
      released := d == Store.Updated;
    }

    /** Stage 2 up to its await: the reservation is read here and not again. */
    method BeginConfirm(id: Id, raw: Time) returns (ticket: Ticket)
      requires Valid()
      modifies clock, store
      ensures Valid() && Contents() == Read(old(Contents()), id, raw).0
      ensures ticket == Ticket(Trusted(old(clock.last), raw), Read(old(Contents()), id, raw).1)
    {
      var now := clock.Now(raw);
      var r := store.Current(id, Some(now));
      ticket := Ticket(now, r);
    }

    /** Stage 2 after the await, refusal by refusal. */
    method FinishConfirm(t: Ticket, jobId: Id, view: Option<JobView>, expectedRevision: nat,
                         req: Eligibility.Requirement, org: Option<Eligibility.Organization>, raw: Time) returns (confirmed: bool)
      requires Valid()
      modifies clock
      ensures Valid()
      ensures confirmed <==> Confirms(old(Contents()), t, jobId, view, expectedRevision, req, environment, Trusted(old(clock.last), raw), org)
      ensures Contents() == old(Contents()) || Contents() == Ticked(old(Contents()), raw)
    {
      if view.None? || !view.value.accepted || view.value.revision != expectedRevision {
        return false;
      }
      if t.reservation.None? || t.reservation.value.state != Store.Active {
        return false;
      }
      var r := t.reservation.value;
      if (r.expiresAt.Some? && t.now >= r.expiresAt.value) || r.job != jobId {
        return false;
      }
      if r.eligibility !in traces || traces[r.eligibility].job != jobId || traces[r.eligibility].requirement != Some(req) {
        return false;
      }
      if req.resource != r.resource || org.None? {
        return false;
      }
      var now := clock.Now(raw);
      var (decision, _) := Eligibility.Evaluate(environment, now, now, view.value.facts, req, org.value);
      confirmed := decision == Eligibility.Eligible;
    }
  }

  // ------------------------------------------------------------------ runs

  datatype Event =
    | Evaluates(id: Id, job: Id, decision: Eligibility.Decision, reason: Eligibility.Reason, resource: Id,
                requirement: Option<Eligibility.Requirement>, raw: Time)
    | Reserves(echo: Echo, job: Id, execution: Option<Id>, resource_: Option<Id>, reservation: Id, raw: Time)
    | Releases(reservation: Id, expected: Option<nat>, raw: Time, raw2: Time)
    | Reads(reservation: Id, raw: Time)
    | Ticks(raw: Time)

  function Step(s: Scheduler, e: Event): Scheduler {
    match e
    case Evaluates(id, job, decision, reason, resource, requirement, raw) =>
      Evaluated(s, id, job, decision, reason, resource, requirement, raw)
    case Reserves(echo, job, execution, resource, id, raw) => Reserved(s, echo, job, execution, resource, id, raw).0
    case Releases(id, expected, raw, raw2) => ReleaseDone(s, id, expected, raw, raw2).0
    case Reads(id, raw) => Read(s, id, raw).0
    case Ticks(raw) => Ticked(s, raw)
  }

  function Run(s: Scheduler, events: seq<Event>): Scheduler
    decreases |events|
  {
    if events == [] then s else Step(Run(s, events[..|events| - 1]), events[|events| - 1])
  }

  /** The id source never repeats an eligibility id. */
  ghost predicate FreshIds(events: seq<Event>) {
    forall i, j :: 0 <= i < j < |events| && events[i].Evaluates? && events[j].Evaluates? ==> events[i].id != events[j].id
  }

  ghost function IssuedIds(events: seq<Event>): set<Id> {
    set e | e in events && e.Evaluates? :: e.id
  }

  predicate Backed(r: Store.Reservation, i: Issuance) {
    && i.consumed && i.decision == Eligibility.Eligible && i.job == r.job && i.resource == r.resource
    && i.issuedAt <= r.createdAt <= i.issuedAt + LEASE
  }

  predicate Live(r: Store.Reservation, clock: Option<Time>) {
    r.state == Store.Active && r.expiresAt.Some? && (clock.Some? ==> clock.value < r.expiresAt.value)
  }

  ghost predicate LeaseOk(s: Scheduler, r: Store.Reservation) {
    && (r.eligibility in s.traces ==> Backed(r, s.traces[r.eligibility]))
    && (Live(r, s.clock) ==> r.eligibility in s.traces)
    && (r.state == Store.Active ==> r.expiresAt == Some(r.createdAt + LEASE))
    && s.clock.Some? && r.createdAt <= s.clock.value
  }

  ghost predicate Inv(s: Scheduler, issued: set<Id>) {
    && Store.StoreOk(s.reservations)
    && s.traces.Keys <= issued
    && (forall id :: id in s.traces ==> s.clock.Some? && s.traces[id].issuedAt <= s.clock.value)
    && (forall id {:trigger LeaseOk(s, s.reservations[id])} :: id in s.reservations ==>
         LeaseOk(s, s.reservations[id]) && s.reservations[id].eligibility in issued)
    && (forall a, b :: a in s.reservations && b in s.reservations && a != b ==>
         s.reservations[a].eligibility != s.reservations[b].eligibility)
  }

  /** Store calls and the passing of time keep the invariant. */
  lemma StoreMoves(s: Scheduler, issued: set<Id>, m: Store.Reservations, clock: Time)
    requires Inv(s, issued) && Store.StoreOk(m) && Store.Evolves(s.reservations, m) && m.Keys == s.reservations.Keys
    requires s.clock.Some? ==> s.clock.value <= clock
    ensures Inv(s.(clock := Some(clock), reservations := m), issued)
  {
    var s' := s.(clock := Some(clock), reservations := m);
    forall id {:trigger LeaseOk(s', m[id])} | id in m
      ensures LeaseOk(s', m[id]) && m[id].eligibility in issued
    {
      assert LeaseOk(s, s.reservations[id]);
      assert Store.Follows(s.reservations[id], m[id]);
    }
    forall a, b | a in m && b in m && a != b
      ensures m[a].eligibility != m[b].eligibility
    {
      assert Store.Follows(s.reservations[a], m[a]) && Store.Follows(s.reservations[b], m[b]);
    }
  }

  lemma EvaluatedKeeps(s: Scheduler, issued: set<Id>, id: Id, entry: Issuance, clock: Time)
    requires Inv(s, issued) && id !in issued && !entry.consumed && entry.issuedAt == clock
    requires s.clock.Some? ==> s.clock.value <= clock
    ensures Inv(s.(clock := Some(clock), traces := Recorded(s.traces, id, entry)), issued + {id})
  {
    var s' := s.(clock := Some(clock), traces := Recorded(s.traces, id, entry));
    forall k {:trigger LeaseOk(s', s'.reservations[k])} | k in s'.reservations
      ensures LeaseOk(s', s'.reservations[k]) && s'.reservations[k].eligibility in issued + {id}
    {
      var r := s.reservations[k];
      assert LeaseOk(s, r) && r.eligibility != id;
    }
  }

  lemma GrantKeeps(s: Scheduler, issued: set<Id>, e: Echo, execution: Option<Id>, id: Id, now: Time)
    requires Inv(s, issued) && Issued(s, e) && e.decision == Eligibility.Eligible
    requires s.clock.Some? ==> s.clock.value <= now
    requires now - s.traces[e.id].issuedAt <= LEASE
    requires Store.ReserveIn(s.reservations, NewLease(id, e, execution, now), Some(now)).1 == Store.Reserved
    ensures var m := Store.ReserveIn(s.reservations, NewLease(id, e, execution, now), Some(now)).0;
      Inv(s.(clock := Some(now), reservations := m, traces := s.traces[e.id := s.traces[e.id].(consumed := true)]), issued)
  {
    var lease := NewLease(id, e, execution, now);
    var m := Store.ReserveIn(s.reservations, lease, Some(now)).0;
    Store.ReserveKeeps(s.reservations, lease, Some(now));
    var old_ := Store.ExpireResource(s.reservations, lease.resource, Some(now));
    Store.ExpireResourceKeeps(s.reservations, lease.resource, Some(now));
    StoreMoves(s, issued, old_, now);
    var s1 := s.(clock := Some(now), reservations := old_);
    var s' := s.(clock := Some(now), reservations := m, traces := s.traces[e.id := s.traces[e.id].(consumed := true)]);
    assert m == old_[id := lease] && id !in old_;
    assert s'.traces.Keys == s.traces.Keys;
    assert forall k :: k in s'.traces ==> s'.traces[k].issuedAt == s.traces[k].issuedAt;
    forall k | k in old_
      ensures old_[k].eligibility != e.id
    {
      assert LeaseOk(s1, old_[k]);
    }
    forall k {:trigger LeaseOk(s', m[k])} | k in m
      ensures LeaseOk(s', m[k]) && m[k].eligibility in issued
    {
      if k != id {
        assert LeaseOk(s1, old_[k]);
        assert old_[k].eligibility != e.id;
      } else {
        assert Backed(lease, s'.traces[e.id]);
        assert LeaseOk(s', lease);
      }
    }
    forall a, b | a in m && b in m && a != b
      ensures m[a].eligibility != m[b].eligibility
    {
      assert a != id && b != id ==> s1.reservations[a].eligibility != s1.reservations[b].eligibility;
    }
    assert Inv(s', issued);
  }

  lemma ReservedKeeps(s: Scheduler, issued: set<Id>, e: Echo, job: Id, execution: Option<Id>, resource: Option<Id>, id: Id, raw: Time)
    requires Inv(s, issued)
    ensures Inv(Reserved(s, e, job, execution, resource, id, raw).0, issued)
  {
    var now := Trusted(s.clock, raw);
    var (s', outcome) := Reserved(s, e, job, execution, resource, id, raw);
    if outcome.Granted? {
      GrantKeeps(s, issued, e, execution, id, now);
    } else if s' != s {
      var lease := NewLease(id, e, execution, now);
      Store.ReserveKeeps(s.reservations, lease, Some(now));
      Store.ForwardKeeps(s.reservations, s.reservations);
      StoreMoves(s, issued, s'.reservations, now);
    }
  }

  lemma ReleasesKeep(s: Scheduler, issued: set<Id>, id: Id, expected: Option<nat>, raw: Time, raw2: Time)
    requires Inv(s, issued)
    ensures Inv(ReleaseDone(s, id, expected, raw, raw2).0, issued)
  {
    var now := Trusted(s.clock, raw);
    Store.CurrentKeeps(s.reservations, id, Some(now));
    var s1 := Read(s, id, raw).0;
    StoreMoves(s, issued, s1.reservations, now);
    var now2 := Trusted(s1.clock, raw2);
    Store.TransitionKeeps(s1.reservations, id, Store.Released, Some(now2), expected);
    StoreMoves(s1, issued, Store.TransitionIn(s1.reservations, id, Store.Released, Some(now2), expected).0, now2);
  }

  lemma StepKeeps(s: Scheduler, issued: set<Id>, e: Event)
    requires Inv(s, issued) && (e.Evaluates? ==> e.id !in issued)
    ensures Inv(Step(s, e), if e.Evaluates? then issued + {e.id} else issued)
  {
    match e
    case Evaluates(id, job, decision, reason, resource, requirement, raw) =>
      var now := Trusted(s.clock, raw);
      EvaluatedKeeps(s, issued, id, Issuance(job, decision, reason, resource, false, requirement, now), now);
    case Reserves(echo, job, execution, resource, id, raw) => ReservedKeeps(s, issued, echo, job, execution, resource, id, raw);
    case Releases(id, expected, raw, raw2) =>
      ReleasesKeep(s, issued, id, expected, raw, raw2);
    case Reads(id, raw) =>
      var now := Trusted(s.clock, raw);
      Store.CurrentKeeps(s.reservations, id, Some(now));
      StoreMoves(s, issued, Store.CurrentIn(s.reservations, id, Some(now)).0, now);
    case Ticks(raw) =>
      Store.ForwardKeeps(s.reservations, s.reservations);
      StoreMoves(s, issued, s.reservations, Trusted(s.clock, raw));
  }

  lemma {:induction false} RunKeeps(events: seq<Event>)
    requires FreshIds(events)
    ensures Inv(Run(EMPTY, events), IssuedIds(events))
    decreases |events|
  {
    if events != [] {
      var before, e := events[..|events| - 1], events[|events| - 1];
      assert events == before + [e];
      RunKeeps(before);
      assert IssuedIds(events) == if e.Evaluates? then IssuedIds(before) + {e.id} else IssuedIds(before);
      StepKeeps(Run(EMPTY, before), IssuedIds(before), e);
    }
  }

  /** While a reservation is ACTIVE and unexpired at trusted time, the issuance
      it came from is still in the table, consumed, ELIGIBLE, and for the same
      job and resource: eviction never outruns a live lease. */
  lemma LiveLeaseKeepsIssuance(events: seq<Event>, id: Id)
    requires FreshIds(events) && id in Run(EMPTY, events).reservations
    requires Live(Run(EMPTY, events).reservations[id], Run(EMPTY, events).clock)
    ensures var s := Run(EMPTY, events);
      var r := s.reservations[id];
      r.eligibility in s.traces && Backed(r, s.traces[r.eligibility])
  {
    RunKeeps(events);
    var s := Run(EMPTY, events);
    assert LeaseOk(s, s.reservations[id]);
  }

  /** No evaluation ever produces two reservations. */
  lemma OneReservationPerEvaluation(events: seq<Event>, a: Id, b: Id)
    requires FreshIds(events)
    requires var m := Run(EMPTY, events).reservations; a in m && b in m && m[a].eligibility == m[b].eligibility
    ensures a == b
  {
    RunKeeps(events);
  }

  // ------------------------------------------------------------ stage two

  lemma {:induction false} RunEvolves(s: Scheduler, events: seq<Event>)
    requires Store.StoreOk(s.reservations)
    ensures Store.StoreOk(Run(s, events).reservations) && Store.Evolves(s.reservations, Run(s, events).reservations)
    decreases |events|
  {
    if events == [] {
      Store.ForwardKeeps(s.reservations, s.reservations);
    } else {
      var before, e := events[..|events| - 1], events[|events| - 1];
      RunEvolves(s, before);
      StepEvolves(Run(s, before), e);
    }
  }

  lemma StepEvolves(s: Scheduler, e: Event)
    requires Store.StoreOk(s.reservations)
    ensures Store.StoreOk(Step(s, e).reservations) && Store.Evolves(s.reservations, Step(s, e).reservations)
  {
    Store.ForwardKeeps(s.reservations, s.reservations);
    match e
    case Reserves(echo, job, execution, resource, id, raw) =>
      Store.ReserveKeeps(s.reservations, NewLease(id, echo, execution, Trusted(s.clock, raw)), Some(Trusted(s.clock, raw)));
    case Releases(id, expected, raw, raw2) =>
      var s1 := Read(s, id, raw).0;
      Store.CurrentKeeps(s.reservations, id, Some(Trusted(s.clock, raw)));
      Store.TransitionKeeps(s1.reservations, id, Store.Released, Some(Trusted(s1.clock, raw2)), expected);
    case Reads(id, raw) => Store.CurrentKeeps(s.reservations, id, Some(Trusted(s.clock, raw)));
    case _ =>
  }

  lemma {:induction false} RunJoins(s: Scheduler, a: seq<Event>, b: seq<Event>)
    ensures Run(s, a + b) == Run(Run(s, a), b)
    decreases |b|
  {
    if b == [] {
      assert a + b == a;
    } else {
      RunJoins(s, a, b[..|b| - 1]);
      assert (a + b)[..|a + b| - 1] == a + b[..|b| - 1];
    }
  }

  /** A confirmed start: whatever ran between the read and the re-check, the
      reservation was ACTIVE and unexpired at the read, and the requirement
      confirmed is the very one that stage 1 found ELIGIBLE for that job and
      resource when it produced this reservation. */
  lemma ConfirmedMeansAssessed(events: seq<Event>, id: Id, raw: Time, more: seq<Event>,
                               jobId: Id, view: Option<JobView>, expectedRevision: nat,
                               req: Eligibility.Requirement, environment: Id, clock: Time, org: Option<Eligibility.Organization>)
    requires FreshIds(events + [Reads(id, raw)] + more)
    requires var s := Run(EMPTY, events);
      var t := Ticket(Trusted(s.clock, raw), Read(s, id, raw).1);
      Confirms(Run(Read(s, id, raw).0, more), t, jobId, view, expectedRevision, req, environment, clock, org)
    ensures var s0 := Read(Run(EMPTY, events), id, raw).0;
      var s1 := Run(s0, more);
      && id in s0.reservations && Live(s0.reservations[id], s0.clock)
      && s0.reservations[id].job == jobId && s0.reservations[id].resource == req.resource
      && var e := s0.reservations[id].eligibility;
      e in s1.traces && Backed(s0.reservations[id], s1.traces[e]) && s1.traces[e].requirement == Some(req)
  {
    var all := events + [Reads(id, raw)];
    RunKeeps(all + more);
    assert all[..|all| - 1] == events;
    RunJoins(EMPTY, all, more);
    FreshPrefix(all, more);
    RunKeeps(all);
    var s0 := Run(EMPTY, all);
    assert s0 == Read(Run(EMPTY, events), id, raw).0;
    var s1 := Run(s0, more);
    RunEvolves(s0, more);
    assert LeaseOk(s0, s0.reservations[id]);
    assert LeaseOk(s1, s1.reservations[id]);
    assert Store.Follows(s0.reservations[id], s1.reservations[id]);
  }

  lemma FreshPrefix(a: seq<Event>, b: seq<Event>)
    requires FreshIds(a + b)
    ensures FreshIds(a)
  {
    forall i, j | 0 <= i < j < |a| && a[i].Evaluates? && a[j].Evaluates?
      ensures a[i].id != a[j].id
    {
      assert (a + b)[i] == a[i] && (a + b)[j] == a[j];
    }
  }

  /** The lease itself is only known to hold at the read. It still holds later
      exactly when no other call has touched the record and its time has not
      come; this is decidable from the record's revision and expiry alone. */
  lemma StillHeldIff(s: Scheduler, more: seq<Event>, id: Id)
    requires Store.StoreOk(s.reservations) && id in s.reservations && s.reservations[id].state == Store.Active
    ensures var s1 := Run(s, more);
      id in s1.reservations
      && (Live(s1.reservations[id], s1.clock) <==>
            && s1.reservations[id].revision == s.reservations[id].revision
            && (s1.clock.Some? ==> s1.clock.value < s.reservations[id].expiresAt.value))
  {
    RunEvolves(s, more);
    assert Store.Follows(s.reservations[id], Run(s, more).reservations[id]);
  }

  /** A short run: evaluation 1 is issued and reserved as lease 2 at time 0. */
  function ShortRun(job: Id, req: Eligibility.Requirement): seq<Event> {
    [Evaluates(1, job, Eligibility.Eligible, Eligibility.EligibleNow, req.resource, Some(req), 0),
     Reserves(Echo(1, Eligibility.Eligible, Eligibility.EligibleNow, job, req.resource), job, None, None, 2, 0)]
  }

  lemma ShortRunState(job: Id, req: Eligibility.Requirement)
    ensures var lease := NewLease(2, Echo(1, Eligibility.Eligible, Eligibility.EligibleNow, job, req.resource), None, 0);
      Run(EMPTY, ShortRun(job, req)) ==
        Scheduler(Some(0), map[2 := lease], map[1 := Issuance(job, Eligibility.Eligible, Eligibility.EligibleNow, req.resource, true, Some(req), 0)])
  {
    var events := ShortRun(job, req);
    assert events[..1] == [events[0]] && [events[0]][..0] == [];
    var s1 := Step(EMPTY, events[0]);
    assert Run(EMPTY, [events[0]]) == s1;
    assert s1.traces == map[1 := Issuance(job, Eligibility.Eligible, Eligibility.EligibleNow, req.resource, false, Some(req), 0)];
    var lease := NewLease(2, events[1].echo, None, 0);
    assert Store.ReserveIn(map[], lease, Some(0)) == (map[2 := lease], Store.Reserved);
  }

  lemma ReleasedState(s: Scheduler, lease: Store.Reservation)
    requires s.clock == Some(0) && s.reservations == map[2 := lease]
    requires lease.id == 2 && lease.state == Store.Active && lease.revision == 1 && lease.expiresAt == Some(LEASE)
    ensures Read(s, 2, 0) == (s, Some(lease))
    ensures var s1 := Run(s, [Releases(2, Some(1), 0, 0)]);
      s1.traces == s.traces && 2 in s1.reservations && s1.reservations[2].state == Store.Released
  {
    assert Read(s, 2, 0).0.reservations == s.reservations;
    var e := Releases(2, Some(1), 0, 0);
    assert [e][..0] == [];
    assert Run(s, [e]) == Step(s, e);
  }

  /** So a start can be confirmed on a lease that was released during the await. */
  lemma ConfirmedAfterRelease(req: Eligibility.Requirement, facts: Eligibility.Job, org: Eligibility.Organization)
    requires Eligibility.Evaluate(facts.environment, 0, 0, facts, req, org).0 == Eligibility.Eligible
    ensures var s := Run(EMPTY, ShortRun(facts.id, req));
      var t := Ticket(0, Read(s, 2, 0).1);
      var s1 := Run(Read(s, 2, 0).0, [Releases(2, Some(1), 0, 0)]);
      && Confirms(s1, t, facts.id, Some(JobView(true, 1, facts)), 1, req, facts.environment, 0, Some(org))
      && 2 in s1.reservations && s1.reservations[2].state == Store.Released
  {
    ShortRunState(facts.id, req);
    var s := Run(EMPTY, ShortRun(facts.id, req));
    ReleasedState(s, s.reservations[2]);
  }
}
