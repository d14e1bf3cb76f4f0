// What a reservation and a confirmed start rest on, in the records of the
// organization they were assessed against.

module SchedulerMeaning {
  import opened Common
  import E = Eligibility
  import Store = SchedulerStore
  import opened SchedulerService
  import opened EligibilityMeaning

  const FIVE_MINUTES: int := 300_000

  /** Authorized, staffed, ready, and permitted by the company. */
  ghost predicate MayStart(c: Case) {
    Authorized(c) && Staffed(c) && Ready(c) && Permitted(c)
  }

  // ----------------------------------------------------------- reserving

  /** The evaluation handed back is the recorded one, unused, for this job and
      resource. */
  predicate Genuine(s: Scheduler, e: Echo, job: Id, resource: Option<Id>) {
    && e.decision == E.Eligible && e.reason == E.EligibleNow && e.id in s.traces
    && !s.traces[e.id].consumed && s.traces[e.id].decision == E.Eligible && s.traces[e.id].reason == E.EligibleNow
    && s.traces[e.id].job == e.job && s.traces[e.id].resource == e.resource
    && job == e.job && (resource.Some? ==> resource.value == e.resource)
  }

  /** Somebody holds the resource at `now`. */
  predicate Taken(m: Store.Reservations, resource: Id, now: Time) {
    exists id :: id in m && m[id].resource == resource && m[id].state == Store.Active
                 && m[id].expiresAt.Some? && now < m[id].expiresAt.value
  }

  lemma OwnedIsTaken(m: Store.Reservations, resource: Id, now: Time)
    ensures (exists id :: id in m && Store.Owns(Store.ExpireResource(m, resource, Some(now)), id, resource)) <==> Taken(m, resource, now)
  {
    var m' := Store.ExpireResource(m, resource, Some(now));
    if id :| id in m && Store.Owns(m', id, resource) {
      assert m[id].resource == resource && m[id].state == Store.Active;
    }
    if id :| id in m && m[id].resource == resource && m[id].state == Store.Active && m[id].expiresAt.Some? && now < m[id].expiresAt.value {
      assert Store.Owns(m', id, resource);
    }
  }

  /** A lease is granted exactly for a genuine evaluation at most five minutes old,
      while nobody holds the resource; it runs for five minutes, and the evaluation
      is used up. */
  lemma GrantedIff(s: Scheduler, e: Echo, job: Id, execution: Option<Id>, resource: Option<Id>, id: Id, raw: Time)
    ensures var (s', outcome) := Reserved(s, e, job, execution, resource, id, raw);
      var now := if s.clock.Some? && s.clock.value > raw then s.clock.value else raw;
      && (outcome.Granted? <==>
           Genuine(s, e, job, resource) && now <= s.traces[e.id].issuedAt + FIVE_MINUTES && !Taken(s.reservations, e.resource, now)
           && id !in s.reservations)
      && (outcome.Granted? ==>
           && id in s'.reservations && outcome.reservation == s'.reservations[id] && e.id in s'.traces && s'.traces[e.id].consumed
           && s'.reservations[id] == Store.Reservation(id, Store.Active, 1, now, Some(now), job, execution, e.resource, e.id,
                                                       Some(now + FIVE_MINUTES)))
      && (outcome.Refused? <==> !Genuine(s, e, job, resource) || now > s.traces[e.id].issuedAt + FIVE_MINUTES)
      && (!outcome.Granted? ==> s'.traces == s.traces && s'.reservations.Keys == s.reservations.Keys)
  {
    var now := Trusted(s.clock, raw);
    OwnedIsTaken(s.reservations, e.resource, now);
  }

  /** A lease is given back exactly by a caller that knows its revision, before it
      runs out. */
  lemma ReleasedIff(s: Scheduler, id: Id, expected: Option<nat>, raw: Time, raw2: Time)
    requires Store.StoreOk(s.reservations)
    ensures var (s', done) := ReleaseDone(s, id, expected, raw, raw2);
      var now := Max(Trusted(s.clock, raw), raw2);
      && (done <==>
           && id in s.reservations && s.reservations[id].state == Store.Active && now < s.reservations[id].expiresAt.value
           && expected == Some(s.reservations[id].revision))
      && (done ==> s'.reservations == s.reservations[id := s.reservations[id].(
                     state := Store.Released, revision := s.reservations[id].revision + 1, updatedAt := Some(now), expiresAt := None)])
  {
    var s1 := Read(s, id, raw).0;
    if id in s.reservations {
      assert s1.reservations == s.reservations[id := Store.Expire(s.reservations[id], Some(Trusted(s.clock, raw)))];
    }
  }

  /** An evaluation is recorded; of the others, exactly those within their time
      stay, five minutes for an unused one and ten for a used one. */
  lemma IssuancesKept(s: Scheduler, id: Id, job: Id, decision: E.Decision, reason: E.Reason, resource: Id,
                      requirement: Option<E.Requirement>, raw: Time, k: Id)
    ensures var (s', now) := (Evaluated(s, id, job, decision, reason, resource, requirement, raw), Trusted(s.clock, raw));
      && id in s'.traces && s'.traces[id] == Issuance(job, decision, reason, resource, false, requirement, now)
      && (k != id ==>
           && (k in s'.traces <==>
                k in s.traces && now <= s.traces[k].issuedAt + if s.traces[k].consumed then 2 * FIVE_MINUTES else FIVE_MINUTES)
           && (k in s'.traces ==> s'.traces[k] == s.traces[k]))
      && s'.reservations == s.reservations
  {
  }

  /** A record that holds its resource at `now`. */
  predicate Holding(r: Store.Reservation, now: Option<Time>) {
    r.state == Store.Active && (now.Some? && r.expiresAt.Some? ==> now.value < r.expiresAt.value)
  }

  /** The store releases only what is held, cancels also what is pending, and both
      only for a caller that knows the revision. */
  lemma TransitionIff(m: Store.Reservations, id: Id, to: Store.ReservationState, now: Option<Time>, expected: Option<nat>)
    requires Store.StoreOk(m)
    ensures var (m', d) := Store.TransitionIn(m, id, to, now, expected);
      && (d == Store.Updated <==>
           && id in m && expected == Some(m[id].revision)
           && ((to == Store.Released && Holding(m[id], now)) || (to == Store.Cancelled && (Holding(m[id], now) || m[id].state == Store.Pending))))
      && (d == Store.Updated ==>
           m' == m[id := m[id].(state := to, revision := m[id].revision + 1, updatedAt := now, expiresAt := None)])
  {
  }

  // ---------------------------------------------------- where issuances come from

  predicate RecordedBy(i: Issuance, id: Id, e: Event) {
    && e.Evaluates? && e.id == id && i.job == e.job && i.decision == e.decision && i.reason == e.reason
    && i.resource == e.resource && i.requirement == e.requirement
  }

  lemma StepTraces(s: Scheduler, e: Event, id: Id)
    requires id in Step(s, e).traces
    ensures RecordedBy(Step(s, e).traces[id], id, e) ||
      (id in s.traces && Step(s, e).traces[id] == s.traces[id].(consumed := Step(s, e).traces[id].consumed))
  {
  }

  lemma {:induction false} IssuanceOrigin(events: seq<Event>, id: Id) returns (e: Event)
    requires id in Run(EMPTY, events).traces
    ensures e in events && RecordedBy(Run(EMPTY, events).traces[id], id, e)
    decreases |events|
  {
    var before, last := events[..|events| - 1], events[|events| - 1];
    assert events == before + [last];
    StepTraces(Run(EMPTY, before), last, id);
    if RecordedBy(Run(EMPTY, events).traces[id], id, last) {
      e := last;
    } else {
      e := IssuanceOrigin(before, id);
    }
  }

  /** The evaluation event is what assessing the case gives. */
  ghost predicate Assesses(e: Event, c: Case) {
    && e.Evaluates? && (e.decision, e.reason) == Verdict(c) && e.requirement == Some(c.req)
    && e.job == c.job.id && e.resource == c.req.resource
  }

  /** Every evaluation of the run assessed a case, or recorded that it could not. */
  ghost predicate Assessed(events: seq<Event>) {
    forall e :: e in events && e.Evaluates? ==> if e.requirement.Some? then exists c :: Assesses(e, c) else e.decision != E.Eligible
  }

  /** Over every run: behind a live lease is an evaluation, at most five minutes
      older than the lease, of a case in which the lease's job may start on the
      lease's resource. */
  lemma LeaseMeansMayStart(events: seq<Event>, id: Id) returns (e: Event, c: Case)
    requires FreshIds(events) && Assessed(events) && id in Run(EMPTY, events).reservations
    requires Live(Run(EMPTY, events).reservations[id], Run(EMPTY, events).clock)
    ensures var r := Run(EMPTY, events).reservations[id];
      && e in events && Assesses(e, c) && e.id == r.eligibility && c.job.id == r.job && c.req.resource == r.resource
      && MayStart(c)
      && r.eligibility in Run(EMPTY, events).traces
      && Run(EMPTY, events).traces[r.eligibility].issuedAt <= r.createdAt <= Run(EMPTY, events).traces[r.eligibility].issuedAt + FIVE_MINUTES
  {
    LiveLeaseKeepsIssuance(events, id);
    e := IssuanceOrigin(events, Run(EMPTY, events).reservations[id].eligibility);
    c :| Assesses(e, c);
    EligibleIff(c);
  }

  // ---------------------------------------------------------- confirming

  /** A start is confirmed exactly when Relay still has the job as it was, the
      reservation read before is its live lease from an assessment of this very
      requirement, and the job may start now. */
  lemma ConfirmsIff(s: Scheduler, t: Ticket, jobId: Id, view: Option<JobView>, expectedRevision: nat,
                    req: E.Requirement, environment: Id, clock: Time, org: Option<E.Organization>)
    ensures Confirms(s, t, jobId, view, expectedRevision, req, environment, clock, org) <==>
      && view.Some? && view.value.accepted && view.value.revision == expectedRevision && org.Some? && t.reservation.Some?
      && var r := t.reservation.value;
      && r.state == Store.Active && r.job == jobId && r.resource == req.resource
      && (r.expiresAt.Some? ==> t.now < r.expiresAt.value)
      && r.eligibility in s.traces && s.traces[r.eligibility].job == jobId && s.traces[r.eligibility].requirement == Some(req)
      && MayStart(Case(environment, clock, clock, view.value.facts, req, org.value))
  {
    if view.Some? && org.Some? {
      EligibleIff(Case(environment, clock, clock, view.value.facts, req, org.value));
    }
  }
}
