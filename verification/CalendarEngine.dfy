// The recurring-work engine as a state machine. Any number of evaluations
// (`evaluateDueOccurrences`) run against one store and one Relay; between two
// awaits of one evaluation any other event may happen, and the steps here are
// at least as fine as the awaits. Template edits and Relay job progress are
// events of their own. Relay calls may throw before or after they commit, and so
// may the evidence sink after a store write.

module CalendarEngine {
  import opened Common
  import opened CalendarStore

  // ---------------------------------------------------------------- Relay

  datatype JobState = JobSubmitted | JobAccepted | JobRunning | JobCompleted | JobFailed

  predicate Terminal(s: JobState) { s == JobCompleted || s == JobFailed }

  /** The part of a Relay job that Calendar reads, and the requester it was
      accepted for. Job type, capability and requester are what can differ in
      Relay's request fingerprint; the owner is a constant of the registry. */
  datatype Job = Job(id: Id, key: Slot, jobType: Id, capability: Id, subject: Id, state: JobState)

  /** Relay files a key under the requester that was resolved for the call. */
  datatype Namespace = Namespace(subject: Id, key: Slot)

  /** `keys` is Relay's idempotency table; `calls` counts accept calls per slot. */
  datatype Relay = Relay(keys: map<Namespace, Id>, jobs: map<Id, Job>, calls: multiset<Slot>)

  // ------------------------------------------------------------ evaluations

  /** What runs when `#process` returns. */
  datatype After = Retrying(current: Template, pending: seq<Occurrence>)
                 | Marking(template: Template, checkpoint: Option<Checkpoint>)

  /** What `accept` gave back, as far as `#process` distinguishes it. */
  datatype Reply = Bound(job: Job) | Refused | Unknown

  datatype Stage =
    | Locked
    | Retry(template: Template, pending: seq<Occurrence>)
    | Window(template: Template)
    | Check(occ: Occurrence, def: Template, priors: seq<Occurrence>, after: After)
    | Answered(occ: Occurrence, def: Template, prior: Occurrence, answer: Option<Job>, priors: seq<Occurrence>, after: After)
    | Calling(occ: Occurrence, def: Template, after: After)
    | Claimed(occ: Occurrence, def: Template, job: Id, after: After)
    | Replied(occ: Occurrence, def: Template, reply: Reply, after: After)
    | Mark(template: Template, checkpoint: Option<Checkpoint>)
    | Unlock
    | Throwing

  datatype Evaluation =
    | Idle
    | Scanning(now: Time, todo: seq<Template>)
    | Working(now: Time, todo: seq<Template>, id: Id, token: nat, stage: Stage)

  /** `consumed` records, per template, the windows each committed checkpoint
      accounted for; it is bookkeeping for the theorems. */
  datatype Consumption = Consumption(anchor: Time, interval: int, first: int, count: nat, now: Time, previous: Option<Time>)

  datatype System = System(
    store: Store, relay: Relay, evaluations: map<Id, Evaluation>,
    nextToken: nat, consumed: map<Id, seq<Consumption>>)

  const START := System(EMPTY, Relay(map[], map[], multiset{}), map[], 0, map[])

  /** One event. In `Advance` the trailing fields are the environment's choices:
      `fault` makes a Relay call throw, `refuse` makes `accept` reject,
      `subject` is the requester resolved for this call and `newId` the next job
      id (an id source that repeats itself is treated as a throw); with `mute`
      the evidence sink throws when the Calendar appends to it. */
  datatype Event =
    | Begin(p: Id, raw: Time)
    | Advance(p: Id, raw: Time, raw2: Time, fault: bool, refuse: bool, subject: Id, newId: Id, mute: bool)
    | EditTemplate(value: Template, expected: Option<nat>)
    | JobMoves(job: Id, to: JobState)

  function EvaluationOf(s: System, p: Id): Evaluation {
    if p in s.evaluations then s.evaluations[p] else Idle
  }

  const MAX_SUBMISSION_ATTEMPTS := 3
  const REVIEW_AFTER_MISSED_WINDOWS := 64

  // ------------------------------------------------------------- arithmetic

  function Interval(t: Template): int { t.intervalSeconds * 1000 }

  /** JavaScript's Math.floor(a / b) for b > 0: Dafny's division is Euclidean,
      which is floor for a positive divisor. */
  function Floor(a: int, b: int): int
    requires b > 0
  {
    a / b
  }

  function LatestIndex(anchor: Time, interval: int, now: Time): int
    requires interval > 0
  {
    Floor(now - anchor, interval)
  }

  function FirstIndex(anchor: Time, interval: int, last: Option<Time>): int
    requires interval > 0
  {
    match last
    case None => 0
    case Some(at) => Max(0, Floor(at - anchor, interval) + 1)
  }

  function DueCount(anchor: Time, interval: int, last: Option<Time>, now: Time): nat
    requires interval > 0
  {
    Max(0, LatestIndex(anchor, interval, now) - FirstIndex(anchor, interval, last) + 1)
  }

  function LastEvaluated(c: Option<Checkpoint>): Option<Time> {
    if c.Some? then Some(c.value.lastEvaluatedAt) else None
  }

  // ------------------------------------------------------------- #process

  function Open(status: OccurrenceStatus): bool {
    status == Due || status == SubmissionPending
  }

  function OnlyOpen(occs: seq<Occurrence>): seq<Occurrence> {
    if occs == [] then []
    else (if Open(occs[0].status) then [occs[0]] else []) + OnlyOpen(occs[1..])
  }

  predicate AnyReview(occs: seq<Occurrence>) {
    exists o :: o in occs && o.status == ReviewRequired
  }

  predicate AnyOpenOrReview(occs: seq<Occurrence>) {
    exists o :: o in occs && (Open(o.status) || o.status == ReviewRequired)
  }

  function Resume(after: After): Stage {
    match after
    case Retrying(t, pending) => Retry(t, pending)
    case Marking(t, c) => Mark(t, c)
  }

  /** The occurrence as the store would hold it after the patch, or nothing when
      the store refuses and `#update` throws. */
  function Update(s: Store, o: Occurrence, p: Patch, token: nat, raw: Time): (Store, Option<Occurrence>) {
    var seen := ObserveTime(s, raw);
    var (s', d, record) := UpdateOccurrence(seen, o.id, p.(updatedAt := Observed(s, raw)), o.revision, token);
    (s', if d == Updated then record else None)
  }

  function ToStatus(status: OccurrenceStatus): Patch {
    Patch(status, None, None, None, 0)
  }

  /** An update that ends `#process`. Its evidence is appended after the write, so
      a throwing sink leaves the write and ends the evaluation. */
  function Conclude(s: System, w: Evaluation, o: Occurrence, p: Patch, after: After, e: Event): (System, Stage)
    requires w.Working? && e.Advance?
  {
    var (store, record) := Update(s.store, o, p, w.token, e.raw);
    (s.(store := store), if record.None? || e.mute then Throwing else Resume(after))
  }

  /** An update made where `#process` catches what it throws: the occurrence in
      hand stays as it was read, and counts as unknown. */
  function Guarded(s: System, w: Evaluation, o: Occurrence, p: Patch, after: After, e: Event): (System, Stage)
    requires w.Working? && e.Advance?
  {
    var (store, record) := Update(s.store, o, p, w.token, e.raw2);
    var s1 := s.(store := store);
    if record.Some? && !e.mute then (s1, Resume(after)) else Unresolved(s1, w, o, after, e)
  }

  /** After an unknown outcome: review once the attempts are used up. */
  function Unresolved(s: System, w: Evaluation, o: Occurrence, after: After, e: Event): (System, Stage)
    requires w.Working? && e.Advance?
  {
    if o.attempts >= MAX_SUBMISSION_ATTEMPTS then Conclude(s, w, o, ToStatus(ReviewRequired), after, e)
    else (s, Resume(after))
  }

  /** Entry of `#process` up to the first predecessor. */
  function Enter(s: System, w: Evaluation, o: Occurrence, after: After, e: Event): (System, Stage)
    requires w.Working? && e.Advance?
  {
    var def := Lookup(s.store.revisions, (o.id.template, o.templateRevision));
    if def.None? || def.value != o.fingerprint then
      Conclude(s, w, o, ToStatus(ReviewRequired), after, e)
    else
      (s, Check(o, def.value, Occurrences(s.store.history, s.store.occurrences, def.value.id), after))
  }

  predicate BoundTo(job: Job, o: Occurrence, def: Template) {
    && job.key == o.id
    && job.jobType == def.jobType
    && job.capability == def.capability
    && (o.relayJob.None? || o.relayJob == Some(job.id))
  }

  /** `getJob` followed by `#boundJob`: nothing when it throws or does not bind. */
  function AnswerOf(s: System, prior: Occurrence, fault: bool): Option<Job> {
    var def := Lookup(s.store.revisions, (prior.id.template, prior.templateRevision));
    if fault || def.None? || prior.relayJob.None? || prior.relayJob.value !in s.relay.jobs then None
    else
      var job := s.relay.jobs[prior.relayJob.value];
      if BoundTo(job, prior, def.value) then Some(job) else None
  }

  function CheckStep(s: System, w: Evaluation, e: Event): (System, Stage)
    requires w.Working? && w.stage.Check? && e.Advance?
  {
    var Check(o, def, priors, after) := w.stage;
    if priors == [] then
      if o.attempts >= MAX_SUBMISSION_ATTEMPTS then
        Conclude(s, w, o, ToStatus(ReviewRequired), after, e)
      else
        var seen := ObserveTime(s.store, e.raw2);
        var patch := Patch(SubmissionPending, None, Some(o.attempts + 1), Some(Observed(s.store, e.raw2)), 0);
        var (store, record) := Update(seen, o, patch, w.token, e.raw);
        if record.None? || e.mute then (s.(store := store), Throwing)
        else
          (s.(store := store, relay := s.relay.(calls := s.relay.calls + multiset{o.id})), Calling(record.value, def, after))
    else
      var prior := priors[0];
      if prior.id == o.id || prior.status == Skipped then (s, Check(o, def, priors[1..], after))
      else if prior.status != Submitted then Conclude(s, w, o, ToStatus(ReviewRequired), after, e)
      else (s, Answered(o, def, prior, AnswerOf(s, prior, e.fault), priors[1..], after))
  }

  function AnsweredStep(s: System, w: Evaluation, e: Event): (System, Stage)
    requires w.Working? && w.stage.Answered? && e.Advance?
  {
    var Answered(o, def, prior, answer, priors, after) := w.stage;
    if answer.None? then Conclude(s, w, o, ToStatus(ReviewRequired), after, e)
    else if !Terminal(answer.value.state) then Conclude(s, w, o, ToStatus(Skipped), after, e)
    else (s, Check(o, def, priors, after))
  }

  /** Relay's `accept`: an early rejection, a throw before the claim, or the
      idempotent claim in the resolved requester's namespace, which replays,
      conflicts or creates. */
  function CallingStep(s: System, w: Evaluation, e: Event): (System, Stage)
    requires w.Working? && w.stage.Calling? && e.Advance?
  {
    var Calling(o, def, after) := w.stage;
    var space := Namespace(e.subject, o.id);
    if e.refuse then (s, Replied(o, def, Refused, after))
    else if space in s.relay.keys && s.relay.keys[space] in s.relay.jobs then
      var job := s.relay.jobs[s.relay.keys[space]];
      if e.fault then (s, Replied(o, def, Unknown, after))
      else if (job.subject, job.jobType, job.capability) != (e.subject, def.jobType, def.capability) then
        (s, Replied(o, def, Refused, after))
      else (s, Replied(o, def, if BoundTo(job, o, def) then Bound(job) else Unknown, after))
    else if e.fault || e.newId in s.relay.jobs then (s, Replied(o, def, Unknown, after))
    else
      var job := Job(e.newId, o.id, def.jobType, def.capability, e.subject, JobSubmitted);
      (s.(relay := s.relay.(keys := s.relay.keys[space := job.id], jobs := s.relay.jobs[job.id := job])),
       Claimed(o, def, job.id, after))
  }

  /** After the claim `accept` applies SUBMITTED to ACCEPTED and returns, or
      throws, or reports UNAVAILABLE, with the job committed in every case. */
  function ClaimedStep(s: System, w: Evaluation, e: Event): (System, Stage)
    requires w.Working? && w.stage.Claimed? && e.Advance?
  {
    var Claimed(o, def, id, after) := w.stage;
    if id !in s.relay.jobs || e.fault || s.relay.jobs[id].state != JobSubmitted then (s, Replied(o, def, Unknown, after))
    else
      var job := s.relay.jobs[id].(state := JobAccepted);
      (s.(relay := s.relay.(jobs := s.relay.jobs[id := job])),
       Replied(o, def, if e.refuse || !BoundTo(job, o, def) then Unknown else Bound(job), after))
  }

  function RepliedStep(s: System, w: Evaluation, e: Event): (System, Stage)
    requires w.Working? && w.stage.Replied? && e.Advance?
  {
    var Replied(o, def, reply, after) := w.stage;
    match reply
    case Bound(job) => Guarded(s, w, o, Patch(Submitted, Some(job.id), None, None, 0), after, e)
    case Refused => Guarded(s, w, o, ToStatus(ReviewRequired), after, e)
    case Unknown => Unresolved(s, w, o, after, e)
  }

  // --------------------------------------------- evaluateDueOccurrences

  function LockedStep(s: System, w: Evaluation): Stage
    requires w.Working?
  {
    if w.id !in s.store.templates then Unlock
    else
      var template := s.store.templates[w.id];
      var occs := Occurrences(s.store.history, s.store.occurrences, template.id);
      if !ValidTemplate(template) || template.status != Active then Unlock
      else if AnyReview(occs) then Unlock
      else Retry(template, OnlyOpen(occs))
  }

  function FreshOccurrence(t: Template, scheduledAt: Time, status: OccurrenceStatus, now: Time): Occurrence {
    Occurrence(Slot(t.id, scheduledAt), t.revision, t, status, None, 0, None, now, now, 1)
  }

  /** `#claim`, then `#process` for a claim that is due. */
  function ClaimStep(s: System, w: Evaluation, t: Template, at: Time, status: OccurrenceStatus, after: After, e: Event): (System, Stage)
    requires w.Working? && e.Advance?
  {
    var (store, d, record) := ClaimOccurrence(s.store, FreshOccurrence(t, at, status, w.now), w.token);
    if d == Rejected || record.None? then (s, Throwing)
    else if d == Created && e.mute then (s.(store := store), Throwing)
    else if status == Due && Open(record.value.status) then Enter(s.(store := store), w, record.value, after, e)
    else (s.(store := store), Resume(after))
  }

  /** What an evaluation makes of the windows that are due. */
  datatype Plan = Wait | NothingDue | Pass | ClaimOne(at: Time, status: OccurrenceStatus)

  function PlanFor(occs: seq<Occurrence>, t: Template, last: Option<Time>, now: Time): Plan {
    if AnyOpenOrReview(occs) || Interval(t) <= 0 then Wait
    else
      var count := DueCount(t.anchor, Interval(t), last, now);
      var at := t.anchor + LatestIndex(t.anchor, Interval(t), now) * Interval(t);
      if count == 0 then NothingDue
      else if count > REVIEW_AFTER_MISSED_WINDOWS then ClaimOne(at, ReviewRequired)
      else if count == 1 || t.missed == RunOnceForMissed then ClaimOne(at, Due)
      else Pass
  }

  /** The plan for the template and checkpoint as they are now. */
  function PlanOf(s: Store, t: Template, now: Time): Plan {
    PlanFor(Occurrences(s.history, s.occurrences, t.id), t, LastEvaluated(Lookup(s.checkpoints, t.id)), now)
  }

  function WindowStep(s: System, w: Evaluation, e: Event): (System, Stage)
    requires w.Working? && w.stage.Window? && e.Advance?
  {
    var t := w.stage.template;
    var checkpoint := Lookup(s.store.checkpoints, t.id);
    match PlanOf(s.store, t, w.now)
    case Wait => (s, Unlock)
    case NothingDue => (s, Mark(t, checkpoint))
    case Pass => (s, if e.mute then Throwing else Mark(t, checkpoint))
    case ClaimOne(at, status) => ClaimStep(s, w, t, at, status, Marking(t, checkpoint), e)
  }

  function Consumed(s: System, template: Id): seq<Consumption> {
    if template in s.consumed then s.consumed[template] else []
  }

  /** The windows that a checkpoint taken at `now` accounts for. */
  function Accounted(t: Template, c: Option<Checkpoint>, now: Time): Consumption {
    var last := LastEvaluated(c);
    var interval := Max(1, Interval(t));
    Consumption(t.anchor, interval, FirstIndex(t.anchor, interval, last), DueCount(t.anchor, interval, last, now), now, last)
  }

  function MarkStep(s: System, w: Evaluation): (System, Stage)
    requires w.Working? && w.stage.Mark?
  {
    var Mark(t, c) := w.stage;
    if c.Some? && w.now <= c.value.lastEvaluatedAt then (s, Unlock)
    else
      var next := Checkpoint(w.id, w.now, (if c.Some? then c.value.revision else 0) + 1, w.now);
      var (store, d) := PutCheckpoint(s.store, next, if c.Some? then Some(c.value.revision) else None);
      if d == Rejected then (s, Throwing)
      else (s.(store := store, consumed := s.consumed[w.id := Consumed(s, w.id) + [Accounted(t, c, w.now)]]), Unlock)
  }

  function WorkStep(s: System, w: Evaluation, e: Event): (System, Stage)
    requires w.Working? && e.Advance? && !w.stage.Unlock? && !w.stage.Throwing?
  {
    match w.stage
    case Locked => (s, LockedStep(s, w))
    case Retry(t, pending) =>
      if pending == [] then (s, Window(t)) else Enter(s, w, pending[0], Retrying(t, pending[1..]), e)
    case Window(_) => WindowStep(s, w, e)
    case Check(_, _, _, _) => CheckStep(s, w, e)
    case Answered(_, _, _, _, _, _) => AnsweredStep(s, w, e)
    case Calling(_, _, _) => CallingStep(s, w, e)
    case Claimed(_, _, _, _) => ClaimedStep(s, w, e)
    case Replied(_, _, _, _) => RepliedStep(s, w, e)
    case Mark(_, _) => MarkStep(s, w)
  }

  function With(s: System, p: Id, v: Evaluation): System {
    s.(evaluations := s.evaluations[p := v])
  }

  function ScanStep(s: System, p: Id, v: Evaluation): System
    requires v.Scanning?
  {
    if v.todo == [] then With(s, p, Idle)
    else
      var listed := v.todo[0];
      if listed.status != Active then With(s, p, Scanning(v.now, v.todo[1..]))
      else
        var (store, granted) := Acquire(s.store, listed.id, s.nextToken);
        if !granted then With(s, p, Scanning(v.now, v.todo[1..]))
        else With(s.(store := store, nextToken := s.nextToken + 1), p,
                  Working(v.now, v.todo[1..], listed.id, s.nextToken, Locked))
  }

  function AdvanceStep(s: System, e: Event): System
    requires e.Advance?
  {
    match EvaluationOf(s, e.p)
    case Idle => s
    case Scanning(now, todo) => ScanStep(s, e.p, Scanning(now, todo))
    case Working(now, todo, id, token, stage) =>
      if stage.Unlock? || stage.Throwing? then
        With(s.(store := Release(s.store, id, token)), e.p, if stage.Unlock? then Scanning(now, todo) else Idle)
      else
        var (s', next) := WorkStep(s, Working(now, todo, id, token, stage), e);
        With(s', e.p, Working(now, todo, id, token, next))
  }

  predicate LegalProgress(from: JobState, to: JobState) {
    || (from == JobSubmitted && to == JobAccepted)
    || (from == JobAccepted && to == JobRunning)
    || (from == JobRunning && Terminal(to))
  }

  function Progress(s: System, job: Id, to: JobState): System {
    if job in s.relay.jobs && LegalProgress(s.relay.jobs[job].state, to)
    then s.(relay := s.relay.(jobs := s.relay.jobs[job := s.relay.jobs[job].(state := to)]))
    else s
  }

  function Step(s: System, e: Event): System {
    match e
    case Begin(p, raw) =>
      if EvaluationOf(s, p) != Idle then s
      else
        var store := ObserveTime(s.store, raw);
        With(s.(store := store), p, Scanning(Observed(s.store, raw), ListTemplates(store.templateOrder, store.templates)))
    case Advance(_, _, _, _, _, _, _, _) => AdvanceStep(s, e)
    case EditTemplate(value, expected) => s.(store := PutTemplate(s.store, value, expected).0)
    case JobMoves(job, to) => Progress(s, job, to)
  }

  function Run(s: System, events: seq<Event>): System
    decreases |events|
  {
    if events == [] then s else Step(Run(s, events[..|events|-1]), events[|events|-1])
  }
}
