// The in-process Calendar store: recurring templates and their revisions,
// occurrences with their claim table, checkpoints, per-template locks and the
// high-water clock. The functions say what each operation does to a store
// value; the class is the store itself.

module CalendarStore {
  import opened Common

  datatype TemplateStatus = Active | Paused | Retired

  datatype MissedRunPolicy = SkipMissed | RunOnceForMissed

  datatype Template = Template(
    id: Id, status: TemplateStatus, jobType: Id, capability: Id,
    anchor: Time, intervalSeconds: nat, missed: MissedRunPolicy,
    revision: nat, createdAt: Time, updatedAt: Time)

  const MIN_INTERVAL_SECONDS := 60
  const MAX_INTERVAL_SECONDS := 365 * 24 * 60 * 60

  predicate ValidTemplate(t: Template) {
    && t.revision >= 1
    && MIN_INTERVAL_SECONDS <= t.intervalSeconds <= MAX_INTERVAL_SECONDS
  }

  /** Occurrence ids and Relay idempotency keys are both hashes of the pair
      (template, scheduled time); the pair itself is an injective hash. */
  datatype Slot = Slot(template: Id, scheduledAt: Time)

  datatype OccurrenceStatus = Due | SubmissionPending | Submitted | Skipped | ReviewRequired

  datatype Occurrence = Occurrence(
    id: Slot, templateRevision: nat, fingerprint: Template,
    status: OccurrenceStatus, relayJob: Option<Id>,
    attempts: nat, lastAttemptAt: Option<Time>,
    createdAt: Time, updatedAt: Time, revision: nat)

  const MAX_ATTEMPT_COUNT := 100

  predicate ValidOccurrence(o: Occurrence) {
    && o.revision >= 1
    && o.templateRevision >= 1
    && (o.status == Submitted <==> o.relayJob.Some?)
    && o.attempts <= MAX_ATTEMPT_COUNT
  }

  predicate Frozen(status: OccurrenceStatus) {
    status == Submitted || status == Skipped || status == ReviewRequired
  }

  datatype Checkpoint = Checkpoint(template: Id, lastEvaluatedAt: Time, revision: nat, updatedAt: Time)

  datatype Store = Store(
    templates: map<Id, Template>,
    templateOrder: seq<Id>,
    revisions: map<(Id, nat), Template>,
    occurrences: map<Slot, Occurrence>,
    history: seq<Slot>,
    claims: map<(Id, Time), Slot>,
    checkpoints: map<Id, Checkpoint>,
    locks: map<Id, nat>,
    highWater: Option<Time>)

  const EMPTY := Store(map[], [], map[], map[], [], map[], map[], map[], None)

  datatype Disposition = Created | Updated | Existing | Rejected

  /** The fields an occurrence update may carry. */
  datatype Patch = Patch(
    status: OccurrenceStatus, relayJob: Option<Id>,
    attempts: Option<nat>, lastAttemptAt: Option<Time>, updatedAt: Time)

  // ---------------------------------------------------------------- clock

  function Observed(s: Store, instant: Time): Time {
    match s.highWater
    case None => instant
    case Some(h) => Max(h, instant)
  }

  function ObserveTime(s: Store, instant: Time): Store {
    s.(highWater := Some(Observed(s, instant)))
  }

  // ------------------------------------------------------------- listings

  function ListTemplates(order: seq<Id>, templates: map<Id, Template>): seq<Template> {
    if order == [] then []
    else (if order[0] in templates then [templates[order[0]]] else [])
         + ListTemplates(order[1..], templates)
  }

  /** The occurrences of one template, in insertion order. */
  function Occurrences(history: seq<Slot>, occurrences: map<Slot, Occurrence>, template: Id): seq<Occurrence> {
    if history == [] then []
    else (if history[0] in occurrences && history[0].template == template then [occurrences[history[0]]] else [])
         + Occurrences(history[1..], occurrences, template)
  }

  // ------------------------------------------------------------ mutations

  function PutTemplate(s: Store, value: Template, expected: Option<nat>): (Store, Disposition) {
    var current := Lookup(s.templates, value.id);
    if !ValidTemplate(value) then (s, Rejected)
    else if value.id in s.locks then (s, Rejected)
    else if current.Some? && (expected != Some(current.value.revision) || value.revision != current.value.revision + 1) then (s, Rejected)
    else if current.None? && (expected.Some? || value.revision != 1) then (s, Rejected)
    else if current.Some? && (value.updatedAt < current.value.updatedAt || value.createdAt != current.value.createdAt) then (s, Rejected)
    else if current.Some? && current.value.status == Retired then (s, Rejected)
    else (s.(templates := s.templates[value.id := value],
             templateOrder := if current.Some? then s.templateOrder else s.templateOrder + [value.id],
             revisions := s.revisions[(value.id, value.revision) := value]),
          if current.Some? then Updated else Created)
  }

  function PutCheckpoint(s: Store, value: Checkpoint, expected: Option<nat>): (Store, Disposition) {
    var current := Lookup(s.checkpoints, value.template);
    if value.revision < 1 then (s, Rejected)
    else if current.Some? && (expected != Some(current.value.revision) || value.revision != current.value.revision + 1) then (s, Rejected)
    else if current.None? && (expected.Some? || value.revision != 1) then (s, Rejected)
    else if current.Some? && (value.updatedAt < current.value.updatedAt || value.lastEvaluatedAt < current.value.lastEvaluatedAt) then (s, Rejected)
    else (s.(checkpoints := s.checkpoints[value.template := value]),
          if current.Some? then Updated else Created)
  }

  function ClaimOccurrence(s: Store, value: Occurrence, token: nat): (Store, Disposition, Option<Occurrence>) {
    var key := (value.id.template, value.id.scheduledAt);
    if !ValidOccurrence(value) || value.revision != 1 then (s, Rejected, None)
    else if Lookup(s.locks, value.id.template) != Some(token) then (s, Rejected, None)
    else if key in s.claims then (s, Existing, Lookup(s.occurrences, s.claims[key]))
    else if value.id in s.occurrences then (s, Rejected, None)
    else
      var definition := Lookup(s.revisions, (value.id.template, value.templateRevision));
      if definition.None? || definition.value.status != Active then (s, Rejected, None)
      else (s.(occurrences := s.occurrences[value.id := value],
               history := s.history + [value.id],
               claims := s.claims[key := value.id]),
            Created, Some(value))
  }

  function Patched(o: Occurrence, p: Patch): Occurrence {
    o.(status := p.status, relayJob := if p.relayJob.Some? then p.relayJob else o.relayJob,
       attempts := if p.attempts.Some? then p.attempts.value else o.attempts,
       lastAttemptAt := if p.lastAttemptAt.Some? then p.lastAttemptAt else o.lastAttemptAt,
       updatedAt := p.updatedAt, revision := o.revision + 1)
  }

  function UpdateOccurrence(s: Store, id: Slot, p: Patch, expected: nat, token: nat): (Store, Disposition, Option<Occurrence>) {
    if id !in s.occurrences then (s, Rejected, None)
    else
      var current := s.occurrences[id];
      if Lookup(s.locks, current.id.template) != Some(token) then (s, Rejected, None)
      else if current.revision != expected then (s, Rejected, None)
      else if Frozen(current.status) then (s, Rejected, None)
      else
        var record := Patched(current, p);
        if !ValidOccurrence(record) || record.updatedAt < current.updatedAt || record.attempts < current.attempts then (s, Rejected, None)
        else (s.(occurrences := s.occurrences[id := record]), Updated, Some(record))
  }

  function Acquire(s: Store, template: Id, token: nat): (Store, bool) {
    if template in s.locks then (s, false)
    else (s.(locks := s.locks[template := token]), true)
  }

  function Release(s: Store, template: Id, token: nat): Store {
    if Lookup(s.locks, template) == Some(token) then s.(locks := s.locks - {template}) else s
  }

  // -------------------------------------------------------------- the class

  class SimulatorCalendarStore {
    var templates: map<Id, Template>
    var templateOrder: seq<Id>
    var revisions: map<(Id, nat), Template>
    var occurrences: map<Slot, Occurrence>
    var history: seq<Slot>
    var claims: map<(Id, Time), Slot>
    var checkpoints: map<Id, Checkpoint>
    var locks: map<Id, nat>
    var highWater: Option<Time>

    function Contents(): Store
      reads this
    {
      Store(templates, templateOrder, revisions, occurrences, history, claims, checkpoints, locks, highWater)
    }

    constructor ()
      ensures Contents() == EMPTY
    {
      templates, templateOrder, revisions := map[], [], map[];
      occurrences, history, claims := map[], [], map[];
      checkpoints, locks, highWater := map[], map[], None;
    }

    method Observe(instant: Time) returns (now: Time)
      modifies this
      ensures Contents() == ObserveTime(old(Contents()), instant)
      ensures now == Observed(old(Contents()), instant)
    {
      if highWater == None || instant > highWater.value {
        highWater := Some(instant);
      }
      now := highWater.value;
    }

    /** A fresh token on success, nothing when an evaluation is in progress. */
    method AcquireTemplate(id: Id, token: nat) returns (granted: bool)
      modifies this
      ensures (Contents(), granted) == Acquire(old(Contents()), id, token)
    {
      granted := id !in locks;
      if granted {
        locks := locks[id := token];
      }
    }

    method ReleaseTemplate(id: Id, token: nat)
      modifies this
      ensures Contents() == Release(old(Contents()), id, token)
    {
      if id in locks && locks[id] == token {
        locks := locks - {id};
      }
    }

    method PutRecurringTemplate(value: Template, expected: Option<nat>) returns (d: Disposition)
      modifies this
      ensures (Contents(), d) == PutTemplate(old(Contents()), value, expected)
    {
      if !ValidTemplate(value) || value.id in locks {
        return Rejected;
      }
      if value.id in templates {
        var current := templates[value.id];
        if expected != Some(current.revision) || value.revision != current.revision + 1 {
          return Rejected;
        }
        if value.updatedAt < current.updatedAt || value.createdAt != current.createdAt || current.status == Retired {
          return Rejected;
        }
        d := Updated;
      } else {
        if expected.Some? || value.revision != 1 {
          return Rejected;
        }
        templateOrder := templateOrder + [value.id];
        d := Created;
      }
      templates := templates[value.id := value];
      revisions := revisions[(value.id, value.revision) := value];
    }

    method PutRecurringCheckpoint(value: Checkpoint, expected: Option<nat>) returns (d: Disposition)
      modifies this
      ensures (Contents(), d) == PutCheckpoint(old(Contents()), value, expected)
    {
      if value.revision < 1 {
        return Rejected;
      }
      if value.template in checkpoints {
        var current := checkpoints[value.template];
        if expected != Some(current.revision) || value.revision != current.revision + 1 {
          return Rejected;
        }
        if value.updatedAt < current.updatedAt || value.lastEvaluatedAt < current.lastEvaluatedAt {
          return Rejected;
        }
        d := Updated;
      } else {
        if expected.Some? || value.revision != 1 {
          return Rejected;
        }
        d := Created;
      }
      checkpoints := checkpoints[value.template := value];
    }

    method Claim(value: Occurrence, token: nat) returns (d: Disposition, record: Option<Occurrence>)
      modifies this
      ensures (Contents(), d, record) == ClaimOccurrence(old(Contents()), value, token)
    {
      if !ValidOccurrence(value) || value.revision != 1 {
        return Rejected, None;
      }
      if value.id.template !in locks || locks[value.id.template] != token {
        return Rejected, None;
      }
      var key := (value.id.template, value.id.scheduledAt);
      if key in claims {
        return Existing, Lookup(occurrences, claims[key]);
      }
      if value.id in occurrences {
        return Rejected, None;
      }
      var version := (value.id.template, value.templateRevision);
      if version !in revisions || revisions[version].status != Active {
        return Rejected, None;
      }
      occurrences := occurrences[value.id := value];
      history := history + [value.id];
      claims := claims[key := value.id];
      return Created, Some(value);
    }

    method Update(id: Slot, patch: Patch, expected: nat, token: nat) returns (d: Disposition, record: Option<Occurrence>)
      modifies this
      ensures (Contents(), d, record) == UpdateOccurrence(old(Contents()), id, patch, expected, token)
    {
      if id !in occurrences {
        return Rejected, None;
      }
      var current := occurrences[id];
      if current.id.template !in locks || locks[current.id.template] != token {
        return Rejected, None;
      }
      if current.revision != expected || Frozen(current.status) {
        return Rejected, None;
      }
      var next := Patched(current, patch);
      if !ValidOccurrence(next) || next.updatedAt < current.updatedAt || next.attempts < current.attempts {
        return Rejected, None;
      }
      occurrences := occurrences[id := next];
      return Updated, Some(next);
    }
  }
}
