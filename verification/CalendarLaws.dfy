// What the Calendar store promises its callers, in the fields of its records:
// each write is taken exactly under its conditions, an answer from the claim
// table is the record that is stored, and a token belongs to one holder.

module CalendarLaws {
  import opened Common
  import opened CalendarStore
  import opened CalendarInvariant

  /** The evaluation with this token is the one that has the template. */
  predicate Has(s: Store, t: Id, token: nat) {
    t in s.locks && s.locks[t] == token
  }

  predicate WellFormed(o: Occurrence) {
    && o.revision >= 1 && o.templateRevision >= 1 && o.attempts <= 100
    && (o.status == Submitted <==> o.relayJob.Some?)
  }

  /** A template has at most one occurrence at an instant: a claim of a taken slot
      answers the stored record, and a new one is filed only under an ACTIVE
      revision of its template. */
  lemma ClaimIff(s: Store, o: Occurrence, token: nat)
    requires StoreOk(s)
    ensures var ((s', d, record), t) := (ClaimOccurrence(s, o, token), (o.id.template, o.templateRevision));
      if !(WellFormed(o) && o.revision == 1 && Has(s, o.id.template, token)) then d == Rejected && s' == s && record == None
      else if o.id in s.occurrences then d == Existing && s' == s && record == Some(s.occurrences[o.id])
      else if t in s.revisions && s.revisions[t].status == Active then
        d == Created && record == Some(o) && s'.occurrences == s.occurrences[o.id := o] && s'.history == s.history + [o.id]
        && s' == s.(occurrences := s'.occurrences, history := s'.history, claims := s'.claims)
      else d == Rejected && s' == s && record == None
  {
    if o.id in s.occurrences {
      assert OccurrenceOk(s, o.id);
    }
  }

  /** The fields a write leaves on the record. */
  predicate Carries(o: Occurrence, p: Patch, o': Occurrence) {
    && o'.id == o.id && o'.templateRevision == o.templateRevision && o'.fingerprint == o.fingerprint
    && o'.createdAt == o.createdAt && o'.status == p.status && o'.updatedAt == p.updatedAt && o'.revision == o.revision + 1
    && (if p.relayJob.Some? then o'.relayJob == p.relayJob else o'.relayJob == o.relayJob)
    && (if p.attempts.Some? then o'.attempts == p.attempts.value else o'.attempts == o.attempts)
    && (if p.lastAttemptAt.Some? then o'.lastAttemptAt == p.lastAttemptAt else o'.lastAttemptAt == o.lastAttemptAt)
  }

  /** An update is taken exactly when its holder saw the current revision of an
      occurrence that is still open and the outcome is a valid record that moves
      neither its time nor its attempts back. */
  lemma UpdateIff(s: Store, id: Slot, p: Patch, expected: nat, token: nat)
    requires StoreOk(s) && id in s.occurrences
    ensures var ((s', d, record), o) := (UpdateOccurrence(s, id, p, expected, token), s.occurrences[id]);
      var held := p.relayJob.Some? || o.relayJob.Some?;
      var attempts := if p.attempts.Some? then p.attempts.value else o.attempts;
      if Has(s, id.template, token) && o.revision == expected && (o.status == Due || o.status == SubmissionPending)
         && (p.status == Submitted <==> held) && o.attempts <= attempts <= 100 && o.updatedAt <= p.updatedAt then
        d == Updated && record.Some? && Carries(o, p, record.value)
        && s' == s.(occurrences := s.occurrences[id := record.value])
      else d == Rejected && s' == s && record == None
  {
    assert OccurrenceOk(s, id);
  }

  lemma CheckpointIff(s: Store, c: Checkpoint, expected: Option<nat>)
    requires StoreOk(s)
    ensures var (s', d) := PutCheckpoint(s, c, expected);
      if c.template !in s.checkpoints then
        if expected.None? && c.revision == 1 then d == Created && s' == s.(checkpoints := s.checkpoints[c.template := c])
        else d == Rejected && s' == s
      else
        var was := s.checkpoints[c.template];
        if expected == Some(was.revision) && c.revision == was.revision + 1
           && was.lastEvaluatedAt <= c.lastEvaluatedAt && was.updatedAt <= c.updatedAt then
          d == Updated && s' == s.(checkpoints := s.checkpoints[c.template := c])
        else d == Rejected && s' == s
  {
  }

  // ------------------------------------------------------------------ locks

  datatype LockCall = Take(template: Id, token: nat) | Give(template: Id, token: nat)

  function Called(s: Store, c: LockCall): Store {
    match c
    case Take(t, token) => Acquire(s, t, token).0
    case Give(t, token) => Release(s, t, token)
  }

  function AllCalled(s: Store, calls: seq<LockCall>): Store
    decreases |calls|
  {
    if calls == [] then s else Called(AllCalled(s, calls[..|calls| - 1]), calls[|calls| - 1])
  }

  /** Over every run of lock calls: whoever took a template keeps it until giving
      it back with the same token; meanwhile nobody else takes it, and nothing else
      in the store changes. */
  lemma {:induction false} HeldUntilGiven(s: Store, t: Id, token: nat, calls: seq<LockCall>, other: nat)
    requires Has(s, t, token)
    ensures AllCalled(s, calls) == s.(locks := AllCalled(s, calls).locks)
    ensures Give(t, token) !in calls ==> Has(AllCalled(s, calls), t, token) && !Acquire(AllCalled(s, calls), t, other).1
    decreases |calls|
  {
    if calls != [] {
      var front, last := calls[..|calls| - 1], calls[|calls| - 1];
      HeldUntilGiven(s, t, token, front, other);
      assert calls == front + [last];
    }
  }

  /** A free template is there to take; giving it back frees it for anybody, and
      another token gives nothing back. */
  lemma TakeAndGive(s: Store, t: Id, token: nat, other: nat)
    requires t !in s.locks
    ensures var (s1, granted) := Acquire(s, t, token);
      && granted && Has(s1, t, token) && Release(s1, t, token) == s
      && (other != token ==> Release(s1, t, other) == s1)
  {
    assert s.locks[t := token] - {t} == s.locks;
  }
}
