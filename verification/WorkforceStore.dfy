// The workforce store: current records by kind, superseded truth, the operation
// table, the unique-key index and the latest-evaluation index.

module WorkforceStore {
  import opened Common

  // ------------------------------------------------------------------- text

  predicate Alphanumeric(c: char) {
    'A' <= c <= 'Z' || 'a' <= c <= 'z' || '0' <= c <= '9'
  }

  const IDENTIFIER_MAX := 160

  /** Identifiers: a letter or digit, then letters, digits and `._:-`. */
  predicate Identifier(s: string) {
    && 1 <= |s| <= IDENTIFIER_MAX && Alphanumeric(s[0])
    && forall i :: 0 <= i < |s| ==> Alphanumeric(s[i]) || s[i] in "._:-"
  }

  /** The unique key of a qualification is one text, not a pair. */
  function Joined(agent: string, capability: string): string {
    agent + "::" + capability
  }

  predicate HasSeparator(s: string) {
    exists i :: 0 <= i < |s| - 1 && s[i] == ':' && s[i + 1] == ':'
  }

  lemma ShorterAgent(a: string, c: string, b: string, d: string)
    requires Joined(a, c) == Joined(b, d) && |a| < |b| && c != [] && Alphanumeric(c[0])
    ensures HasSeparator(b)
  {
    var k := Joined(a, c);
    assert k[|a|] == ':' && k[|a| + 1] == ':' && k[|a| + 2] == c[0];
    assert forall i :: 0 <= i < |b| ==> b[i] == k[i];
    assert k[|b|] == ':' && k[|b| + 1] == ':';
    assert |b| != |a| + 1;
    assert b[|a|] == ':' && b[|a| + 1] == ':';
  }

  /** Distinct pairs have distinct keys as long as no agent id contains the
      separator, because a capability starts with a letter or digit. */
  lemma JoinedIsInjective(a: string, c: string, b: string, d: string)
    requires Identifier(c) && Identifier(d) && !HasSeparator(a) && !HasSeparator(b)
    requires Joined(a, c) == Joined(b, d)
    ensures a == b && c == d
  {
    if |a| < |b| {
      ShorterAgent(a, c, b, d);
    } else if |b| < |a| {
      ShorterAgent(b, d, a, c);
    } else {
      var k := Joined(a, c);
      assert k[..|a|] == a && k[..|a|] == b;
      assert k[|a| + 2..] == c && k[|a| + 2..] == d;
    }
  }

  // ---------------------------------------------------------------- records

  datatype Lifecycle = Candidate | Active | Limited | Retraining | Inactive | Retired

  predicate TransitionAllowed(from: Lifecycle, to: Lifecycle) {
    match from
    case Candidate => to == Active || to == Inactive || to == Retired
    case Active => to == Limited || to == Retraining || to == Inactive || to == Retired
    case Limited => to == Active || to == Retraining || to == Inactive || to == Retired
    case Retraining => to == Active || to == Limited || to == Inactive || to == Retired
    case Inactive => to == Active || to == Limited || to == Retraining || to == Retired
    case Retired => false
  }

  datatype Standing = Qualified | PartlyQualified | InTraining | Unqualified

  datatype Past =
    | PastRecord(status: Lifecycle, role: string, department: string, effectiveAt: Time, revision: nat)
    | PastQualification(standing: Standing, source: Id, effectiveAt: Time, expiresAt: Option<Time>, revision: nat)

  datatype Value =
    | Worker(agent: string, status: Lifecycle, role: string, department: string, effectiveAt: Time, revision: nat, updatedAt: Time, history: seq<Past>)
    | Qualification(id: Id, agent: string, capability: string, standing: Standing, source: Id, effectiveAt: Time,
                    expiresAt: Option<Time>, revision: nat, updatedAt: Time, authorization: Id)
    | Evaluation(id: Id, agent: string, state: Id, generatedAt: Time, token: Id)

  /** A record's kind and its id within the kind. */
  datatype Key = WorkerKey(agent: string) | QualificationKey(id: Id) | EvaluationKey(id: Id)

  function KeyOf(v: Value): Key {
    match v
    case Worker(agent, _, _, _, _, _, _, _) => WorkerKey(agent)
    case Qualification(id, _, _, _, _, _, _, _, _, _) => QualificationKey(id)
    case Evaluation(id, _, _, _, _) => EvaluationKey(id)
  }

  const MAX_TRANSITIONS := 64
  const MAX_SAFE := 0x1F_FFFF_FFFF_FFFF

  /** The contract checks the properties need: identifiers and the checks that
      depend on more than one field. */
  predicate ValidValue(v: Value) {
    && Identifier(v.agent)
    && match v
       case Worker(_, _, _, _, _, revision, _, history) =>
         && 1 <= revision <= MAX_SAFE && |history| <= MAX_TRANSITIONS
         && (forall i :: 0 <= i < |history| ==> history[i].PastRecord? && 1 <= history[i].revision < revision)
         && (forall i :: 0 < i < |history| ==> history[i - 1].revision < history[i].revision)
       case Qualification(_, _, capability, _, _, effectiveAt, expiresAt, revision, _, _) =>
         Identifier(capability) && 1 <= revision <= MAX_SAFE && (expiresAt.Some? ==> expiresAt.value > effectiveAt)
       case Evaluation(_, _, _, _, _) => true
  }

  /** Qualifications are unique by key; other kinds have none. */
  function UniqueKey(v: Value): Option<string> {
    if v.Qualification? then Some(Joined(v.agent, v.capability)) else None
  }

  predicate ForPair(v: Value, agent: string, capability: string) {
    v.Qualification? && v.agent == agent && v.capability == capability
  }

  /** A commit under an operation id; `F` is the fingerprint of its request. */
  datatype Operation<F> = Operation(key: Key, fingerprint: F, value: Value)

  datatype Store<F> = Store(
    current: map<Key, Value>, past: map<Key, seq<Past>>, operations: map<Id, Operation<F>>,
    holders: map<string, Id>, keys: map<Id, string>, latest: map<string, Value>)

  function Empty<F>(): Store<F> {
    Store(map[], map[], map[], map[], map[], map[])
  }

  datatype Put<F> = Put(value: Value, expected: Option<int>, operation: Id, fingerprint: F, superseded: Option<Past>)

  datatype Disposition = Created | Updated | Replayed(prior: Value) | OpConflict | Invalid | AlreadyExists | StaleRevision | Ambiguous

  function History<F>(s: Store<F>, k: Key): seq<Past> {
    if k in s.past then s.past[k] else []
  }

  // ------------------------------------------------------- what `put` means

  predicate Newer(v: Value, w: Value)
    requires v.Evaluation? && w.Evaluation?
  {
    v.generatedAt > w.generatedAt || (v.generatedAt == w.generatedAt && v.id >= w.id)
  }

  /** Another record holds the value's unique key. */
  predicate Shadows<F>(s: Store<F>, v: Value) {
    v.Qualification? && UniqueKey(v).value in s.holders && s.holders[UniqueKey(v).value] != v.id
  }

  /** Why a put is refused before anything is written, if it is. */
  function Refusal<F>(s: Store<F>, p: Put<F>): Option<Disposition> {
    if !ValidValue(p.value) then Some(Invalid)
    else if Shadows(s, p.value) then Some(AlreadyExists)
    else RevisionRefusal(s, p)
  }

  function RevisionRefusal<F>(s: Store<F>, p: Put<F>): Option<Disposition> {
    var k, v := KeyOf(p.value), p.value;
    if v.Evaluation? then if k in s.current || p.expected.Some? then Some(AlreadyExists) else None
    else if p.expected.None? then if k in s.current || v.revision != 1 then Some(AlreadyExists) else None
    else if k !in s.current || s.current[k].Evaluation? || s.current[k].revision != p.expected.value || v.revision != p.expected.value + 1
      then Some(StaleRevision)
    else None
  }

  function LatestWith(latest: map<string, Value>, v: Value): map<string, Value> {
    if !v.Evaluation? then latest
    else if v.agent !in latest || !latest[v.agent].Evaluation? || Newer(v, latest[v.agent]) then latest[v.agent := v]
    else latest
  }

  function HoldersWith(holders: map<string, Id>, keys: map<Id, string>, v: Value): map<string, Id> {
    match UniqueKey(v)
    case None => holders
    case Some(key) =>
      var released := if v.id in keys && keys[v.id] != key then holders - {keys[v.id]} else holders;
      released[key := v.id]
  }

  function Written<F>(s: Store<F>, p: Put<F>): Store<F> {
    var k, v := KeyOf(p.value), p.value;
    Store(s.current[k := v],
          if k in s.current && p.superseded.Some? then s.past[k := History(s, k) + [p.superseded.value]] else s.past,
          s.operations[p.operation := Operation(k, p.fingerprint, v)],
          HoldersWith(s.holders, s.keys, v),
          if v.Qualification? then s.keys[v.id := UniqueKey(v).value] else s.keys,
          LatestWith(s.latest, v))
  }

  function PutIn<F(==)>(s: Store<F>, p: Put<F>): (Store<F>, Disposition) {
    if !ValidValue(p.value) then (s, Invalid)
    else if p.operation in s.operations then
      var o := s.operations[p.operation];
      (s, if o.fingerprint == p.fingerprint && o.key == KeyOf(p.value) then Replayed(o.value) else OpConflict)
    else
      match Refusal(s, p)
      case Some(d) => (s, d)
      case None => (Written(s, p), if KeyOf(p.value) in s.current then Updated else Created)
  }

  // ------------------------------------------------- the indexes are scans

  /** Every record is filed under its own key. */
  ghost predicate Filed(current: map<Key, Value>) {
    forall k :: k in current ==> KeyOf(current[k]) == k
  }

  /** The unique-key index and its reverse are what a scan of the current
      qualifications for that key would give. */
  ghost predicate KeysScan(current: map<Key, Value>, holders: map<string, Id>, keys: map<Id, string>) {
    && (forall id :: id in keys <==> QualificationKey(id) in current)
    && (forall id {:trigger keys[id]} :: id in keys ==>
          UniqueKey(current[QualificationKey(id)]) == Some(keys[id]) && keys[id] in holders && holders[keys[id]] == id)
    && (forall k {:trigger holders[k]} :: k in holders ==> holders[k] in keys && keys[holders[k]] == k)
  }

  predicate EvaluationOf(current: map<Key, Value>, k: Key, agent: string) {
    k in current && current[k].Evaluation? && current[k].agent == agent
  }

  /** The latest-evaluation index holds, for every agent that was evaluated, the
      greatest current evaluation by time, then id. */
  ghost predicate LatestScan(current: map<Key, Value>, latest: map<string, Value>) {
    && (forall a {:trigger latest[a]} :: a in latest ==> LatestOk(current, latest[a], a))
    && (forall k {:trigger current[k]} :: k in current && current[k].Evaluation? ==> current[k].agent in latest)
  }

  ghost predicate LatestOk(current: map<Key, Value>, v: Value, agent: string) {
    && v.Evaluation? && v.agent == agent && KeyOf(v) in current && current[KeyOf(v)] == v
    && forall k {:trigger current[k]} :: EvaluationOf(current, k, agent) ==> Newer(v, current[k])
  }

  ghost predicate Indexed<F>(s: Store<F>) {
    Filed(s.current) && KeysScan(s.current, s.holders, s.keys) && LatestScan(s.current, s.latest)
  }

  lemma KeysKept<F>(s: Store<F>, p: Put<F>)
    requires Filed(s.current) && KeysScan(s.current, s.holders, s.keys) && Refusal(s, p).None?
    ensures var t := Written(s, p); KeysScan(t.current, t.holders, t.keys)
  {
    var v, t := p.value, Written(s, p);
    if v.Qualification? {
      forall q | q in t.holders
        ensures t.holders[q] in t.keys && t.keys[t.holders[q]] == q
      {
        if q != Joined(v.agent, v.capability) {
          assert s.holders[q] in s.keys && s.keys[s.holders[q]] == q;
        }
      }
      forall id | id in t.keys
        ensures UniqueKey(t.current[QualificationKey(id)]) == Some(t.keys[id]) && t.keys[id] in t.holders && t.holders[t.keys[id]] == id
      {
        if id != v.id {
          assert s.keys[id] in s.holders && s.holders[s.keys[id]] == id;
        }
      }
    } else {
      KeysUntouched(s, p);
    }
  }

  lemma KeysUntouched<F>(s: Store<F>, p: Put<F>)
    requires Filed(s.current) && KeysScan(s.current, s.holders, s.keys) && !p.value.Qualification?
    ensures var t := Written(s, p); KeysScan(t.current, t.holders, t.keys)
  {
    var t := Written(s, p);
    assert t.holders == s.holders && t.keys == s.keys;
    assert forall id :: QualificationKey(id) != KeyOf(p.value);
    forall id | id in t.keys
      ensures UniqueKey(t.current[QualificationKey(id)]) == Some(t.keys[id]) && t.keys[id] in t.holders && t.holders[t.keys[id]] == id
    {
      assert s.keys[id] in s.holders;
    }
  }

  lemma LatestKept<F>(s: Store<F>, p: Put<F>)
    requires Filed(s.current) && LatestScan(s.current, s.latest) && Refusal(s, p).None?
    ensures var t := Written(s, p); LatestScan(t.current, t.latest)
  {
    var v, t := p.value, Written(s, p);
    var key := KeyOf(v);
    forall a | a in t.latest
      ensures LatestOk(t.current, t.latest[a], a)
    {
      if v.Evaluation? && a == v.agent {
        LatestStep(s.current, s.latest, v);
      } else {
        assert LatestOk(s.current, s.latest[a], a);
        LatestSurvives(s.current, s.latest[a], a, v);
      }
    }
    forall k | k in t.current && t.current[k].Evaluation?
      ensures t.current[k].agent in t.latest
    {
      if k != key {
        assert s.current[k].agent in s.latest;
      }
    }
  }

  lemma LatestSurvives(current: map<Key, Value>, top: Value, agent: string, v: Value)
    requires Filed(current) && LatestOk(current, top, agent)
    requires v.Evaluation? ==> v.agent != agent && KeyOf(v) !in current
    ensures LatestOk(current[KeyOf(v) := v], top, agent)
  {
    assert KeyOf(top) != KeyOf(v) by {
      assert KeyOf(top).EvaluationKey?;
    }
    var all := current[KeyOf(v) := v];
    forall k | EvaluationOf(all, k, agent)
      ensures Newer(top, all[k])
    {
      assert EvaluationOf(current, k, agent) && current[k] == all[k];
    }
  }

  lemma LatestStep(current: map<Key, Value>, latest: map<string, Value>, v: Value)
    requires Filed(current) && LatestScan(current, latest) && v.Evaluation? && KeyOf(v) !in current
    ensures var next := LatestWith(latest, v); v.agent in next && LatestOk(current[KeyOf(v) := v], next[v.agent], v.agent)
  {
    var all, top := current[KeyOf(v) := v], LatestWith(latest, v)[v.agent];
    if v.agent in latest {
      assert LatestOk(current, latest[v.agent], v.agent);
    }
    forall k | EvaluationOf(all, k, v.agent)
      ensures Newer(top, all[k])
    {
      if k != KeyOf(v) {
        assert EvaluationOf(current, k, v.agent) && current[k] == all[k];
      }
    }
  }

  /** Any put at all keeps the indexes equal to a scan. */
  lemma PutKeepsIndexes<F>(s: Store<F>, p: Put<F>)
    requires Indexed(s)
    ensures Indexed(PutIn(s, p).0)
  {
    if p.operation !in s.operations && ValidValue(p.value) && Refusal(s, p).None? {
      KeysKept(s, p);
      LatestKept(s, p);
    }
  }

  /** So one pair has at most one current qualification, and the index finds it. */
  lemma PairIsUnique<F>(s: Store<F>, a: Id, b: Id, agent: string, capability: string)
    requires Indexed(s) && QualificationKey(a) in s.current && QualificationKey(b) in s.current
    requires ForPair(s.current[QualificationKey(a)], agent, capability) && ForPair(s.current[QualificationKey(b)], agent, capability)
    ensures a == b && Lookup(s.holders, Joined(agent, capability)) == Some(a)
  {
    assert s.keys[a] in s.holders && s.holders[s.keys[a]] == a;
    assert s.keys[b] in s.holders && s.holders[s.keys[b]] == b;
  }

  /** A current qualification `id`, other than `v` itself, with `v`'s key. */
  ghost predicate SharesKey(current: map<Key, Value>, v: Value, id: Id) {
    && v.Qualification? && id != v.id && QualificationKey(id) in current
    && UniqueKey(current[QualificationKey(id)]) == UniqueKey(v)
  }

  /** A well-formed qualification at the right revision is refused if and only if
      another current qualification has the same joined text, whether or not that
      one is for the same pair. */
  lemma RefusedIffSharesKey<F>(s: Store<F>, p: Put<F>)
    requires Indexed(s) && p.value.Qualification? && ValidValue(p.value)
    requires p.operation !in s.operations && RevisionRefusal(s, p).None?
    ensures PutIn(s, p).1 == AlreadyExists <==> exists id :: SharesKey(s.current, p.value, id)
    ensures PutIn(s, p).1 != AlreadyExists ==> PutIn(s, p).0 == Written(s, p)
  {
    var v := p.value;
    if Shadows(s, v) {
      var holder := s.holders[UniqueKey(v).value];
      assert holder in s.keys && s.keys[holder] == UniqueKey(v).value;
      assert UniqueKey(s.current[QualificationKey(holder)]) == Some(s.keys[holder]);
      assert SharesKey(s.current, v, holder);
    }
    forall id | SharesKey(s.current, v, id)
      ensures Shadows(s, v)
    {
      assert id in s.keys && UniqueKey(s.current[QualificationKey(id)]) == Some(s.keys[id]);
      assert s.keys[id] in s.holders && s.holders[s.keys[id]] == id;
    }
  }

  /** What callers mean by unique: another current qualification of the pair. */
  ghost predicate SharesPair(current: map<Key, Value>, v: Value, id: Id) {
    && v.Qualification? && id != v.id && QualificationKey(id) in current
    && ForPair(current[QualificationKey(id)], v.agent, v.capability)
  }

  ghost predicate NoSeparators(current: map<Key, Value>) {
    forall k {:trigger current[k]} :: k in current && current[k].Qualification? ==>
      !HasSeparator(current[k].agent) && Identifier(current[k].capability)
  }

  /** While agent ids keep clear of the separator, only a put for a pair that
      another record holds is refused. */
  lemma RefusedIffSharesPair<F>(s: Store<F>, p: Put<F>)
    requires Indexed(s) && p.value.Qualification? && ValidValue(p.value)
    requires p.operation !in s.operations && RevisionRefusal(s, p).None?
    requires !HasSeparator(p.value.agent) && NoSeparators(s.current)
    ensures PutIn(s, p).1 == AlreadyExists <==> exists id :: SharesPair(s.current, p.value, id)
  {
    var v := p.value;
    RefusedIffSharesKey(s, p);
    forall id
      ensures SharesKey(s.current, v, id) <==> SharesPair(s.current, v, id)
    {
      if SharesKey(s.current, v, id) {
        var other := s.current[QualificationKey(id)];
        JoinedIsInjective(other.agent, other.capability, v.agent, v.capability);
      }
    }
  }

  /** Two pairs with one key: the second qualification is refused although no
      record is for its pair, and the index names the first one. */
  lemma CollidingPairs<F>(f: F, g: F, at: Time, authorization: Id)
    ensures var q1 := Qualification(1, "a", "b::c", Qualified, 0, at, None, 1, at, authorization);
      var q2 := Qualification(2, "a::b", "c", Qualified, 0, at, None, 1, at, authorization);
      var (s1, d1) := PutIn(Empty<F>(), Put(q1, None, 1, f, None));
      var (s2, d2) := PutIn(s1, Put(q2, None, 2, g, None));
      && ValidValue(q1) && ValidValue(q2) && d1 == Created && d2 == AlreadyExists && s2 == s1
      && (forall k :: k in s1.current ==> !ForPair(s1.current[k], "a::b", "c"))
      && Lookup(s1.holders, Joined("a::b", "c")) == Some(1)
  {
    assert Joined("a", "b::c") == "a::b::c" && Joined("a::b", "c") == "a::b::c";
    assert Identifier("a") && Identifier("b::c") && Identifier("a::b") && Identifier("c");
  }

  // --------------------------------------------------------- the adapter

  class SimulatorWorkforceStore<F(==)> {
    var current: map<Key, Value>
    var past: map<Key, seq<Past>>
    var operations: map<Id, Operation<F>>
    var holders: map<string, Id>
    var keys: map<Id, string>
    var latest: map<string, Value>

    function Contents(): Store<F>
      reads this
    {
      Store(current, past, operations, holders, keys, latest)
    }

    constructor ()
      ensures Contents() == Empty()
    {
      current, past, operations, holders, keys, latest := map[], map[], map[], map[], map[], map[];
    }

    method Put(p: Put<F>) returns (d: Disposition)
      modifies this
      ensures (Contents(), d) == PutIn(old(Contents()), p)
    {
      var value, key := p.value, KeyOf(p.value);
      if !ValidValue(value) {
        return Invalid;
      }
      if p.operation in operations {
        var prior := operations[p.operation];
        return if prior.fingerprint == p.fingerprint && prior.key == key then Replayed(prior.value) else OpConflict;
      }
      var unique := UniqueKey(value);
      if unique.Some? && unique.value in holders && holders[unique.value] != value.id {
        return AlreadyExists;
      }
      if value.Evaluation? {
        if key in current || p.expected.Some? {
          return AlreadyExists;
        }
      } else if p.expected.None? {
        if key in current || value.revision != 1 {
          return AlreadyExists;
        }
      } else if key !in current || current[key].Evaluation? || current[key].revision != p.expected.value
                || value.revision != p.expected.value + 1 {
        return StaleRevision;
      }
      d := if key in current then Updated else Created;
      Write(p);
    }

    /** The commit itself: supersede, replace, and bring every index along. */
    method Write(p: Put<F>)
      modifies this
      ensures Contents() == Written(old(Contents()), p)
    {
      var value, key, unique := p.value, KeyOf(p.value), UniqueKey(p.value);
      if key in current && p.superseded.Some? {
        past := past[key := (if key in past then past[key] else []) + [p.superseded.value]];
      }
      current := current[key := value];
      if value.Evaluation? {
        if value.agent !in latest || !latest[value.agent].Evaluation? || Newer(value, latest[value.agent]) {
          latest := latest[value.agent := value];
        }
      }
      if unique.Some? {
        if value.id in keys && keys[value.id] != unique.value {
          holders := holders - {keys[value.id]};
        }
        keys := keys[value.id := unique.value];
        holders := holders[unique.value := value.id];
      }
      operations := operations[p.operation := Operation(key, p.fingerprint, value)];
    }

    /** The scan for a pair's qualification, which does not use the index: it
        finds the pair's one qualification if there is any, and agrees with the
        index exactly when the index does not name a record of another pair. */
    method QualificationFor(agent: string, capability: string) returns (found: Option<Value>)
      requires Indexed(Contents())
      ensures found.None? <==> forall k :: k in current ==> !ForPair(current[k], agent, capability)
      ensures found.Some? ==> ForPair(found.value, agent, capability) && Lookup(current, KeyOf(found.value)) == found
      ensures found == match Lookup(holders, Joined(agent, capability))
        case None => None
        case Some(id) => if ForPair(current[QualificationKey(id)], agent, capability) then Some(current[QualificationKey(id)]) else None
    {
      var rest := current.Keys;
      while rest != {}
        invariant rest <= current.Keys
        invariant forall k :: k in current && k !in rest ==> !ForPair(current[k], agent, capability)
        decreases |rest|
      {
        var k :| k in rest;
        if ForPair(current[k], agent, capability) {
          assert KeyOf(current[k]) == k;
          PairIsUnique(Contents(), k.id, k.id, agent, capability);
          return Some(current[k]);
        }
        rest := rest - {k};
      }
      return None;
    }

    /** The index answers with the greatest current evaluation of the agent. */
    method LatestEvaluationFor(agent: string) returns (found: Option<Value>)
      requires Indexed(Contents())
      ensures found.None? <==> forall k :: !EvaluationOf(current, k, agent)
      ensures found.Some? ==> LatestOk(current, found.value, agent)
    {
      if agent !in latest {
        return None;
      }
      assert LatestOk(current, latest[agent], agent);
      assert EvaluationOf(current, KeyOf(latest[agent]), agent);
      return Some(latest[agent]);
    }
  }
}
