// The Scheduler's reservation store: exclusive leases with lazy expiry.

module SchedulerStore {
  import opened Common

  datatype ReservationState = Pending | Active | Released | Expired | Cancelled

  datatype Reservation = Reservation(
    id: Id, state: ReservationState, revision: nat, createdAt: Time, updatedAt: Option<Time>,
    job: Id, execution: Option<Id>, resource: Id, eligibility: Id, expiresAt: Option<Time>)

  predicate ValidReservation(r: Reservation) {
    && r.revision >= 1
    && (r.state == Active || r.state == Pending ==> r.expiresAt.Some? && r.expiresAt.value > r.createdAt)
    && (r.state == Released || r.state == Cancelled ==> r.expiresAt.None?)
  }

  type Reservations = map<Id, Reservation>

  datatype Disposition = Reserved | Busy | Rejected | Stale | Updated

  // ------------------------------------------------------- what calls mean

  predicate Lapsed(r: Reservation, now: Option<Time>) {
    r.state == Active && now.Some? && (r.expiresAt.None? || r.expiresAt.value <= now.value)
  }

  /** Only a caller that carries a valid time can expire a lease. */
  function Expire(r: Reservation, now: Option<Time>): Reservation {
    if Lapsed(r, now)
    then r.(state := Expired, revision := r.revision + 1, updatedAt := now, expiresAt := None)
    else r
  }

  function ExpireResource(m: Reservations, resource: Id, now: Option<Time>): Reservations {
    map id | id in m :: if m[id].resource == resource then Expire(m[id], now) else m[id]
  }

  predicate Owns(m: Reservations, id: Id, resource: Id) {
    id in m && m[id].resource == resource && m[id].state == Active
  }

  function ReserveIn(m: Reservations, value: Reservation, now: Option<Time>): (Reservations, Disposition) {
    if !ValidReservation(value) || value.state != Active then (m, Rejected)
    else
      var m' := ExpireResource(m, value.resource, now);
      if exists id :: id in m' && Owns(m', id, value.resource) then (m', Busy)
      else if value.id in m' then (m', Rejected)
      else (m'[value.id := value], Reserved)
  }

  function CurrentIn(m: Reservations, id: Id, now: Option<Time>): (Reservations, Option<Reservation>) {
    if id !in m then (m, None) else (m[id := Expire(m[id], now)], Some(Expire(m[id], now)))
  }

  predicate MayTransition(from: ReservationState, to: ReservationState) {
    (to == Released && from == Active) || (to == Cancelled && (from == Active || from == Pending))
  }

  function TransitionIn(m: Reservations, id: Id, to: ReservationState, now: Option<Time>, expected: Option<nat>): (Reservations, Disposition) {
    if id !in m then (m, Rejected)
    else
      var current := Expire(m[id], now);
      var m' := m[id := current];
      if expected != Some(current.revision) then (m', Stale)
      else if !MayTransition(current.state, to) then (m', Rejected)
      else (m[id := current.(state := to, revision := current.revision + 1, updatedAt := now, expiresAt := None)], Updated)
  }

  function ExpireAll(m: Reservations, now: Option<Time>): Reservations {
    map id | id in m :: Expire(m[id], now)
  }

  // ------------------------------------------------------------- invariant

  /** At most one ACTIVE reservation per resource. */
  ghost predicate Exclusive(m: Reservations) {
    forall a, b :: a in m && b in m && m[a].state == Active && m[b].state == Active && m[a].resource == m[b].resource ==> a == b
  }

  ghost predicate StoreOk(m: Reservations) {
    && Exclusive(m)
    && (forall id :: id in m ==> m[id].id == id && ValidReservation(m[id]))
  }

  predicate SameLease(a: Reservation, b: Reservation) {
    && a.id == b.id && a.job == b.job && a.execution == b.execution && a.resource == b.resource
    && a.eligibility == b.eligibility && a.createdAt == b.createdAt
  }

  /** A record changes only by raising its revision, and once it has left
      ACTIVE and PENDING it never changes again. */
  predicate Follows(a: Reservation, b: Reservation) {
    && SameLease(a, b)
    && a.revision <= b.revision
    && (a.revision == b.revision ==> a == b)
    && (a.state != Active && a.state != Pending ==> a == b)
    && (b.state == Active ==> a == b)
  }

  ghost predicate Evolves(m: Reservations, m': Reservations) {
    forall id :: id in m ==> id in m' && Follows(m[id], m'[id])
  }

  lemma ExpireFollows(r: Reservation, now: Option<Time>)
    requires ValidReservation(r)
    ensures Follows(r, Expire(r, now)) && ValidReservation(Expire(r, now))
    ensures Expire(Expire(r, now), now) == Expire(r, now)
  {
  }

  /** Records moving forward in place can only give up ownership. */
  lemma ForwardKeeps(m: Reservations, m': Reservations)
    requires StoreOk(m) && m'.Keys == m.Keys
    requires forall id :: id in m ==> Follows(m[id], m'[id]) && ValidReservation(m'[id])
    ensures StoreOk(m') && Evolves(m, m')
  {
    forall a, b | a in m' && b in m' && m'[a].state == Active && m'[b].state == Active && m'[a].resource == m'[b].resource
      ensures a == b
    {
      assert Follows(m[a], m'[a]) && Follows(m[b], m'[b]);
    }
  }

  lemma ExpireResourceKeeps(m: Reservations, resource: Id, now: Option<Time>)
    requires StoreOk(m)
    ensures StoreOk(ExpireResource(m, resource, now)) && Evolves(m, ExpireResource(m, resource, now))
  {
    forall id | id in m
      ensures Follows(m[id], ExpireResource(m, resource, now)[id]) && ValidReservation(ExpireResource(m, resource, now)[id])
    {
      ExpireFollows(m[id], now);
    }
    ForwardKeeps(m, ExpireResource(m, resource, now));
  }

  lemma ExpireAllKeeps(m: Reservations, now: Option<Time>)
    requires StoreOk(m)
    ensures StoreOk(ExpireAll(m, now)) && Evolves(m, ExpireAll(m, now))
  {
    forall id | id in m
      ensures Follows(m[id], ExpireAll(m, now)[id]) && ValidReservation(ExpireAll(m, now)[id])
    {
      ExpireFollows(m[id], now);
    }
    ForwardKeeps(m, ExpireAll(m, now));
  }

  lemma CurrentKeeps(m: Reservations, id: Id, now: Option<Time>)
    requires StoreOk(m)
    ensures StoreOk(CurrentIn(m, id, now).0) && Evolves(m, CurrentIn(m, id, now).0)
  {
    if id in m {
      ExpireFollows(m[id], now);
      ForwardKeeps(m, CurrentIn(m, id, now).0);
    } else {
      ForwardKeeps(m, m);
    }
  }

  lemma TransitionKeeps(m: Reservations, id: Id, to: ReservationState, now: Option<Time>, expected: Option<nat>)
    requires StoreOk(m)
    ensures var m' := TransitionIn(m, id, to, now, expected).0; StoreOk(m') && Evolves(m, m')
  {
    if id in m {
      ExpireFollows(m[id], now);
    }
    ForwardKeeps(m, TransitionIn(m, id, to, now, expected).0);
  }

  lemma ReserveKeeps(m: Reservations, value: Reservation, now: Option<Time>)
    requires StoreOk(m)
    ensures var m' := ReserveIn(m, value, now).0; StoreOk(m') && Evolves(m, m')
  {
    var e := ExpireResource(m, value.resource, now);
    ExpireResourceKeeps(m, value.resource, now);
    ForwardKeeps(m, m);
    var (m', d) := ReserveIn(m, value, now);
    if d == Reserved {
      forall a, b | a in m' && b in m' && m'[a].state == Active && m'[b].state == Active && m'[a].resource == m'[b].resource
        ensures a == b
      {
        assert a != value.id ==> a in e && (m'[a].resource == value.resource ==> Owns(e, a, value.resource));
        assert b != value.id ==> b in e && (m'[b].resource == value.resource ==> Owns(e, b, value.resource));
      }
    }
  }

  // ---------------------------------------------------------------- class

  class SimulatorSchedulerStore {
    var reservations: Reservations
    var order: seq<Id>

    ghost predicate Valid()
      reads this
    {
      && StoreOk(reservations)
      && (forall id :: id in order <==> id in reservations)
    }

    constructor ()
      ensures Valid() && reservations == map[]
    {
      reservations, order := map[], [];
    }

    method ExpireIfNeeded(id: Id, now: Option<Time>)
      requires id in reservations
      modifies this`reservations
      ensures reservations == old(reservations)[id := Expire(old(reservations)[id], now)]
    {
      if Lapsed(reservations[id], now) {
        var r := reservations[id];
        reservations := reservations[id := r.(state := Expired, revision := r.revision + 1, updatedAt := now, expiresAt := None)];
      } else {
        assert reservations == reservations[id := reservations[id]];
      }
    }

    /** Expires stale leases of the resource while looking for its owner, and
        stops at the first lease still live. */
    method ActiveFor(resource: Id, now: Option<Time>) returns (owner: Option<Id>)
      requires Valid()
      modifies this`reservations
      ensures reservations == ExpireResource(old(reservations), resource, now)
      ensures owner.Some? ==> Owns(reservations, owner.value, resource)
      ensures owner.None? ==> forall id :: !Owns(reservations, id, resource)
    {
      ghost var before, goal := reservations, ExpireResource(reservations, resource, now);
      var i := 0;
      while i < |order|
        invariant 0 <= i <= |order|
        invariant reservations == Halfway(before, goal, order[..i])
        invariant NoOwner(goal, resource, order[..i])
      {
        var id := order[i];
        ExpireStep(before, resource, now, order, i);
        NoOwnerNext(goal, resource, order, i);
        if reservations[id].resource == resource {
          ExpireIfNeeded(id, now);
          if reservations[id].state == Active {
            OnlyOwner(before, resource, now, order[..i + 1], id);
            return Some(id);
          }
        }
        i := i + 1;
      }
      assert order[..i] == order;
      assert reservations == goal;
      return None;
    }

    method Reserve(value: Reservation, now: Option<Time>) returns (d: Disposition, r: Option<Reservation>)
      requires Valid()
      modifies this
      ensures Valid()
      ensures (reservations, d) == ReserveIn(old(reservations), value, now)
      ensures d == Reserved ==> r == Some(value)
    {
      ReserveKeeps(reservations, value, now);
      if !ValidReservation(value) || value.state != Active {
        return Rejected, None;
      }
      var owner := ActiveFor(value.resource, now);
      if owner.Some? {
        return Busy, Some(reservations[owner.value]);
      }
      if value.id in reservations {
        return Rejected, None;
      }
      reservations := reservations[value.id := value];
      order := order + [value.id];
      return Reserved, Some(value);
    }

    method Current(id: Id, now: Option<Time>) returns (r: Option<Reservation>)
      requires Valid()
      modifies this`reservations
      ensures Valid() && (reservations, r) == CurrentIn(old(reservations), id, now)
    {
      CurrentKeeps(reservations, id, now);
      if id !in reservations {
        return None;
      }
      ExpireIfNeeded(id, now);
      return Some(reservations[id]);
    }

    method Transition(id: Id, to: ReservationState, now: Option<Time>, expected: Option<nat>) returns (d: Disposition)
      requires Valid()
      modifies this`reservations
      ensures Valid() && (reservations, d) == TransitionIn(old(reservations), id, to, now, expected)
    {
      TransitionKeeps(reservations, id, to, now, expected);
      ghost var before := reservations;
      if id !in reservations {
        return Rejected;
      }
      ExpireIfNeeded(id, now);
      var current := reservations[id];
      if expected != Some(current.revision) {
        return Stale;
      }
      if !MayTransition(current.state, to) {
        return Rejected;
      }
      current := current.(state := to, revision := current.revision + 1, updatedAt := now, expiresAt := None);
      reservations := reservations[id := current];
      assert reservations == before[id := current];
      return Updated;
    }

    /** Every live lease, in insertion order, after the same lazy expiry. */
    method ActiveReservations(now: Time) returns (live: seq<Reservation>)
      requires Valid()
      modifies this`reservations
      ensures Valid() && reservations == ExpireAll(old(reservations), Some(now))
      ensures forall r :: r in live <==> r.id in reservations && reservations[r.id] == r && r.state == Active
    {
      ghost var before, goal := reservations, ExpireAll(reservations, Some(now));
      ExpireAllKeeps(before, Some(now));
      live := [];
      for i := 0 to |order|
        invariant reservations == Halfway(before, goal, order[..i])
        invariant live == ActiveAmong(goal, order[..i])
      {
        var id := order[i];
        ExpireAllStep(before, Some(now), order, i);
        assert order[..i + 1][..i] == order[..i];
        ExpireIfNeeded(id, Some(now));
        if reservations[id].state == Active {
          live := live + [reservations[id]];
        }
      }
      ActiveAmongAll(goal, order);
      assert order[..|order|] == order;
      assert reservations == goal;
    }
  }

  /** The store when the ids seen so far have been brought up to date. */
  ghost function Halfway(before: Reservations, goal: Reservations, seen: seq<Id>): Reservations
    requires before.Keys == goal.Keys
  {
    map id | id in before :: if id in seen then goal[id] else before[id]
  }

  lemma HalfwayNext(before: Reservations, goal: Reservations, order: seq<Id>, i: nat)
    requires before.Keys == goal.Keys && i < |order| && order[i] in before
    ensures Halfway(before, goal, order[..i + 1]) == Halfway(before, goal, order[..i])[order[i] := goal[order[i]]]
  {
    assert order[..i + 1] == order[..i] + [order[i]];
  }

  ghost predicate NoOwner(m: Reservations, resource: Id, ids: seq<Id>) {
    forall id :: id in ids ==> !Owns(m, id, resource)
  }

  lemma NoOwnerNext(m: Reservations, resource: Id, order: seq<Id>, i: nat)
    requires i < |order|
    ensures NoOwner(m, resource, order[..i + 1]) <==> NoOwner(m, resource, order[..i]) && !Owns(m, order[i], resource)
    ensures order[i] in order[..i + 1]
  {
    assert order[..i + 1] == order[..i] + [order[i]];
  }

  lemma ExpireAllStep(m: Reservations, now: Option<Time>, order: seq<Id>, i: nat)
    requires StoreOk(m) && i < |order| && order[i] in m
    ensures var goal := ExpireAll(m, now);
      var half, id := Halfway(m, goal, order[..i]), order[i];
      Halfway(m, goal, order[..i + 1]) == half[id := Expire(half[id], now)] && Expire(half[id], now) == goal[id]
  {
    HalfwayNext(m, ExpireAll(m, now), order, i);
    ExpireFollows(m[order[i]], now);
  }

  /** The ACTIVE records among the given ids, in their order. */
  ghost function ActiveAmong(m: Reservations, ids: seq<Id>): seq<Reservation>
    requires forall id :: id in ids ==> id in m
  {
    if ids == [] then []
    else
      var front, last := ActiveAmong(m, ids[..|ids| - 1]), m[ids[|ids| - 1]];
      if last.state == Active then front + [last] else front
  }

  lemma {:induction false} ActiveAmongAll(m: Reservations, ids: seq<Id>)
    requires forall id :: id in ids ==> id in m && m[id].id == id
    ensures forall r :: r in ActiveAmong(m, ids) <==> r.id in ids && m[r.id] == r && r.state == Active
  {
    if ids != [] {
      var front := ids[..|ids| - 1];
      assert ids == front + [ids[|ids| - 1]];
      ActiveAmongAll(m, front);
    }
  }

  lemma ExpireStep(m: Reservations, resource: Id, now: Option<Time>, order: seq<Id>, i: nat)
    requires StoreOk(m) && i < |order| && order[i] in m
    ensures var goal := ExpireResource(m, resource, now);
      var half, id := Halfway(m, goal, order[..i]), order[i];
      && Halfway(m, goal, order[..i + 1]) == half[id := if half[id].resource == resource then Expire(half[id], now) else half[id]]
      && (half[id].resource == resource ==> Expire(half[id], now) == goal[id])
      && goal[id].resource == half[id].resource
      && half == half[id := half[id]]
  {
    HalfwayNext(m, ExpireResource(m, resource, now), order, i);
    ExpireFollows(m[order[i]], now);
  }

  /** When the lease found is still live, no other lease of the resource was, so
      stopping early leaves nothing unexpired. */
  lemma OnlyOwner(m: Reservations, resource: Id, now: Option<Time>, seen: seq<Id>, owner: Id)
    requires StoreOk(m) && owner in seen && Owns(ExpireResource(m, resource, now), owner, resource)
    ensures Halfway(m, ExpireResource(m, resource, now), seen) == ExpireResource(m, resource, now)
  {
    var goal := ExpireResource(m, resource, now);
    forall id | id in m && id != owner
      ensures goal[id] == m[id]
    {
      ExpireFollows(m[owner], now);
    }
  }

  // ------------------------------------------------------------------ runs

  datatype Call =
    | Reserve(value: Reservation, now: Option<Time>)
    | Current(id: Id, now: Option<Time>)
    | Transition(id: Id, to: ReservationState, now: Option<Time>, expected: Option<nat>)
    | ActiveReservations(at: Time)

  function Apply(m: Reservations, c: Call): Reservations {
    match c
    case Reserve(value, now) => ReserveIn(m, value, now).0
    case Current(id, now) => CurrentIn(m, id, now).0
    case Transition(id, to, now, expected) => TransitionIn(m, id, to, now, expected).0
    case ActiveReservations(at) => ExpireAll(m, Some(at))
  }

  function Run(m: Reservations, calls: seq<Call>): Reservations
    decreases |calls|
  {
    if calls == [] then m else Apply(Run(m, calls[..|calls| - 1]), calls[|calls| - 1])
  }

  lemma CallKeeps(m: Reservations, c: Call)
    requires StoreOk(m)
    ensures StoreOk(Apply(m, c)) && Evolves(m, Apply(m, c))
  {
    match c
    case Reserve(value, now) => ReserveKeeps(m, value, now);
    case Current(id, now) => CurrentKeeps(m, id, now);
    case Transition(id, to, now, expected) => TransitionKeeps(m, id, to, now, expected);
    case ActiveReservations(at) => ExpireAllKeeps(m, Some(at));
  }

  /** From any good state, whatever the calls and however their clocks jump:
      one ACTIVE lease per resource, records only move forward, and no lease
      that was released, expired or cancelled is ACTIVE again. */
  lemma {:induction false} LeasesOverRuns(m: Reservations, calls: seq<Call>)
    requires StoreOk(m)
    ensures StoreOk(Run(m, calls)) && Evolves(m, Run(m, calls))
    decreases |calls|
  {
    if calls != [] {
      var before := calls[..|calls| - 1];
      LeasesOverRuns(m, before);
      CallKeeps(Run(m, before), calls[|calls| - 1]);
    }
  }

  /** Ids are single use: a reservation is granted only under an id no record
      has ever had. */
  lemma IdsSingleUse(calls: seq<Call>, more: seq<Call>, value: Reservation, now: Option<Time>)
    requires value.id in Run(map[], calls)
    ensures ReserveIn(Run(Run(map[], calls), more), value, now).1 != Reserved
  {
    LeasesOverRuns(map[], calls);
    LeasesOverRuns(Run(map[], calls), more);
  }

  /** A grant means every other lease of the resource was over, and the new one
      is the owner. */
  lemma GrantIsExclusive(m: Reservations, value: Reservation, now: Option<Time>)
    requires StoreOk(m) && ReserveIn(m, value, now).1 == Reserved
    ensures var m' := ReserveIn(m, value, now).0;
      && Owns(m', value.id, value.resource) && m'[value.id] == value && value.id !in m
      && forall id :: id in m && m[id].resource == value.resource && m[id].state == Active ==> Lapsed(m[id], now)
  {
    var e := ExpireResource(m, value.resource, now);
    forall id | id in m && m[id].resource == value.resource && m[id].state == Active
      ensures Lapsed(m[id], now)
    {
      assert id in e && !Owns(e, id, value.resource);
    }
  }
}
