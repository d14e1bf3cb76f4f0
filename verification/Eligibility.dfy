// Organizational State reduced to Scheduler inputs, and the Scheduler's
// eligibility decision over them.

module Eligibility {
  import opened Common

  // --------------------------------------------------------- company state

  datatype CompanyState =
    | Survival | SecurityIncident | InfrastructureIncident
    | Maintenance | Holiday | Night | Normal

  /** Position in the precedence table: smaller wins. */
  function Rank(s: CompanyState): nat {
    match s
    case Survival => 0
    case SecurityIncident => 1
    case InfrastructureIncident => 2
    case Maintenance => 3
    case Holiday => 4
    case Night => 5
    case Normal => 6
  }

  /** The most severe of the given states; NORMAL when there is none. */
  function Worst(inputs: seq<CompanyState>): (r: CompanyState)
    ensures r in inputs || (r == Normal && forall s :: s in inputs ==> s == Normal)
    ensures forall s :: s in inputs ==> Rank(r) <= Rank(s)
  {
    if inputs == [] then Normal
    else
      var rest := Worst(inputs[1..]);
      assert inputs == [inputs[0]] + inputs[1..];
      if Rank(inputs[0]) < Rank(rest) then inputs[0] else rest
  }

  lemma WorstIsUnique(inputs: seq<CompanyState>, r: CompanyState)
    requires r in inputs && forall s :: s in inputs ==> Rank(r) <= Rank(s)
    ensures Worst(inputs) == r
  {
    assert Rank(Worst(inputs)) <= Rank(r);
    assert Worst(inputs) !in inputs ==> r == Normal;
    assert Worst(inputs) in inputs ==> Rank(r) <= Rank(Worst(inputs));
  }

  /** The running-minimum loop of `derivedCompanyState`. */
  method DerivedCompanyState(inputs: seq<CompanyState>) returns (state: CompanyState)
    ensures state == Worst(inputs)
  {
    var selected: Option<CompanyState> := None;
    var selectedIndex := 7;
    for i := 0 to |inputs|
      invariant selected.None? ==> i == 0 && selectedIndex == 7
      invariant selected.Some? ==> selectedIndex == Rank(selected.value) && selected.value in inputs[..i]
      invariant forall s :: s in inputs[..i] ==> selectedIndex <= Rank(s)
    {
      assert inputs[..i + 1] == inputs[..i] + [inputs[i]];
      if Rank(inputs[i]) < selectedIndex {
        selected, selectedIndex := Some(inputs[i]), Rank(inputs[i]);
      }
    }
    assert inputs[..|inputs|] == inputs;
    if selected.None? {
      return Normal;
    }
    WorstIsUnique(inputs, selected.value);
    return selected.value;
  }

  // -------------------------------------------------------------- incidents

  datatype IncidentClass = Security | Infrastructure | Power | Thermal

  datatype Severity = Sev0 | Sev1 | Sev2 | Sev3

  /** A fact that passed validation; validation also fixes its status to OPEN. */
  datatype Fact = Fact(id: Id, class_: IncidentClass, severity: Severity, affected: set<Id>)

  function IncidentState(f: Fact): Option<CompanyState> {
    if f.severity == Sev0 then Some(Survival)
    else if f.severity == Sev1 && f.class_ == Security then Some(SecurityIncident)
    else if f.severity == Sev1 then Some(InfrastructureIncident)
    else None
  }

  function IncidentStates(facts: seq<Fact>): seq<CompanyState> {
    if facts == [] then []
    else (if IncidentState(facts[0]).Some? then [IncidentState(facts[0]).value] else []) + IncidentStates(facts[1..])
  }

  function Degraded(facts: seq<Fact>): set<Id> {
    set f, r | f in facts && f.severity != Sev3 && r in f.affected :: r
  }

  lemma {:induction false} IncidentStatesIn(facts: seq<Fact>, s: CompanyState)
    ensures s in IncidentStates(facts) <==> exists f :: f in facts && IncidentState(f) == Some(s)
  {
    if facts != [] {
      IncidentStatesIn(facts[1..], s);
      assert facts == [facts[0]] + facts[1..];
    }
  }

  // ------------------------------------------------------ facts and inputs

  /** A seam that is deliberately not wired, one that failed or returned
      unusable data, or one that answered. */
  datatype Seam<+T> = NotConfigured | Failed | Answered(facts: T)

  datatype Qualification = Qualified | Limited | Retraining | Unqualified | QualificationExpired

  datatype Workforce = Workforce(agent: Id, capability: Id, globallyIneligible: bool, qualification: Option<Qualification>, expiresAt: Option<Time>)

  datatype Duty = OnDuty | OffDuty | OnCall | MaintenanceDuty | IncidentDuty

  datatype Capacity = Spare | Light | Usual | High | Saturated | NoCapacity

  datatype HoldClass = SecurityHold | PolicyHold | OwnerHold | MaintenanceHold

  datatype Hold = Hold(id: Id, class_: HoldClass, active: bool, expiresAt: Option<Time>)

  datatype ApprovalStatus = Approved | ApprovalRejected | ApprovalExpired | ApprovalOpen

  datatype Approval = Approval(job: Id, status: ApprovalStatus, expiresAt: Option<Time>)

  datatype DelegationStatus = DelegationActive | DelegationRevoked | DelegationOther

  datatype Delegation = Delegation(status: DelegationStatus, environment: Id, grantee: Id, validFrom: Time, expiresAt: Option<Time>)

  datatype Organization = Organization(
    incidents: Seam<seq<Option<Fact>>>,      // None: an entry that fails validation
    calendar: Seam<CompanyState>, workforce: Seam<Workforce>,
    stored: Option<CompanyState>, duty: map<Id, Duty>, capacity: map<Id, Capacity>,
    holds: map<Id, seq<Hold>>, approvals: map<Id, Approval>, delegations: map<Id, Delegation>)

  datatype Health = Healthy | DegradedHealth | UnavailableHealth | UnknownHealth

  datatype Dependency = Complete | PendingDependency | Blocked | FailedDependency | UnknownDependency

  datatype SafetyClass = Ordinary | IncidentContainment | SurvivalCritical

  datatype Requirement = Requirement(
    authorityRef: Id, authorityAllows: bool,
    requiresApproval: bool, approvalId: Option<Id>,
    requiresDelegation: bool, delegationId: Option<Id>,
    resource: Id, health: Option<Health>, dependency: Option<Dependency>,
    notBefore: Option<Time>, safetyClass: SafetyClass, incidentRef: Option<Id>)

  datatype Job = Job(id: Id, environment: Id, worker: Id, capability: Id)

  /** The bounded inputs `evaluateExecutionInputs` returns, as far as the
      decision reads them. */
  datatype Inputs = Inputs(
    authorityAllows: bool, approved: bool, delegationValid: bool, activeHold: Option<HoldClass>,
    companyState: CompanyState, incidentSeamUnavailable: bool, calendarSeamUnavailable: bool,
    workforceSeamUnavailable: bool, workforceKnown: bool, workforceIneligible: bool, qualified: bool,
    containmentEligible: bool, offDuty: bool, capacity: Capacity, resourceState: Health, dependency: Dependency)

  predicate ExpiredAt(expiresAt: Option<Time>, now: Time) {
    expiresAt.Some? && now >= expiresAt.value
  }

  predicate WellFormed(raw: seq<Option<Fact>>) {
    forall i :: 0 <= i < |raw| ==> raw[i].Some?
  }

  function Known(raw: seq<Option<Fact>>): seq<Fact>
    requires WellFormed(raw)
  {
    seq(|raw|, i requires 0 <= i < |raw| => raw[i].value)
  }

  predicate IncidentsUnavailable(o: Organization) {
    o.incidents.Failed? || (o.incidents.Answered? && !WellFormed(o.incidents.facts))
  }

  function Incidents(o: Organization): seq<Fact> {
    if o.incidents.Answered? && WellFormed(o.incidents.facts) then Known(o.incidents.facts) else []
  }

  predicate WorkforceUnavailable(o: Organization, job: Job, now: Time) {
    || o.workforce.Failed?
    || (o.workforce.Answered? &&
          var w := o.workforce.facts;
          w.agent != job.worker || w.capability != job.capability
          || (w.qualification == Some(Qualified) && ExpiredAt(w.expiresAt, now)))
  }

  function OtherStates(o: Organization): seq<CompanyState> {
    (if o.calendar.Answered? then [o.calendar.facts] else []) + [if o.stored.Some? then o.stored.value else Normal]
  }

  function ComposedState(o: Organization): CompanyState {
    Worst(IncidentStates(Incidents(o)) + OtherStates(o))
  }

  predicate ApprovedFor(o: Organization, job: Job, req: Requirement, now: Time) {
    && req.requiresApproval && req.approvalId.Some? && req.approvalId.value in o.approvals
    && var a := o.approvals[req.approvalId.value];
    a.job == job.id && a.status == Approved && !ExpiredAt(a.expiresAt, now)
  }

  predicate DelegatedFor(o: Organization, job: Job, req: Requirement, now: Time) {
    && req.requiresDelegation && req.delegationId.Some? && req.delegationId.value in o.delegations
    && var d := o.delegations[req.delegationId.value];
    d.status == DelegationActive && d.environment == job.environment && d.grantee == job.worker
    && now >= d.validFrom && !ExpiredAt(d.expiresAt, now)
  }

  function FirstHold(holds: seq<Hold>, now: Time): Option<HoldClass> {
    if holds == [] then None
    else if holds[0].active && !ExpiredAt(holds[0].expiresAt, now) then Some(holds[0].class_)
    else FirstHold(holds[1..], now)
  }

  predicate Contains(facts: seq<Fact>, id: Id) {
    exists f :: f in facts && f.id == id
  }

  predicate ContainmentEligible(facts: seq<Fact>, req: Requirement, state: CompanyState) {
    && req.incidentRef.Some? && Contains(facts, req.incidentRef.value)
    && ((req.safetyClass == SurvivalCritical && state == Survival)
        || (req.safetyClass == IncidentContainment && Rank(state) <= Rank(InfrastructureIncident)))
  }

  function ResourceState(facts: seq<Fact>, req: Requirement): Health {
    var health := if req.health.Some? then req.health.value else UnknownHealth;
    if req.resource in Degraded(facts) && health != UnknownHealth && health != UnavailableHealth then DegradedHealth else health
  }

  function InputsOf(o: Organization, job: Job, req: Requirement, now: Time): Inputs {
    var facts := Incidents(o);
    var state := ComposedState(o);
    var workforceKnown := o.workforce.Answered? && !WorkforceUnavailable(o, job, now);
    var duty := if job.worker in o.duty then o.duty[job.worker] else OnDuty;
    Inputs(
      req.authorityAllows, ApprovedFor(o, job, req, now), DelegatedFor(o, job, req, now),
      FirstHold(if job.id in o.holds then o.holds[job.id] else [], now),
      state, IncidentsUnavailable(o), o.calendar.Failed?,
      WorkforceUnavailable(o, job, now), workforceKnown,
      workforceKnown && o.workforce.facts.globallyIneligible,
      workforceKnown && o.workforce.facts.qualification == Some(Qualified),
      ContainmentEligible(facts, req, state),
      duty == OffDuty || duty == OnCall,
      if req.resource in o.capacity then o.capacity[req.resource] else Usual,
      ResourceState(facts, req),
      if req.dependency.Some? then req.dependency.value else UnknownDependency)
  }

  /** The incident part of `evaluateExecutionInputs`: validate every fact in
      turn, then collect states and degraded resources. */
  method CollectIncidents(seam: Seam<seq<Option<Fact>>>) returns (facts: seq<Fact>, states: seq<CompanyState>, degraded: set<Id>, unavailable: bool)
    ensures unavailable <==> seam.Failed? || (seam.Answered? && !WellFormed(seam.facts))
    ensures facts == if seam.Answered? && WellFormed(seam.facts) then Known(seam.facts) else []
    ensures states == IncidentStates(facts) && degraded == Degraded(facts)
  {
    facts, states, degraded, unavailable := [], [], {}, seam.Failed?;
    if seam.Answered? {
      var raw := seam.facts;
      var wellFormed, index := true, 0;
      while index < |raw|
        invariant 0 <= index <= |raw| && wellFormed
        invariant forall k :: 0 <= k < index ==> raw[k].Some?
      {
        if raw[index].None? {
          wellFormed := false;
          break;
        }
        index := index + 1;
      }
      unavailable := !wellFormed;
      if wellFormed {
        facts := Known(raw);
      }
    }
    for i := |facts| downto 0
      invariant states == IncidentStates(facts[i..]) && degraded == Degraded(facts[i..])
    {
      assert facts[i..] == [facts[i]] + facts[i + 1..];
      var state := IncidentState(facts[i]);
      if state.Some? {
        states := [state.value] + states;
      }
      if facts[i].severity != Sev3 {
        degraded := facts[i].affected + degraded;
      }
    }
    assert facts[0..] == facts;
  }

  // ---------------------------------------------------------- the decision

  datatype Decision = Eligible | Wait | HoldBack | Deny

  datatype Reason =
    | EligibleNow
    | WaitDependency | WaitQualification | WaitMaintenance | WaitHoliday | WaitNight | WaitNotBefore
    | WaitOffDuty | WaitCapacity | WaitApproval
    | HoldSecurity | HoldPolicy | HoldOwner | HoldMaintenance
    | DenyEnvironment | DenyAuthorityMissing | DenyDelegationInvalid | DenyCompanyState
    | DenyWorkforce | DenyResourceIneligible | DenyInputInvalid

  function HoldReason(c: HoldClass): Reason {
    match c
    case SecurityHold => HoldSecurity
    case PolicyHold => HoldPolicy
    case OwnerHold => HoldOwner
    case MaintenanceHold => HoldMaintenance
  }

  /** `#decide`, check by check in its order. */
  function Decide(environment: Id, clock: Time, job: Job, req: Requirement, i: Inputs): (Decision, Reason) {
    if environment != job.environment then (Deny, DenyEnvironment)
    else if req.authorityRef != job.capability then (Deny, DenyAuthorityMissing)
    else if !i.authorityAllows then (Deny, DenyAuthorityMissing)
    else if req.requiresDelegation && !i.delegationValid then (Deny, DenyDelegationInvalid)
    else if i.incidentSeamUnavailable then (Deny, DenyCompanyState)
    else if i.calendarSeamUnavailable then (Wait, WaitDependency)
    else if i.workforceSeamUnavailable then (Deny, DenyWorkforce)
    else if i.workforceIneligible then (Deny, DenyWorkforce)
    else if i.workforceKnown && !i.qualified then (Wait, WaitQualification)
    else if Rank(i.companyState) <= Rank(InfrastructureIncident) && !i.containmentEligible then (Deny, DenyCompanyState)
    else if i.resourceState == UnknownHealth || i.resourceState == UnavailableHealth then (Deny, DenyResourceIneligible)
    else if i.capacity == NoCapacity then (Deny, DenyResourceIneligible)
    else if i.dependency == FailedDependency then (Deny, DenyResourceIneligible)
    else if i.activeHold.Some? then (HoldBack, HoldReason(i.activeHold.value))
    else if i.companyState == Maintenance then (Wait, WaitMaintenance)
    else if i.companyState == Holiday then (Wait, WaitHoliday)
    else if i.companyState == Night then (Wait, WaitNight)
    else if req.notBefore.Some? && clock < req.notBefore.value then (Wait, WaitNotBefore)
    else if i.dependency != Complete then (Wait, WaitDependency)
    else if i.offDuty then (Wait, WaitOffDuty)
    else if i.capacity == Saturated then (Wait, WaitCapacity)
    else if req.requiresApproval && !i.approved then (Wait, WaitApproval)
    else (Eligible, EligibleNow)
  }

  function Evaluate(environment: Id, now: Time, clock: Time, job: Job, req: Requirement, o: Organization): (Decision, Reason) {
    Decide(environment, clock, job, req, InputsOf(o, job, req, now))
  }

  // -------------------------------------------------------------- theorems

  /** Facts of `a` are all among the facts of `b`. */
  ghost predicate Among(a: seq<Fact>, b: seq<Fact>) {
    forall f :: f in a ==> f in b
  }

  lemma MoreFactsNoBetter(o: Organization, o': Organization)
    requires o' == o.(incidents := o'.incidents) && Among(Incidents(o), Incidents(o'))
    ensures Rank(ComposedState(o')) <= Rank(ComposedState(o))
  {
    var a, b := IncidentStates(Incidents(o)), IncidentStates(Incidents(o'));
    forall s | s in a
      ensures s in b
    {
      IncidentStatesIn(Incidents(o), s);
      IncidentStatesIn(Incidents(o'), s);
    }
    MoreInputsWorse(a + OtherStates(o), b + OtherStates(o'));
  }

  lemma MoreInputsWorse(a: seq<CompanyState>, b: seq<CompanyState>)
    requires forall s :: s in a ==> s in b
    requires a != []
    ensures Rank(Worst(b)) <= Rank(Worst(a))
  {
    assert a[0] in a;
    assert Worst(a) in a || Worst(a) == Normal;
  }

  /** Ordinary work is eligible only when the composed Company State is NORMAL. */
  lemma OrdinaryNeedsNormal(environment: Id, now: Time, clock: Time, job: Job, req: Requirement, o: Organization)
    requires req.safetyClass == Ordinary && Evaluate(environment, now, clock, job, req, o).0 == Eligible
    ensures ComposedState(o) == Normal
  {
  }

  /** Eligibility of ordinary work survives taking incident facts away. */
  lemma EligibleWithFewerFacts(environment: Id, now: Time, clock: Time, job: Job, req: Requirement, o: Organization, o': Organization)
    requires req.safetyClass == Ordinary
    requires o' == o.(incidents := o'.incidents) && !IncidentsUnavailable(o) && Among(Incidents(o), Incidents(o'))
    requires Evaluate(environment, now, clock, job, req, o').0 == Eligible
    ensures Evaluate(environment, now, clock, job, req, o).0 == Eligible
  {
    MoreFactsNoBetter(o, o');
    OrdinaryNeedsNormal(environment, now, clock, job, req, o');
    EligibleWhenNormal(environment, now, clock, job, req, o, o');
  }

  /** Put the other way round, adding facts never turns a refusal into ELIGIBLE. */
  lemma IncidentsNeverHelp(environment: Id, now: Time, clock: Time, job: Job, req: Requirement, o: Organization, o': Organization)
    requires req.safetyClass == Ordinary
    requires o' == o.(incidents := o'.incidents) && !IncidentsUnavailable(o) && Among(Incidents(o), Incidents(o'))
    requires Evaluate(environment, now, clock, job, req, o).0 != Eligible
    ensures Evaluate(environment, now, clock, job, req, o').0 != Eligible
  {
    if Evaluate(environment, now, clock, job, req, o').0 == Eligible {
      EligibleWithFewerFacts(environment, now, clock, job, req, o, o');
    }
  }

  lemma EligibleWhenNormal(environment: Id, now: Time, clock: Time, job: Job, req: Requirement, o: Organization, o': Organization)
    requires req.safetyClass == Ordinary
    requires o' == o.(incidents := o'.incidents) && !IncidentsUnavailable(o)
    requires ComposedState(o) == Normal && ComposedState(o') == Normal
    requires Evaluate(environment, now, clock, job, req, o').0 == Eligible
    ensures Evaluate(environment, now, clock, job, req, o).0 == Eligible
  {
    var i, i' := InputsOf(o, job, req, now), InputsOf(o', job, req, now);
    assert i.companyState == Normal && i'.companyState == Normal && !i.incidentSeamUnavailable;
    SameOutsideIncidents(o, o', job, req, now);
    DecisionIgnores(environment, clock, job, req, i, i');
  }

  /** What incident facts can change in the inputs. */
  lemma SameOutsideIncidents(o: Organization, o': Organization, job: Job, req: Requirement, now: Time)
    requires o' == o.(incidents := o'.incidents)
    ensures var i, i' := InputsOf(o, job, req, now), InputsOf(o', job, req, now);
      i == i'.(companyState := i.companyState, incidentSeamUnavailable := i.incidentSeamUnavailable,
               containmentEligible := i.containmentEligible, resourceState := i.resourceState)
      && (i'.resourceState != UnknownHealth && i'.resourceState != UnavailableHealth ==>
            i.resourceState != UnknownHealth && i.resourceState != UnavailableHealth)
  {
  }

  lemma DecisionIgnores(environment: Id, clock: Time, job: Job, req: Requirement, i: Inputs, i': Inputs)
    requires i == i'.(companyState := i.companyState, incidentSeamUnavailable := i.incidentSeamUnavailable,
                      containmentEligible := i.containmentEligible, resourceState := i.resourceState)
    requires i.companyState == Normal && i'.companyState == Normal && !i.incidentSeamUnavailable
    requires i'.resourceState != UnknownHealth && i'.resourceState != UnavailableHealth ==>
      i.resourceState != UnknownHealth && i.resourceState != UnavailableHealth
    requires Decide(environment, clock, job, req, i').0 == Eligible
    ensures Decide(environment, clock, job, req, i).0 == Eligible
  {
  }

  /** Making any configured seam unavailable refuses every safety class. */
  lemma UnavailableSeamRefuses(environment: Id, now: Time, clock: Time, job: Job, req: Requirement, o: Organization)
    requires IncidentsUnavailable(o) || o.calendar.Failed? || WorkforceUnavailable(o, job, now)
    ensures Evaluate(environment, now, clock, job, req, o).0 != Eligible
  {
  }

  /** The restriction to ordinary work is needed: containment work refused
      under SURVIVAL becomes eligible once its own incident is reported. */
  lemma ContainmentMayBecomeEligible() returns (o: Organization, o': Organization, req: Requirement, job: Job)
    ensures o' == o.(incidents := o'.incidents) && !IncidentsUnavailable(o) && Among(Incidents(o), Incidents(o'))
    ensures Evaluate(0, 0, 0, job, req, o) == (Deny, DenyCompanyState)
    ensures Evaluate(0, 0, 0, job, req, o') == (Eligible, EligibleNow)
  {
    job, req := Job(1, 0, 2, 3), Containing(5);
    o, o' := Surviving([]), Surviving([Some(Fact(5, Security, Sev0, {}))]);
    assert Incidents(o) == [];
    assert Incidents(o') == [Fact(5, Security, Sev0, {})];
    SurvivalFrom(o, []);
    SurvivalFrom(o', [Fact(5, Security, Sev0, {})]);
    WithoutReport(o, job);
    WithReport(o', job);
  }

  /** A containment job for one incident, and a company whose stored state is SURVIVAL. */
  function Containing(incident: Id): Requirement {
    Requirement(3, true, false, None, false, None, 4, Some(Healthy), Some(Complete), None, SurvivalCritical, Some(incident))
  }

  function Surviving(facts: seq<Option<Fact>>): Organization {
    Organization(Answered(facts), NotConfigured, NotConfigured, Some(Survival), map[], map[], map[], map[], map[])
  }

  lemma WithoutReport(o: Organization, job: Job)
    requires o == Surviving([]) && ComposedState(o) == Survival && Incidents(o) == [] && job == Job(1, 0, 2, 3)
    ensures Evaluate(0, 0, 0, job, Containing(5), o) == (Deny, DenyCompanyState)
  {
  }

  lemma WithReport(o: Organization, job: Job)
    requires o == Surviving([Some(Fact(5, Security, Sev0, {}))]) && ComposedState(o) == Survival
    requires Incidents(o) == [Fact(5, Security, Sev0, {})] && job == Job(1, 0, 2, 3)
    ensures Evaluate(0, 0, 0, job, Containing(5), o) == (Eligible, EligibleNow)
  {
    assert Fact(5, Security, Sev0, {}) in Incidents(o) && Contains(Incidents(o), 5);
  }

  lemma SurvivalFrom(o: Organization, facts: seq<Fact>)
    requires Incidents(o) == facts && o.calendar.NotConfigured? && o.stored == Some(Survival)
    requires facts == [] || (|facts| == 1 && IncidentState(facts[0]) == Some(Survival))
    ensures ComposedState(o) == Survival
  {
    if facts == [] {
      assert IncidentStates(facts) + OtherStates(o) == [Survival];
    } else {
      assert facts[1..] == [];
      assert IncidentStates(facts) + OtherStates(o) == [Survival, Survival];
    }
  }
}
