// When the Scheduler answers ELIGIBLE, and which refusal comes first, in the
// records of Organizational State, the requirement and the job.

module EligibilityMeaning {
  import opened Common
  import opened Eligibility

  /** One question to the Scheduler: its environment, the trusted instant, its
      clock, the job, what the job requires, and the organization. */
  datatype Case = Case(environment: Id, now: Time, clock: Time, job: Job, req: Requirement, o: Organization)

  function Verdict(c: Case): (Decision, Reason) {
    Evaluate(c.environment, c.now, c.clock, c.job, c.req, c.o)
  }

  predicate Past(expiresAt: Option<Time>, now: Time) {
    match expiresAt
    case None => false
    case Some(at) => at <= now
  }

  // --------------------------------------------------------- Company State

  /** Every entry of the incident seam passed validation. */
  predicate Trustworthy(o: Organization) {
    match o.incidents
    case NotConfigured => true
    case Failed => false
    case Answered(raw) => None !in raw
  }

  predicate OpenIncident(o: Organization, f: Fact) {
    o.incidents.Answered? && Some(f) in o.incidents.facts
  }

  /** Some source reports the state: an open incident, the Calendar, or the stored
      Company State. */
  ghost predicate Reports(o: Organization, s: CompanyState) {
    || (s == Survival && exists f :: OpenIncident(o, f) && f.severity == Sev0)
    || (s == SecurityIncident && exists f :: OpenIncident(o, f) && f.severity == Sev1 && f.class_ == Security)
    || (s == InfrastructureIncident && exists f :: OpenIncident(o, f) && f.severity == Sev1 && f.class_ != Security)
    || o.calendar == Answered(s)
    || o.stored == Some(s)
  }

  /** The states that take precedence over `s`. */
  function Above(s: CompanyState): set<CompanyState> {
    match s
    case Survival => {}
    case SecurityIncident => {Survival}
    case InfrastructureIncident => {Survival, SecurityIncident}
    case Maintenance => {Survival, SecurityIncident, InfrastructureIncident}
    case Holiday => {Survival, SecurityIncident, InfrastructureIncident, Maintenance}
    case Night => {Survival, SecurityIncident, InfrastructureIncident, Maintenance, Holiday}
    case Normal => {Survival, SecurityIncident, InfrastructureIncident, Maintenance, Holiday, Night}
  }

  ghost function Reported(o: Organization): set<CompanyState> {
    set s: CompanyState | Reports(o, s)
  }

  /** The most severe of the reported states; NORMAL needs no report. */
  predicate Leads(reported: set<CompanyState>, s: CompanyState) {
    (s == Normal || s in reported) && Above(s) !! reported
  }

  const INCIDENT_STATES: set<CompanyState> := {Survival, SecurityIncident, InfrastructureIncident}

  lemma TrustworthyMeans(o: Organization)
    ensures Trustworthy(o) <==> !IncidentsUnavailable(o)
  {
    if o.incidents.Answered? {
      var raw := o.incidents.facts;
      if None in raw {
        var i :| 0 <= i < |raw| && raw[i] == None;
        assert !WellFormed(raw);
      } else {
        forall i | 0 <= i < |raw|
          ensures raw[i].Some?
        {
          assert raw[i] in raw;
        }
      }
    }
  }

  lemma OpenMeans(o: Organization, f: Fact)
    requires Trustworthy(o)
    ensures f in Incidents(o) <==> OpenIncident(o, f)
  {
    TrustworthyMeans(o);
    if o.incidents.Answered? {
      var raw := o.incidents.facts;
      if OpenIncident(o, f) {
        var i :| 0 <= i < |raw| && raw[i] == Some(f);
        assert Known(raw)[i] == f;
      }
      if f in Known(raw) {
        var i :| 0 <= i < |raw| && Known(raw)[i] == f;
        assert raw[i] == Some(f);
      }
    }
  }

  lemma ReportedIn(o: Organization, s: CompanyState)
    requires Trustworthy(o)
    ensures s in IncidentStates(Incidents(o)) + OtherStates(o) <==> Reports(o, s) || (s == Normal && o.stored.None?)
  {
    IncidentStatesIn(Incidents(o), s);
    forall f
      ensures f in Incidents(o) <==> OpenIncident(o, f)
    {
      OpenMeans(o, f);
    }
    IncidentReported(o, s);
  }

  lemma IncidentReported(o: Organization, s: CompanyState)
    requires forall f :: f in Incidents(o) <==> OpenIncident(o, f)
    ensures (exists f :: f in Incidents(o) && IncidentState(f) == Some(s)) <==>
      || (s == Survival && exists f :: OpenIncident(o, f) && f.severity == Sev0)
      || (s == SecurityIncident && exists f :: OpenIncident(o, f) && f.severity == Sev1 && f.class_ == Security)
      || (s == InfrastructureIncident && exists f :: OpenIncident(o, f) && f.severity == Sev1 && f.class_ != Security)
  {
    if f :| f in Incidents(o) && IncidentState(f) == Some(s) {
      assert OpenIncident(o, f);
    }
  }

  /** The composed Company State is the most severe one reported. */
  lemma StateMeans(o: Organization)
    requires Trustworthy(o)
    ensures Leads(Reported(o), ComposedState(o))
  {
    var inputs, reported := IncidentStates(Incidents(o)) + OtherStates(o), Reported(o);
    forall t
      ensures t in inputs <==> t in reported || (t == Normal && o.stored.None?)
    {
      ReportedIn(o, t);
    }
    WorstLeads(inputs, reported);
  }

  lemma WorstLeads(inputs: seq<CompanyState>, reported: set<CompanyState>)
    requires forall t :: t in inputs ==> t in reported || t == Normal
    requires forall t :: t in reported ==> t in inputs
    ensures Leads(reported, Worst(inputs))
  {
    AboveRanks(Worst(inputs));
  }

  lemma AboveRanks(s: CompanyState)
    ensures forall t :: t in Above(s) <==> Rank(t) < Rank(s)
  {
  }

  lemma LeaderIsUnique(reported: set<CompanyState>, s: CompanyState, t: CompanyState)
    requires Leads(reported, s) && Leads(reported, t)
    ensures s == t
  {
    AboveRanks(s);
    AboveRanks(t);
  }

  ghost predicate UnderIncident(o: Organization) {
    Reported(o) * INCIDENT_STATES != {}
  }

  /** Work bound to an open incident, of a class that may go on under it. */
  ghost predicate BoundToIncident(c: Case) {
    && (exists f :: OpenIncident(c.o, f) && c.req.incidentRef == Some(f.id))
    && ((c.req.safetyClass == SurvivalCritical && Survival in Reported(c.o))
        || (c.req.safetyClass == IncidentContainment && UnderIncident(c.o)))
  }

  // ------------------------------------------------------------- obstacles

  predicate Delegated(c: Case) {
    && c.req.delegationId.Some? && c.req.delegationId.value in c.o.delegations
    && var d := c.o.delegations[c.req.delegationId.value];
    && d.status == DelegationActive && d.environment == c.job.environment && d.grantee == c.job.worker
    && d.validFrom <= c.now && !Past(d.expiresAt, c.now)
  }

  predicate ApprovedNow(c: Case) {
    && c.req.approvalId.Some? && c.req.approvalId.value in c.o.approvals
    && var a := c.o.approvals[c.req.approvalId.value];
    && a.job == c.job.id && a.status == Approved && !Past(a.expiresAt, c.now)
  }

  /** The Workforce seam answered for this worker and capability, and what it says
      of a qualification is current. */
  predicate WorkforceAnswers(c: Case) {
    && c.o.workforce.Answered?
    && var w := c.o.workforce.facts;
    && w.agent == c.job.worker && w.capability == c.job.capability
    && !(w.qualification == Some(Qualified) && Past(w.expiresAt, c.now))
  }

  function HoldsOf(c: Case): seq<Hold> {
    if c.job.id in c.o.holds then c.o.holds[c.job.id] else []
  }

  predicate InForce(h: Hold, now: Time) { h.active && !Past(h.expiresAt, now) }

  /** Hold `i` is the first one in force. */
  predicate FirstLive(c: Case, i: nat) {
    i < |HoldsOf(c)| && InForce(HoldsOf(c)[i], c.now) && forall k :: 0 <= k < i ==> !InForce(HoldsOf(c)[k], c.now)
  }

  function CapacityOf(c: Case): Capacity {
    if c.req.resource in c.o.capacity then c.o.capacity[c.req.resource] else Usual
  }

  function DutyOf(c: Case): Duty {
    if c.job.worker in c.o.duty then c.o.duty[c.job.worker] else OnDuty
  }

  const CHECKS := 22

  /** What stands in the way, in the order in which it is looked for. */
  ghost predicate Obstacle(c: Case, k: nat) {
    match k
    case 0 => c.environment != c.job.environment
    case 1 => c.req.authorityRef != c.job.capability
    case 2 => !c.req.authorityAllows
    case 3 => c.req.requiresDelegation && !Delegated(c)
    case 4 => !Trustworthy(c.o)
    case 5 => c.o.calendar.Failed?
    case 6 => !c.o.workforce.NotConfigured? && !WorkforceAnswers(c)
    case 7 => c.o.workforce.Answered? && c.o.workforce.facts.globallyIneligible
    case 8 => c.o.workforce.Answered? && c.o.workforce.facts.qualification != Some(Qualified)
    case 9 => UnderIncident(c.o) && !BoundToIncident(c)
    case 10 => c.req.health != Some(Healthy) && c.req.health != Some(DegradedHealth)
    case 11 => CapacityOf(c) == NoCapacity
    case 12 => c.req.dependency == Some(FailedDependency)
    case 13 => exists i: nat :: FirstLive(c, i)
    case 14 => !UnderIncident(c.o) && Maintenance in Reported(c.o)
    case 15 => !UnderIncident(c.o) && Holiday in Reported(c.o)
    case 16 => !UnderIncident(c.o) && Night in Reported(c.o)
    case 17 => c.req.notBefore.Some? && c.clock < c.req.notBefore.value
    case 18 => c.req.dependency != Some(Complete)
    case 19 => DutyOf(c) == OffDuty || DutyOf(c) == OnCall
    case 20 => CapacityOf(c) == Saturated
    case 21 => c.req.requiresApproval && !ApprovedNow(c)
    case _ => false
  }

  /** The answer each obstacle earns; a hold's depends on its class. */
  function AnswerTo(k: nat): (Decision, Reason) {
    match k
    case 0 => (Deny, DenyEnvironment)
    case 1 => (Deny, DenyAuthorityMissing)
    case 2 => (Deny, DenyAuthorityMissing)
    case 3 => (Deny, DenyDelegationInvalid)
    case 4 => (Deny, DenyCompanyState)
    case 5 => (Wait, WaitDependency)
    case 6 => (Deny, DenyWorkforce)
    case 7 => (Deny, DenyWorkforce)
    case 8 => (Wait, WaitQualification)
    case 9 => (Deny, DenyCompanyState)
    case 10 => (Deny, DenyResourceIneligible)
    case 11 => (Deny, DenyResourceIneligible)
    case 12 => (Deny, DenyResourceIneligible)
    case 14 => (Wait, WaitMaintenance)
    case 15 => (Wait, WaitHoliday)
    case 16 => (Wait, WaitNight)
    case 17 => (Wait, WaitNotBefore)
    case 18 => (Wait, WaitDependency)
    case 19 => (Wait, WaitOffDuty)
    case 20 => (Wait, WaitCapacity)
    case 21 => (Wait, WaitApproval)
    case _ => (Eligible, EligibleNow)
  }

  const HOLD_CHECK := 13

  function AnswerToHold(h: HoldClass): (Decision, Reason) {
    (HoldBack, match h case SecurityHold => HoldSecurity case PolicyHold => HoldPolicy case OwnerHold => HoldOwner case MaintenanceHold => HoldMaintenance)
  }

  // ------------------------------------------------- what the inputs say of them

  function InputsFor(c: Case): Inputs {
    InputsOf(c.o, c.job, c.req, c.now)
  }

  lemma StoredFactsMean(c: Case)
    ensures var i := InputsFor(c);
      && i.authorityAllows == c.req.authorityAllows
      && (c.req.requiresDelegation ==> i.delegationValid == Delegated(c))
      && (c.req.requiresApproval ==> i.approved == ApprovedNow(c))
      && i.capacity == CapacityOf(c) && i.offDuty == (DutyOf(c) == OffDuty || DutyOf(c) == OnCall)
      && (i.dependency == Complete <==> c.req.dependency == Some(Complete))
      && (i.dependency == FailedDependency <==> c.req.dependency == Some(FailedDependency))
      && (i.resourceState == UnknownHealth || i.resourceState == UnavailableHealth <==>
           c.req.health != Some(Healthy) && c.req.health != Some(DegradedHealth))
  {
  }

  lemma SeamsMean(c: Case)
    ensures var i := InputsFor(c);
      && i.incidentSeamUnavailable == Obstacle(c, 4) && i.calendarSeamUnavailable == Obstacle(c, 5)
      && i.workforceSeamUnavailable == Obstacle(c, 6)
      && (!Obstacle(c, 6) ==> i.workforceIneligible == Obstacle(c, 7) && (i.workforceKnown && !i.qualified) == Obstacle(c, 8))
  {
    TrustworthyMeans(c.o);
  }

  lemma LeaderUnder(reported: set<CompanyState>, s: CompanyState)
    requires Leads(reported, s)
    ensures s in INCIDENT_STATES <==> reported * INCIDENT_STATES != {}
    ensures s == Survival <==> Survival in reported
  {
    if t :| t in reported * INCIDENT_STATES {
      assert t !in Above(s);
    }
    if s in INCIDENT_STATES {
      assert s in reported * INCIDENT_STATES;
    }
  }

  lemma LeaderBelow(reported: set<CompanyState>, s: CompanyState)
    requires Leads(reported, s) && reported * INCIDENT_STATES == {}
    ensures s == Maintenance <==> Maintenance in reported
    ensures Maintenance !in reported ==> (s == Holiday <==> Holiday in reported)
    ensures Maintenance !in reported && Holiday !in reported ==> (s == Night <==> Night in reported)
  {
    assert Survival !in reported && SecurityIncident !in reported && InfrastructureIncident !in reported by {
      assert forall t :: t in INCIDENT_STATES && t in reported ==> t in reported * INCIDENT_STATES;
    }
  }

  lemma CompanyMeans(c: Case)
    requires Trustworthy(c.o)
    ensures var i := InputsFor(c);
      && (i.companyState in INCIDENT_STATES <==> UnderIncident(c.o))
      && (UnderIncident(c.o) ==> i.containmentEligible == BoundToIncident(c))
  {
    StateMeans(c.o);
    LeaderUnder(Reported(c.o), ComposedState(c.o));
    if c.req.incidentRef.Some? {
      ContainsMeans(c.o, c.req.incidentRef.value);
    }
  }

  lemma ContainsMeans(o: Organization, id: Id)
    requires Trustworthy(o)
    ensures Contains(Incidents(o), id) <==> exists f :: OpenIncident(o, f) && id == f.id
  {
    forall f
      ensures f in Incidents(o) <==> OpenIncident(o, f)
    {
      OpenMeans(o, f);
    }
  }

  /** Outside incidents the lesser states hold one after the other. */
  ghost predicate Calm(c: Case, s: CompanyState) {
    var reported := Reported(c.o);
    && (s == Maintenance <==> !UnderIncident(c.o) && Maintenance in reported)
    && (UnderIncident(c.o) ==> s in INCIDENT_STATES)
    && (Maintenance !in reported ==> (s == Holiday <==> !UnderIncident(c.o) && Holiday in reported))
    && (Maintenance !in reported && Holiday !in reported ==> (s == Night <==> !UnderIncident(c.o) && Night in reported))
  }

  lemma CalmMeans(c: Case)
    requires Trustworthy(c.o)
    ensures Calm(c, InputsFor(c).companyState)
  {
    StateMeans(c.o);
    LeaderUnder(Reported(c.o), ComposedState(c.o));
    if !UnderIncident(c.o) {
      LeaderBelow(Reported(c.o), ComposedState(c.o));
    }
  }

  lemma {:induction false} FirstHoldMeans(holds: seq<Hold>, now: Time, i: nat)
    requires i < |holds| && InForce(holds[i], now) && forall k :: 0 <= k < i ==> !InForce(holds[k], now)
    ensures FirstHold(holds, now) == Some(holds[i].class_)
    decreases i
  {
    if i > 0 {
      assert !InForce(holds[0], now);
      FirstHoldMeans(holds[1..], now, i - 1);
    }
  }

  lemma {:induction false} SomeHoldIsFirst(holds: seq<Hold>, now: Time) returns (i: nat)
    requires FirstHold(holds, now).Some?
    ensures i < |holds| && InForce(holds[i], now) && forall k :: 0 <= k < i ==> !InForce(holds[k], now)
    decreases |holds|
  {
    if InForce(holds[0], now) {
      i := 0;
    } else {
      i := SomeHoldIsFirst(holds[1..], now);
      i := i + 1;
      forall k | 0 <= k < i
        ensures !InForce(holds[k], now)
      {
        assert k > 0 ==> holds[k] == holds[1..][k - 1];
      }
    }
  }

  lemma HoldsMean(c: Case)
    ensures InputsFor(c).activeHold.Some? <==> Obstacle(c, HOLD_CHECK)
    ensures forall i: nat :: FirstLive(c, i) ==> InputsFor(c).activeHold == Some(HoldsOf(c)[i].class_)
  {
    if InputsFor(c).activeHold.Some? {
      var i := SomeHoldIsFirst(HoldsOf(c), c.now);
      assert FirstLive(c, i);
    }
    forall i: nat | FirstLive(c, i)
      ensures InputsFor(c).activeHold == Some(HoldsOf(c)[i].class_)
    {
      FirstHoldMeans(HoldsOf(c), c.now, i);
    }
  }

  // ---------------------------------------------------------- check by check

  /** What the decision asks of its inputs at check `k`. */
  predicate Stops(environment: Id, clock: Time, job: Job, req: Requirement, i: Inputs, k: nat) {
    match k
    case 0 => environment != job.environment
    case 1 => req.authorityRef != job.capability
    case 2 => !i.authorityAllows
    case 3 => req.requiresDelegation && !i.delegationValid
    case 4 => i.incidentSeamUnavailable
    case 5 => i.calendarSeamUnavailable
    case 6 => i.workforceSeamUnavailable
    case 7 => i.workforceIneligible
    case 8 => i.workforceKnown && !i.qualified
    case 9 => i.companyState in INCIDENT_STATES && !i.containmentEligible
    case 10 => i.resourceState == UnknownHealth || i.resourceState == UnavailableHealth
    case 11 => i.capacity == NoCapacity
    case 12 => i.dependency == FailedDependency
    case 13 => i.activeHold.Some?
    case 14 => i.companyState == Maintenance
    case 15 => i.companyState == Holiday
    case 16 => i.companyState == Night
    case 17 => req.notBefore.Some? && clock < req.notBefore.value
    case 18 => i.dependency != Complete
    case 19 => i.offDuty
    case 20 => i.capacity == Saturated
    case 21 => req.requiresApproval && !i.approved
    case _ => false
  }

  /** The first check that stops decides. */
  lemma FirstStopDecides(environment: Id, clock: Time, job: Job, req: Requirement, i: Inputs, k: nat)
    requires k <= CHECKS && forall j: nat {:trigger Stops(environment, clock, job, req, i, j)} :: j < k ==> !Stops(environment, clock, job, req, i, j)
    requires k < CHECKS ==> Stops(environment, clock, job, req, i, k)
    ensures Decide(environment, clock, job, req, i) == if k == HOLD_CHECK then AnswerToHold(i.activeHold.value) else AnswerTo(k)
  {
    assert k > 0 ==> !Stops(environment, clock, job, req, i, 0);
    assert k > 1 ==> !Stops(environment, clock, job, req, i, 1);
    assert k > 2 ==> !Stops(environment, clock, job, req, i, 2);
    assert k > 3 ==> !Stops(environment, clock, job, req, i, 3);
    assert k > 4 ==> !Stops(environment, clock, job, req, i, 4);
    assert k > 5 ==> !Stops(environment, clock, job, req, i, 5);
    assert k > 6 ==> !Stops(environment, clock, job, req, i, 6);
    assert k > 7 ==> !Stops(environment, clock, job, req, i, 7);
    assert k > 8 ==> !Stops(environment, clock, job, req, i, 8);
    assert k > 9 ==> !Stops(environment, clock, job, req, i, 9);
    assert k > 10 ==> !Stops(environment, clock, job, req, i, 10);
    assert k > 11 ==> !Stops(environment, clock, job, req, i, 11);
    assert k > 12 ==> !Stops(environment, clock, job, req, i, 12);
    assert k > 13 ==> !Stops(environment, clock, job, req, i, 13);
    assert k > 14 ==> !Stops(environment, clock, job, req, i, 14);
    assert k > 15 ==> !Stops(environment, clock, job, req, i, 15);
    assert k > 16 ==> !Stops(environment, clock, job, req, i, 16);
    assert k > 17 ==> !Stops(environment, clock, job, req, i, 17);
    assert k > 18 ==> !Stops(environment, clock, job, req, i, 18);
    assert k > 19 ==> !Stops(environment, clock, job, req, i, 19);
    assert k > 20 ==> !Stops(environment, clock, job, req, i, 20);
    assert k > 21 ==> !Stops(environment, clock, job, req, i, 21);
  }

  /** Nothing stands in the way before check `k`. */
  ghost predicate Clear(c: Case, k: nat) {
    forall i: nat {:trigger Obstacle(c, i)} :: i < k ==> !Obstacle(c, i)
  }

  ghost predicate StopsFor(c: Case, k: nat) {
    Stops(c.environment, c.clock, c.job, c.req, InputsFor(c), k)
  }

  lemma StopsOnSeam(c: Case, k: nat)
    requires 4 <= k <= 8 && Clear(c, k)
    ensures StopsFor(c, k) <==> Obstacle(c, k)
  {
    assert k > 6 ==> !Obstacle(c, 6);
    SeamsMean(c);
  }

  lemma StopsOnCompany(c: Case)
    requires Clear(c, 9)
    ensures StopsFor(c, 9) <==> Obstacle(c, 9)
  {
    assert !Obstacle(c, 4);
    CompanyMeans(c);
  }

  lemma CalmStops(c: Case, i: Inputs, k: nat)
    requires 14 <= k <= 16 && Calm(c, i.companyState)
    requires (k > 14 ==> !Obstacle(c, 14)) && (k > 15 ==> !Obstacle(c, 15))
    ensures Stops(c.environment, c.clock, c.job, c.req, i, k) <==> Obstacle(c, k)
  {
  }

  lemma StopsOnCalm(c: Case, k: nat)
    requires 14 <= k <= 16 && Clear(c, k)
    ensures StopsFor(c, k) <==> Obstacle(c, k)
  {
    assert !Obstacle(c, 4);
    assert (k > 14 ==> !Obstacle(c, 14)) && (k > 15 ==> !Obstacle(c, 15));
    CalmMeans(c);
    CalmStops(c, InputsFor(c), k);
  }

  lemma StopsOnStored(c: Case, k: nat)
    requires k < CHECKS && !(4 <= k <= 9) && !(13 <= k <= 16)
    ensures StopsFor(c, k) <==> Obstacle(c, k)
  {
    StoredFactsMean(c);
  }

  /** With nothing in the way before it, a check stops exactly on its obstacle. */
  lemma StopsOnObstacle(c: Case, k: nat)
    requires k < CHECKS && Clear(c, k)
    ensures StopsFor(c, k) <==> Obstacle(c, k)
  {
    if 4 <= k <= 8 {
      StopsOnSeam(c, k);
    } else if k == 9 {
      StopsOnCompany(c);
    } else if 14 <= k <= 16 {
      StopsOnCalm(c, k);
    } else if k == HOLD_CHECK {
      HoldsMean(c);
    } else {
      StopsOnStored(c, k);
    }
  }

  lemma ClearPasses(c: Case, k: nat)
    requires k <= CHECKS && Clear(c, k)
    ensures forall j: nat {:trigger Stops(c.environment, c.clock, c.job, c.req, InputsFor(c), j)} ::
              j < k ==> !Stops(c.environment, c.clock, c.job, c.req, InputsFor(c), j)
  {
    forall j: nat | j < k
      ensures !Stops(c.environment, c.clock, c.job, c.req, InputsFor(c), j)
    {
      assert Clear(c, j) && !Obstacle(c, j);
      StopsOnObstacle(c, j);
    }
  }

  // -------------------------------------------------------------- theorems

  /** The answer to any question is that of its first obstacle. */
  lemma FirstObstacleDecides(c: Case, k: nat)
    requires k < CHECKS && Clear(c, k) && Obstacle(c, k)
    ensures k != HOLD_CHECK ==> Verdict(c) == AnswerTo(k)
    ensures k == HOLD_CHECK ==> forall i: nat :: FirstLive(c, i) ==> Verdict(c) == AnswerToHold(HoldsOf(c)[i].class_)
  {
    ClearPasses(c, k);
    StopsOnObstacle(c, k);
    FirstStopDecides(c.environment, c.clock, c.job, c.req, InputsFor(c), k);
    if k == HOLD_CHECK {
      HoldsMean(c);
    }
  }

  /** ELIGIBLE if and only if nothing stands in the way. */
  lemma EligibleIffClear(c: Case)
    ensures Verdict(c).0 == Eligible <==> Clear(c, CHECKS)
    ensures Verdict(c).0 == Eligible ==> Verdict(c) == (Eligible, EligibleNow)
  {
    if Clear(c, CHECKS) {
      ClearPasses(c, CHECKS);
      FirstStopDecides(c.environment, c.clock, c.job, c.req, InputsFor(c), CHECKS);
    } else {
      var k := FirstObstacle(c, CHECKS);
      FirstObstacleDecides(c, k);
      if k == HOLD_CHECK {
        var i: nat :| FirstLive(c, i);
      }
    }
  }

  lemma {:induction false} FirstObstacle(c: Case, n: nat) returns (k: nat)
    requires !Clear(c, n)
    ensures k < n && Clear(c, k) && Obstacle(c, k)
  {
    if n > 0 && !Clear(c, n - 1) {
      k := FirstObstacle(c, n - 1);
    } else {
      k := n - 1;
    }
  }

  /** The job is of this environment, its capability is authorized, and what it
      needs by way of delegation and approval is in force, for this very job. */
  predicate Authorized(c: Case) {
    && c.environment == c.job.environment
    && c.req.authorityRef == c.job.capability && c.req.authorityAllows
    && (c.req.requiresDelegation ==>
         && c.req.delegationId.Some? && c.req.delegationId.value in c.o.delegations
         && var d := c.o.delegations[c.req.delegationId.value];
         && d.status == DelegationActive && d.environment == c.job.environment && d.grantee == c.job.worker
         && d.validFrom <= c.now && (d.expiresAt.Some? ==> c.now < d.expiresAt.value))
    && (c.req.requiresApproval ==>
         && c.req.approvalId.Some? && c.req.approvalId.value in c.o.approvals
         && var a := c.o.approvals[c.req.approvalId.value];
         && a.job == c.job.id && a.status == Approved && (a.expiresAt.Some? ==> c.now < a.expiresAt.value))
  }

  /** Every seam that is wired answers usably, and Workforce finds the worker
      eligible and currently qualified. */
  predicate Staffed(c: Case) {
    && Trustworthy(c.o) && !c.o.calendar.Failed?
    && match c.o.workforce
       case NotConfigured => true
       case Failed => false
       case Answered(w) =>
         && w.agent == c.job.worker && w.capability == c.job.capability && !w.globallyIneligible
         && w.qualification == Some(Qualified) && (w.expiresAt.Some? ==> c.now < w.expiresAt.value)
  }

  /** The resource is healthy and has room, dependencies are complete, nothing
      holds the job, its time has come and its worker is on duty. */
  ghost predicate Ready(c: Case) {
    && (c.req.health == Some(Healthy) || c.req.health == Some(DegradedHealth))
    && (c.req.resource in c.o.capacity ==> c.o.capacity[c.req.resource] != Saturated && c.o.capacity[c.req.resource] != NoCapacity)
    && c.req.dependency == Some(Complete)
    && (c.job.id in c.o.holds ==> forall h :: h in c.o.holds[c.job.id] ==> !h.active || (h.expiresAt.Some? && h.expiresAt.value <= c.now))
    && (c.req.notBefore.Some? ==> c.req.notBefore.value <= c.clock)
    && (c.job.worker in c.o.duty ==> c.o.duty[c.job.worker] != OffDuty && c.o.duty[c.job.worker] != OnCall)
  }

  /** The company is in NORMAL, or the work is bound to an incident it is in. */
  ghost predicate Permitted(c: Case) {
    if UnderIncident(c.o) then BoundToIncident(c) else Reported(c.o) <= {Normal}
  }

  lemma ClearAuthorizes(c: Case)
    requires Clear(c, CHECKS)
    ensures Authorized(c)
  {
    assert !Obstacle(c, 0) && !Obstacle(c, 1) && !Obstacle(c, 2);
    assert !Obstacle(c, 3);
    assert !Obstacle(c, 21);
  }

  lemma ClearStaffs(c: Case)
    requires Clear(c, CHECKS)
    ensures Staffed(c)
  {
    assert !Obstacle(c, 4) && !Obstacle(c, 5);
    assert !Obstacle(c, 6) && !Obstacle(c, 7) && !Obstacle(c, 8);
  }

  lemma ClearReadies(c: Case)
    requires Clear(c, CHECKS)
    ensures Ready(c)
  {
    assert !Obstacle(c, 10) && !Obstacle(c, 11) && !Obstacle(c, 18);
    assert !Obstacle(c, HOLD_CHECK);
    assert !Obstacle(c, 17) && !Obstacle(c, 19) && !Obstacle(c, 20);
    HoldsClear(c);
    if c.job.id in c.o.holds {
      forall h | h in c.o.holds[c.job.id]
        ensures !h.active || (h.expiresAt.Some? && h.expiresAt.value <= c.now)
      {
        assert h in HoldsOf(c) && !InForce(h, c.now);
      }
    }
  }

  lemma ClearPermits(c: Case)
    requires Clear(c, CHECKS)
    ensures Permitted(c)
  {
    assert !Obstacle(c, 9);
    if !UnderIncident(c.o) {
      assert !Obstacle(c, 14) && !Obstacle(c, 15) && !Obstacle(c, 16);
      OnlyNormal(c.o);
    }
  }

  lemma NoObstacle(c: Case, k: nat)
    requires Authorized(c) && Staffed(c) && Ready(c) && Permitted(c)
    ensures !Obstacle(c, k)
  {
    if k == HOLD_CHECK {
      HoldsClear(c);
    } else if 14 <= k <= 16 && !UnderIncident(c.o) {
      OnlyNormal(c.o);
    }
  }

  /** The Scheduler answers ELIGIBLE if and only if the job is authorized, staffed
      and ready, and the company permits it. */
  lemma EligibleIff(c: Case)
    ensures Verdict(c).0 == Eligible <==> Authorized(c) && Staffed(c) && Ready(c) && Permitted(c)
  {
    EligibleIffClear(c);
    if Clear(c, CHECKS) {
      ClearAuthorizes(c);
      ClearStaffs(c);
      ClearReadies(c);
      ClearPermits(c);
    } else if Authorized(c) && Staffed(c) && Ready(c) && Permitted(c) {
      forall k: nat | k < CHECKS
        ensures !Obstacle(c, k)
      {
        NoObstacle(c, k);
      }
    }
  }

  lemma HoldsClear(c: Case)
    ensures Obstacle(c, HOLD_CHECK) <==> exists h :: h in HoldsOf(c) && InForce(h, c.now)
  {
    if h :| h in HoldsOf(c) && InForce(h, c.now) {
      var i: nat :| i < |HoldsOf(c)| && HoldsOf(c)[i] == h;
      var k := FirstLiveUpTo(c, i);
      assert FirstLive(c, k);
    }
    if i: nat :| FirstLive(c, i) {
      assert HoldsOf(c)[i] in HoldsOf(c);
    }
  }

  lemma {:induction false} FirstLiveUpTo(c: Case, i: nat) returns (k: nat)
    requires i < |HoldsOf(c)| && InForce(HoldsOf(c)[i], c.now)
    ensures FirstLive(c, k)
  {
    if j: nat :| j < i && InForce(HoldsOf(c)[j], c.now) {
      k := FirstLiveUpTo(c, j);
    } else {
      k := i;
    }
  }

  lemma OnlyNormal(o: Organization)
    requires !UnderIncident(o)
    ensures Reported(o) <= {Normal} <==> Maintenance !in Reported(o) && Holiday !in Reported(o) && Night !in Reported(o)
  {
    assert forall s :: s in Reported(o) && s in INCIDENT_STATES ==> s in Reported(o) * INCIDENT_STATES;
  }

  /** The resource that is reported: degraded by any open incident that affects it,
      short of the mildest severity, and never better than its own health. */
  lemma ResourceMeans(o: Organization, req: Requirement)
    requires Trustworthy(o)
    ensures var affected := exists f :: OpenIncident(o, f) && f.severity != Sev3 && req.resource in f.affected;
      ResourceState(Incidents(o), req) ==
        match req.health
        case None => UnknownHealth
        case Some(Healthy) => if affected then DegradedHealth else Healthy
        case Some(h) => h
  {
    forall f
      ensures f in Incidents(o) <==> OpenIncident(o, f)
    {
      OpenMeans(o, f);
    }
  }
}
