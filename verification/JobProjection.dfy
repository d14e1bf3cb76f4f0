// Job projections: how a transition list replays, what every store call keeps
// of a job, and exactly which raw store calls would break it.

module JobProjection {
  import opened Common
  import opened RelayStore

  // ------------------------------------------------------ job projections

  /** The state a transition list replays to from SUBMITTED, if it replays. */
  function StateAfter(e: Envelope, ts: seq<Transition>): Option<JobState>
    decreases |ts|
  {
    if ts == [] then Some(Submitted)
    else
      var last := ts[|ts| - 1];
      if StateAfter(e, ts[..|ts| - 1]) == Some(last.from) && ValidTransition(last)
         && last.job == e.job && last.trace == e.trace && last.environment == e.environment
      then Some(last.to) else None
  }

  predicate ValidProjection(j: Job) {
    ValidEnvelope(j.envelope) && StateAfter(j.envelope, j.transitions) == Some(j.state)
  }

  lemma {:induction false} BrokenStaysBroken(e: Envelope, ts: seq<Transition>, k: nat)
    requires k <= |ts| && StateAfter(e, ts[..k]).None?
    ensures StateAfter(e, ts).None?
    decreases |ts|
  {
    if k == |ts| {
      assert ts[..k] == ts;
    } else {
      assert ts[..|ts| - 1][..k] == ts[..k];
      BrokenStaysBroken(e, ts[..|ts| - 1], k);
    }
  }

  /** Memory's check of a job it is handed, as the loop it is. */
  method ValidJobProjection(j: Job) returns (ok: bool)
    ensures ok <==> ValidProjection(j)
  {
    if !ValidEnvelope(j.envelope) {
      return false;
    }
    var state := Submitted;
    for i := 0 to |j.transitions|
      invariant StateAfter(j.envelope, j.transitions[..i]) == Some(state)
    {
      var t := j.transitions[i];
      assert j.transitions[..i + 1][..i] == j.transitions[..i];
      if !ValidTransition(t) || t.job != j.envelope.job || t.trace != j.envelope.trace
         || t.environment != j.envelope.environment || t.from != state {
        BrokenStaysBroken(j.envelope, j.transitions, i + 1);
        return false;
      }
      state := t.to;
    }
    assert j.transitions[..|j.transitions|] == j.transitions;
    return state == j.state;
  }

  function StageOf(s: JobState): nat {
    match s case Submitted => 0 case Accepted => 1 case Running => 2 case Completed => 3 case Failed => 3
  }

  /** A list that replays is one walk down the lifecycle: one transition per
      stage, so its length is the stage it reached. */
  lemma {:induction false} ReplayLength(e: Envelope, ts: seq<Transition>)
    requires StateAfter(e, ts).Some?
    ensures |ts| == StageOf(StateAfter(e, ts).value)
    ensures forall k :: 0 <= k < |ts| ==> StageOf(ts[k].from) == k && StageOf(ts[k].to) == k + 1
    decreases |ts|
  {
    if ts != [] {
      var front := ts[..|ts| - 1];
      ReplayLength(e, front);
      forall k | 0 <= k < |ts|
        ensures StageOf(ts[k].from) == k && StageOf(ts[k].to) == k + 1
      {
        if k < |ts| - 1 {
          assert front[k] == ts[k];
        }
      }
    }
  }

  // --------------------------------------------- one job under the service

  /** What the service keeps of every job, beyond the store's own invariant. */
  predicate ServiceJob(environment: Id, id: Id, j: Job) {
    && JobOk(id, j)
    && j.envelope.environment == environment
    && ValidProjection(j)
    && (Terminal(j.state) <==> j.result.Some?)
    && (j.result.Some? ==> j.result.value.state == j.state)
  }

  ghost predicate ServiceJobs(environment: Id, jobs: map<Id, Job>) {
    forall id {:trigger jobs[id]} :: id in jobs ==> ServiceJob(environment, id, jobs[id])
  }

  /** What the service never asks of the store. */
  predicate CallOk(environment: Id, c: Call) {
    match c
    case Claim(_, _, candidate) => candidate.environment == environment
    case Apply(_, t) => !ValidTransition(t) || !Terminal(t.to)
    case Commit(_, t, _) => t.environment == environment
    case _ => true
  }

  lemma ReplayExtends(e: Envelope, ts: seq<Transition>, t: Transition)
    ensures StateAfter(e, ts + [t]) ==
      if StateAfter(e, ts) == Some(t.from) && ValidTransition(t)
         && t.job == e.job && t.trace == e.trace && t.environment == e.environment
      then Some(t.to) else None
  {
    assert (ts + [t])[..|ts|] == ts;
  }

  lemma JobKeeps(environment: Id, id: Id, j: Job, c: Call, s: Store)
    requires ServiceJob(environment, id, j) && !c.Claim? && CallOk(environment, c)
    ensures ServiceJob(environment, id, OnJob(j, c, s).0)
  {
    OnJobKeeps(id, j, c, s);
    match c
    case Apply(_, t) => ReplayExtends(j.envelope, j.transitions, t);
    case Commit(_, t, _) => ReplayExtends(j.envelope, j.transitions, t);
    case _ =>
  }

  lemma CallKeeps(environment: Id, s: Store, c: Call)
    requires ServiceJobs(environment, s.jobs) && CallOk(environment, c)
    ensures ServiceJobs(environment, Step(s, c).0.jobs)
  {
    if !c.Claim? && c.job in s.jobs {
      JobKeeps(environment, c.job, s.jobs[c.job], c, s);
    }
  }

  // ------------------------------------- exactly what the raw store allows

  /** `commitTerminalResult` does not compare environments: for a good job, an
      accepted commit keeps the projection valid if and only if the transition
      carries the job's own environment. */
  lemma CommitKeepsProjectionIff(environment: Id, id: Id, j: Job, t: Transition, r: Result)
    requires ServiceJob(environment, id, j) && Committable(j, t, r)
    ensures CommitTo(j, t, r, false).1 == Committed
    ensures ValidProjection(CommitTo(j, t, r, false).0) <==> t.environment == j.envelope.environment
  {
    ReplayExtends(j.envelope, j.transitions, t);
  }

  /** `applyTransition` accepts a terminal transition without a result: an
      applied transition keeps "terminal exactly when there is a result" if and
      only if it is not itself terminal. */
  lemma ApplyKeepsResultIff(environment: Id, id: Id, j: Job, t: Transition)
    requires ServiceJob(environment, id, j) && ApplyTo(j, t).1 == Applied
    ensures var j' := ApplyTo(j, t).0;
      (Terminal(j'.state) <==> j'.result.Some?) <==> !Terminal(t.to)
  {
  }

  lemma ReplayDecides(s: Store, e: Envelope)
    requires e.job in s.jobs && s.jobs[e.job] == NewJob(e) && !s.failClaim
    ensures e.job in Run(s, Replay(e)).jobs
    ensures var j := Run(s, Replay(e)).jobs[e.job];
      && j.envelope == e && j.state == Running && j.execution == Some(0) && j.invocationClaimed
      && j.decision == Some(Replay(e)[2].decision) && j.invocation.None?
  {
    var calls := Replay(e);
    ReplayStarts(s, e);
    var s2 := Run(s, calls[..2]);
    RunExtends(s, calls[..2], calls[2]);
    assert calls[..2] + [calls[2]] == calls[..3];
    var j3 := RecordTo(s2.jobs[e.job], calls[2].request, calls[2].decision).0;
    assert Run(s, calls[..3]).jobs[e.job] == j3;
    RunExtends(s, calls[..3], calls[3]);
    assert calls[..3] + [calls[3]] == calls;
  }

  lemma {:induction false} ReplayKeeps(environment: Id, s: Store, e: Envelope, n: nat)
    requires n <= 4 && ServiceJobs(environment, s.jobs)
    ensures ServiceJobs(environment, Run(s, Replay(e)[..n]).jobs)
  {
    if n > 0 {
      ReplayKeeps(environment, s, e, n - 1);
      RunExtends(s, Replay(e)[..n - 1], Replay(e)[n - 1]);
      assert Replay(e)[..n - 1] + [Replay(e)[n - 1]] == Replay(e)[..n];
      CallKeeps(environment, Run(s, Replay(e)[..n - 1]), Replay(e)[n - 1]);
    }
  }

  /** A run that claims a job from `e` and takes it to a worker invocation. */
  function Invoked(e: Envelope): seq<Call> {
    [Claim(0, e.fingerprint, e)] + Replay(e)
  }

  lemma InvokedJob(e: Envelope)
    requires ValidEnvelope(e)
    ensures var jobs := Run(Empty(false, false), Invoked(e)).jobs;
      && e.job in jobs && ServiceJob(e.environment, e.job, jobs[e.job])
      && jobs[e.job].envelope == e && jobs[e.job].state == Running && jobs[e.job].execution == Some(0)
      && jobs[e.job].invocationClaimed && jobs[e.job].invocation.None?
      && jobs[e.job].decision == Some(Replay(e)[2].decision)
  {
    var s0, claim := Empty(false, false), Claim(0, e.fingerprint, e);
    RunExtends(s0, [], claim);
    assert [] + [claim] == [claim];
    CallKeeps(e.environment, s0, claim);
    var s1 := Run(s0, [claim]);
    RunJoins(s0, [claim], Replay(e));
    ReplayDecides(s1, e);
    ReplayKeeps(e.environment, s1, e, 4);
    assert Replay(e)[..4] == Replay(e);
  }

  /** Both gaps are reachable: from the same good running job, one direct store
      call ends it with no result, and another commits from a foreign
      environment and leaves a projection that Memory refuses. */
  lemma RawStoreGaps(e: Envelope, other: Id)
    requires ValidEnvelope(e) && other != e.environment
    ensures e.job in Run(Empty(false, false), Invoked(e)).jobs
    ensures var j := Run(Empty(false, false), Invoked(e)).jobs[e.job];
      var t := Transition(0, e.environment, e.trace, e.span, e.job, Some(0), Running, Failed, WorkerFailed);
      var r := Result(0, e.environment, e.trace, e.span, e.job, 0, Failed, WorkerUnavailable, ByWorker(Some(0)));
      && Terminal(ApplyTo(j, t).0.state) && ApplyTo(j, t).0.result.None?
      && CommitTo(j, t.(environment := other), r, false).1 == Committed
      && !ValidProjection(CommitTo(j, t.(environment := other), r, false).0)
  {
    InvokedJob(e);
    var j := Run(Empty(false, false), Invoked(e)).jobs[e.job];
    var t := Transition(0, e.environment, e.trace, e.span, e.job, Some(0), Running, Failed, WorkerFailed);
    var r := Result(0, e.environment, e.trace, e.span, e.job, 0, Failed, WorkerUnavailable, ByWorker(Some(0)));
    assert Committable(j, t.(environment := other), r);
    CommitKeepsProjectionIff(e.environment, e.job, j, t.(environment := other), r);
  }
}
