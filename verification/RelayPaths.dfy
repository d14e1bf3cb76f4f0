// What an undisturbed call of Relay's service does from its first segment to its
// last, and who may start a job.

module RelayPaths {
  import opened Common
  import opened RelayStore
  import opened JobProjection
  import opened RelayService
  import opened GatewayMeaning
  import opened RelayLaws

  /** One turn of a thread. */
  function Turn(c: Config, s: System, tid: Id, w: World): System {
    Next(c, s, Advance(tid, w))
  }

  // ---------------------------------------------------------------- accept

  /** A submission in a free namespace, left alone, files its job there and has it
      ACCEPTED, stamped with the service's environment. */
  lemma UndisturbedAccept(c: Config, s: System, tid: Id, e: Envelope, n: Id, w: World, w': World)
    requires Stands(s, tid, Submitting(e, n)) && n !in s.store.namespaces
    ensures var s' := Turn(c, Turn(c, s, tid, w), tid, w');
      && s'.store.namespaces == s.store.namespaces[n := e.job] && Stands(s', tid, Done) && s'.invoked == s.invoked
      && e.job in s'.store.jobs && s'.store.jobs == s.store.jobs[e.job := s'.store.jobs[e.job]]
      && var j := s'.store.jobs[e.job];
      && j.state == Accepted && j.revision == 2 && j.request.None? && j.decision.None? && j.invocation.None? && j.result.None?
      && j.envelope == e.(environment := c.environment, execution := e.execution.(capability := e.capability))
      && |j.transitions| == 1 && j.transitions[0].from == Submitted && j.transitions[0].to == Accepted
  {
    var stamped := Stamped(c, e);
    var s1 := Turn(c, s, tid, w);
    assert s1.store == s.store.(namespaces := s.store.namespaces[n := e.job], jobs := s.store.jobs[e.job := NewJob(stamped)]);
    assert Stands(s1, tid, Accepting(stamped));
    var t := CallOf(c, Accepting(stamped), w').value.transition;
    assert ApplyTo(NewJob(stamped), t) == (NewJob(stamped).(transitions := [t], state := Accepted, revision := 2), Applied) by {
      assert [] + [t] == [t];
    }
  }

  /** A submission in a filed namespace files nothing and starts nothing, whatever
      it carries. */
  lemma LaterSubmission(c: Config, s: System, tid: Id, e: Envelope, n: Id, w: World, again: Envelope)
    requires Stands(s, tid, Submitting(again, n)) && Filed(s.store, n, e)
    ensures var s' := Turn(c, s, tid, w);
      s'.store == s.store && s'.invoked == s.invoked && Stands(s', tid, Done)
  {
    LaterClaim(s.store, n, e, again.fingerprint, Stamped(c, again));
  }

  // --------------------------------------------------------------- starting

  /** Waiting in ACCEPTED, with nothing claimed for it. */
  predicate Waits(s: Store, id: Id) {
    && id in s.jobs && s.jobs[id].envelope.job == id
    && var j := s.jobs[id];
    && j.state == Accepted && j.execution.None? && j.request.None? && j.decision.None?
    && j.invocation.None? && !j.contextClaimed && !j.invocationClaimed && !j.modelClaimed
  }

  /** The job now runs as execution `x`. */
  predicate RunsAs(s: Store, s': Store, id: Id, x: Id) {
    && id in s.jobs && id in s'.jobs
    && var (j, j') := (s.jobs[id], s'.jobs[id]);
    && j'.state == Running && j'.execution == Some(x) && |j'.transitions| == |j.transitions| + 1
    && j' == j.(state := Running, execution := Some(x), transitions := j'.transitions, revision := j'.revision)
    && s' == s.(jobs := s.jobs[id := j'])
  }

  lemma RunningApplies(c: Config, j: Job, w: World)
    requires j.state == Accepted && j.execution.None? && j.envelope.environment == c.environment
    ensures var t := RunningCall(c, j, w).transition;
      ApplyTo(j, t) == (j.(execution := Some(w.execution), transitions := j.transitions + [t], state := Running, revision := j.revision + 1), Applied)
  {
  }

  /** Left alone, `execute` starts a waiting job exactly when the Scheduler lets
      it; otherwise nothing is changed. */
  lemma UndisturbedStart(c: Config, s: System, tid: Id, id: Id, w: World, w': World)
    requires Stands(s, tid, Executing(id)) && Waits(s.store, id) && s.store.jobs[id].envelope.environment == c.environment
    ensures var s' := Turn(c, Turn(c, s, tid, w), tid, w');
      && s'.invoked == s.invoked
      && (w'.proceed ==> RunsAs(s.store, s'.store, id, w'.execution) && Stands(s', tid, Started(s.store.jobs[id], w'.execution)))
      && (!w'.proceed ==> s'.store == s.store && Stands(s', tid, Done))
  {
    var j := s.store.jobs[id];
    assert Turn(c, s, tid, w) == s.(threads := s.threads[tid := Admitted(j)]);
    RunningApplies(c, j, w');
  }

  lemma OnlyAppliedStarts(j: Job, call: Call, s: Store)
    requires !call.Claim? && j.state == Accepted && OnJob(j, call, s).0.state == Running
    ensures call.Apply? && ValidTransition(call.transition) && call.transition.to == Running
  {
  }

  lemma OnlyAdmittedStarts(c: Config, t: Thread, w: World)
    requires var call := CallOf(c, t, w);
      call.Some? && call.value.Apply? && ValidTransition(call.value.transition) && call.value.transition.to == Running
    ensures (t.Admitted? && w.proceed) || (t.Preparing? && w.built && w.proceed)
    ensures CallOf(c, t, w).value.job == t.job.envelope.job
  {
  }

  /** A job only goes from ACCEPTED to RUNNING in a call that the Scheduler let
      proceed, on the model path after its context was built. */
  lemma StartsOnlyWhenTold(c: Config, s: System, e: Event, id: Id)
    requires id in s.store.jobs && id in Next(c, s, e).store.jobs
    requires s.store.jobs[id].state == Accepted && Next(c, s, e).store.jobs[id].state == Running
    ensures e.Advance? && e.thread in s.threads && e.world.proceed
    ensures var t := s.threads[e.thread];
      (t.Admitted? && t.job.envelope.job == id) || (t.Preparing? && t.job.envelope.job == id && e.world.built)
  {
    var t := s.threads[e.thread];
    var call := CallOf(c, t, e.world).value;
    OnlyAppliedStarts(s.store.jobs[id], call, s.store);
    OnlyAdmittedStarts(c, t, e.world);
  }

  // ------------------------------------------------------------- model path

  function ModelOutcomeFor(a: ModelAnswer): Outcome {
    if a == Succeeded then StatusAvailable else if a == RelayService.Rejected(false) then WorkerUnavailable else WorkerInvalid
  }

  /** The model is called once, for the job as it runs. */
  lemma ModelInvokes(c: Config, s: System, tid: Id, w: World, j: Job, x: Id)
    requires Stands(s, tid, ModelStarted(j, x)) && j.envelope.job in s.store.jobs && !s.store.failClaim
    requires var k := s.store.jobs[j.envelope.job];
      k.envelope == j.envelope && k.state == Running && k.execution == Some(x) && k.decision.None? && k.invocation.None? && !k.invocationClaimed
    ensures var (s', id) := (Turn(c, s, tid, w), j.envelope.job);
      && s'.invoked == s.invoked + multiset{id} && s'.store.failCommit == s.store.failCommit && id in s'.store.jobs
      && var k := s'.store.jobs[id];
      && k.invocation.Some? && k.invocation.value.id == w.event && k.modelClaimed && k.decision.None?
      && k.state == Running && k.execution == Some(x) && k.envelope == j.envelope
      && Stands(s', tid, Inferring(k.invocation.value)) && Inferred(k)
  {
  }

  predicate Inferred(k: Job) {
    k.invocation.Some? && k.execution.Some? && MatchesModelEnvelope(k, k.invocation.value)
  }

  /** Its answer ends the job. */
  lemma ModelEnds(c: Config, s: System, tid: Id, w: World, id: Id)
    requires id in s.store.jobs && s.store.jobs[id].envelope.job == id && Inferred(s.store.jobs[id]) && !s.store.failCommit
    requires var k := s.store.jobs[id]; k.state == Running && k.modelClaimed && k.decision.None?
    requires Stands(s, tid, Inferring(s.store.jobs[id].invocation.value))
    ensures var s' := Turn(c, s, tid, w);
      && s'.invoked == s.invoked && Stands(s', tid, Done)
      && EndedWith(s'.store, id, ModelOutcomeFor(w.model), ReasonOf(ModelOutcomeFor(w.model)))
  {
  }

  /** Two turns claim the context of a waiting job, if the Scheduler lets it. */
  lemma ModelPrepares(c: Config, s: System, tid: Id, id: Id, w: World, w': World)
    requires Stands(s, tid, ModelExecuting(id)) && Waits(s.store, id)
    ensures var (s', j) := (Turn(c, Turn(c, s, tid, w), tid, w'), s.store.jobs[id]);
      && s'.invoked == s.invoked
      && (!w'.proceed ==> s'.store == s.store && Stands(s', tid, Done))
      && (w'.proceed ==>
           && s'.store == s.store.(jobs := s.store.jobs[id := j.(contextClaimed := true, revision := j.revision + 1)])
           && Stands(s', tid, Preparing(j)))
  {
    assert Turn(c, s, tid, w) == s.(threads := s.threads[tid := ModelAdmitted(s.store.jobs[id])]);
  }

  /** The claim is kept without a context, given back without the Scheduler's word,
      and used with both. */
  lemma ModelStarts(c: Config, s: System, tid: Id, id: Id, w: World, j: Job)
    requires Stands(s, tid, Preparing(j)) && Waits(s.store.(jobs := s.store.jobs[id := j]), id)
    requires j.envelope.environment == c.environment
    requires id in s.store.jobs && s.store.jobs[id] == j.(contextClaimed := true, revision := j.revision + 1)
    ensures var (s', k) := (Turn(c, s, tid, w), s.store.jobs[id]);
      && s'.invoked == s.invoked
      && (!w.built ==> s'.store == s.store && Stands(s', tid, Done))
      && (w.built && !w.proceed ==>
           s'.store == s.store.(jobs := s.store.jobs[id := j.(revision := j.revision + 2)]) && Stands(s', tid, Done))
      && (w.built && w.proceed ==> RunsAs(s.store, s'.store, id, w.execution) && Stands(s', tid, ModelStarted(j, w.execution)))
  {
    RunningApplies(c, s.store.jobs[id], w);
  }

  /** Left alone, the model path changes nothing the Scheduler does not let start;
      keeps its context claim when no context could be built; gives the claim back
      when the Scheduler withdraws; and otherwise calls the model once, whose answer
      decides. */
  lemma UndisturbedModel(c: Config, s: System, tid: Id, id: Id, w: seq<World>)
    requires |w| == 5 && Stands(s, tid, ModelExecuting(id)) && Waits(s.store, id)
    requires s.store.jobs[id].envelope.environment == c.environment && !s.store.failClaim && !s.store.failCommit
    ensures var (s', j) := (FiveTurns(c, s, tid, w), s.store.jobs[id]);
      && (!w[1].proceed ==> s'.store == s.store && s'.invoked == s.invoked)
      && (w[1].proceed && !w[2].built ==>
           s'.store == s.store.(jobs := s.store.jobs[id := j.(contextClaimed := true, revision := j.revision + 1)]) && s'.invoked == s.invoked)
      && (w[1].proceed && w[2].built && !w[2].proceed ==>
           s'.store == s.store.(jobs := s.store.jobs[id := j.(revision := j.revision + 2)]) && s'.invoked == s.invoked)
      && (w[1].proceed && w[2].built && w[2].proceed ==>
           && s'.invoked == s.invoked + multiset{id}
           && EndedWith(s'.store, id, ModelOutcomeFor(w[4].model), ReasonOf(ModelOutcomeFor(w[4].model))))
  {
    var j := s.store.jobs[id];
    ModelPrepares(c, s, tid, id, w[0], w[1]);
    var s2 := Turn(c, Turn(c, s, tid, w[0]), tid, w[1]);
    var s3 := Turn(c, s2, tid, w[2]);
    var s4 := Turn(c, s3, tid, w[3]);
    if !w[1].proceed {
      DoneStays(c, s2, tid, w[2]);
      DoneStays(c, s2, tid, w[3]);
      DoneStays(c, s2, tid, w[4]);
    } else {
      ModelStarts(c, s2, tid, id, w[2], j);
      if !w[2].built || !w[2].proceed {
        DoneStays(c, s3, tid, w[3]);
        DoneStays(c, s3, tid, w[4]);
      } else {
        ModelInvokes(c, s3, tid, w[3], j, w[2].execution);
        ModelEnds(c, s4, tid, w[4], id);
      }
    }
  }
}
