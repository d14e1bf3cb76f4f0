// What a freshness session and its client do: an undisturbed opening, the
// openings that fail closed, the tokens a session issues, and the messages a
// client accepts.

module FreshnessMeaning {
  import opened Common
  import opened FreshnessTokens
  import opened FreshnessProtocol

  // ---------------------------------------------------------------- opening

  /** The seven calls of one opening, with nothing in between. */
  function Opens(w: World, p: Id): World {
    Step(Step(Renames(w, p), Sync(p, NoFault)), Unlock(p, NoFault))
  }

  /** The process serves `epoch`, which is what the file says; the lock is free and
      the publication synced. */
  predicate ServesNow(w: World, w': World, p: Id, epoch: nat) {
    && At(w', p) == Serving(Session(epoch, 0, false)) && w'.file == Some(Print(epoch)) && w'.directory && w'.lock == None
    && w'.published == w.published + [Published(p, epoch)] && w'.durable == |w'.published| && w'.issued == w.issued
  }

  /** An undisturbed opening serves the epoch after the one in the file. */
  lemma UndisturbedOpens(w: World, p: Id, epoch: nat)
    requires w.directory && w.lock == None && 1 <= epoch < U64 && w.file == Some(Print(epoch)) && At(w, p) == Starting
    ensures ServesNow(w, Opens(w, p), p, epoch + 1)
  {
    PrintReads(epoch);
    RenamesNext(w, p, epoch);
    var w1 := Step(Step(Step(w, Mkdir(p, NoFault)), Lock(p, NoFault)), Read(p, NoFault));
    assert At(w1, p) == Prepared(epoch + 1);
    var w2 := Step(w1, Write(p, NoFault, None));
    assert At(w2, p) == Written(epoch + 1) && w2.temporary == Some(Print(epoch + 1));
    assert Renames(w, p).file == Some(Print(epoch + 1));
  }

  /** The first one creates the directory and serves epoch 1. */
  lemma FirstOpens(w: World, p: Id)
    requires !w.directory && w.lock == None && At(w, p) == Starting
    ensures ServesNow(w, Opens(w, p), p, 1)
  {
    var w1 := Step(Step(Step(w, Mkdir(p, NoFault)), Lock(p, NoFault)), Read(p, NoFault));
    assert At(w1, p) == Prepared(1);
  }

  /** A lock that is there refuses the opening and stays as it is. */
  lemma LockedOut(w: World, p: Id, fault: Fault)
    requires At(w, p).Entered? && w.lock.Some?
    ensures Step(w, Lock(p, fault)) == Put(w, p, Gone)
  {
  }

  /** An existing directory whose epoch is missing, unreadable or used up refuses
      the opening: nothing is published, and the lock is given back. */
  lemma UnreadableRefused(w: World, p: Id)
    requires At(w, p) == Locked(false)
    requires w.file.None? || ReadEpoch(w.file.value).None? || ReadEpoch(w.file.value).value == U64
    ensures Step(Step(w, Read(p, NoFault)), Unlock(p, NoFault))
      == Put(w.(lock := None, durable := |w.published|), p, Gone)
  {
    var w1 := Step(w, Read(p, NoFault));
    assert At(w1, p) == Unwinding;
    assert w.processes[p := Unwinding][p := Gone] == w.processes[p := Gone];
  }

  /** After any error inside the lock the lock is given back and nobody serves. */
  lemma ErrorsUnwind(w: World, p: Id)
    requires At(w, p) == Unwinding
    ensures var w' := Step(w, Unlock(p, NoFault));
      w'.lock == None && At(w', p) == Gone && w'.file == w.file && w'.published == w.published && w'.issued == w.issued
  {
  }

  // ----------------------------------------------------------------- serving

  /** `next()` issues the next number of the session's epoch exactly while the file
      is the epoch's own text, no call has failed and numbers are left; otherwise
      the session has failed. */
  lemma NextIssues(w: World, p: Id, s: Session)
    requires At(w, p) == Serving(s) && 1 <= s.epoch <= U64
    ensures var w' := Step(w, Next(p));
      && w' == w.(processes := w'.processes, issued := w'.issued)
      && if !s.failed && s.sequence != U64 && w.file == Some(Print(s.epoch)) then
           && w'.processes == w.processes[p := Serving(Session(s.epoch, s.sequence + 1, false))]
           && w'.issued == w.issued + [Issued(p, s.epoch, s.sequence + 1)]
         else w'.processes == w.processes[p := Serving(Session(s.epoch, s.sequence, true))] && w'.issued == w.issued
  {
    PrintReads(s.epoch);
    if w.file.Some? && ReadEpoch(w.file.value).Some? {
      ReadPrints(w.file.value);
    }
  }

  predicate Finished(v: Process) {
    v == Gone || (v.Serving? && v.session.failed)
  }

  lemma FinishedStep(w: World, e: Event, p: Id)
    requires Finished(At(w, p))
    ensures Finished(At(Step(w, e), p))
    ensures w.issued <= Step(w, e).issued
    ensures forall i :: |w.issued| <= i < |Step(w, e).issued| ==> Step(w, e).issued[i].process != p
  {
  }

  /** Over every run: once a call of `next()` has failed, or its process is gone, it
      never issues a token again. */
  lemma {:induction false} FailedForGood(events: seq<Event>, more: seq<Event>, p: Id)
    requires Finished(At(Run(events), p))
    ensures var w, w' := Run(events), Run(events + more);
      && Finished(At(w', p)) && w.issued <= w'.issued
      && forall i :: |w.issued| <= i < |w'.issued| ==> w'.issued[i].process != p
    decreases |more|
  {
    if more == [] {
      assert events + more == events;
    } else {
      FailedForGood(events, more[..|more| - 1], p);
      RunExtends(events, more);
      FinishedStep(Run(events + more[..|more| - 1]), more[|more| - 1], p);
    }
  }

  // ------------------------------------------------------------------ client

  /** The token for epoch `n` and number `k`. */
  predicate Numbers(t: Token, n: nat, k: nat) {
    1 <= n <= U64 && 1 <= k <= U64 && t.epoch == Print(n) && t.sequence == Print(k)
  }

  lemma ValidMeans(t: Token)
    ensures ValidToken(t) <==> exists n: nat, k: nat :: Numbers(t, n, k)
    ensures ValidToken(t) ==> Numbers(t, Parse(t.epoch), Parse(t.sequence))
  {
    assert Parse("0") == 0 by { assert "0"[..0] == ""; }
    if ValidToken(t) {
      ReadPrints(t.epoch);
      ReadPrints(t.sequence);
      assert Numbers(t, Parse(t.epoch), Parse(t.sequence));
    }
    if n: nat, k: nat :| Numbers(t, n, k) {
      PrintReads(n);
      PrintReads(k);
      PrintDigits(n);
      PrintDigits(k);
    }
  }

  /** A later epoch, or the same one and a later number. */
  predicate Later(n: nat, k: nat, n': nat, k': nat) {
    n > n' || (n == n' && k > k')
  }

  lemma NewerMeans(t: Token, n: nat, k: nat, u: Token, n': nat, k': nat)
    requires Numbers(t, n, k) && Numbers(u, n', k')
    ensures IsNewer(t, Some(u)) <==> Later(n, k, n', k')
  {
    PrintReads(n);
    PrintReads(k);
    PrintReads(n');
    PrintReads(k');
    PrintDigits(n);
    PrintDigits(k);
    PrintDigits(n');
    PrintDigits(k');
    NewerIsLexicographic(t, u);
  }

  lemma ShownValid(inputs: seq<Input>)
    ensures Shown(inputs).Some? ==> ValidToken(Shown(inputs).value.token)
  {
    AcceptedIncrease(inputs);
  }

  /** The token's numbers come after those of the view. */
  ghost predicate ComesAfter(t: Token, shown: Option<View>) {
    exists n: nat, k: nat :: Numbers(t, n, k) && (shown.Some? ==> AfterView(n, k, shown.value))
  }

  ghost predicate AfterView(n: nat, k: nat, v: View) {
    exists n': nat, k': nat :: Numbers(v.token, n', k') && Later(n, k, n', k')
  }

  /** Over any sequence of inputs, a message replaces what is shown, as it is,
      exactly when it is well formed and its token numbers come after those shown;
      otherwise nothing changes. */
  lemma ShowsExactlyLater(inputs: seq<Input>, m: Message)
    ensures Shown(inputs + [Arrives(m)]) ==
      if m.wellFormed && ComesAfter(m.view.token, Shown(inputs)) then Some(m.view) else Shown(inputs)
  {
    var shown, t := Shown(inputs), m.view.token;
    assert (inputs + [Arrives(m)])[..|inputs|] == inputs;
    ValidMeans(t);
    ShownValid(inputs);
    if ValidToken(t) && shown.Some? {
      ValidMeans(shown.value.token);
      var u := shown.value.token;
      forall n: nat, k: nat, n': nat, k': nat | Numbers(t, n, k) && Numbers(u, n', k')
        ensures IsNewer(t, Some(u)) <==> Later(n, k, n', k')
      {
        NewerMeans(t, n, k, u, n', k');
      }
    }
  }

  /** Going stale keeps the token, turns what was available into stale, leaves every
      other section as it is, and of the override keeps only a raised one. */
  lemma StaleShows(inputs: seq<Input>)
    ensures var (was, now) := (Shown(inputs), Shown(inputs + [GoesStale]));
      && (was.None? <==> now.None?)
      && (was.Some? ==>
           && now.value.token == was.value.token && |now.value.sections| == |was.value.sections|
           && (now.value.incidentOverride == Some(true) <==> was.value.incidentOverride == Some(true))
           && now.value.incidentOverride != Some(false)
           && forall i :: 0 <= i < |was.value.sections| ==>
                now.value.sections[i] == match was.value.sections[i] case Available => Stale case other => other)
  {
    assert (inputs + [GoesStale])[..|inputs|] == inputs;
  }
}
