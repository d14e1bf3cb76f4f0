// Any number of context attempts woven into one trace with other evidence:
// the context assessor judges the whole trace complete.

module MemoryWoven {
  import opened Common
  import opened Evidence
  import opened MemoryTrace
  import opened MemoryEmission
  import opened MemoryAcceptance
  import JE = JobEmission
  import MS = MemorySelection

  /** One attempt, before its records are spread over the trace. */
  datatype Spec = Spec(ids: Ids, names: Names, selection: MS.Selection, ending: Ending)

  predicate SpecOk(s: Spec) {
    IdsOk(s.ids) && NamesOk(s.names) && Conserved(s.selection) && EndingOk(s.ending)
  }

  function At(s: Spec, k: nat): Record
    requires SpecOk(s) && k < 6
  {
    RecordAt(s.ids, s.names, s.selection, s.ending, k)
  }

  /** Who appended each record of the trace: an attempt, or someone else. */
  datatype Slot = Foreign | Own(a: nat)

  function Count(script: seq<Slot>, a: nat, n: nat): nat
    requires n <= |script|
  {
    if n == 0 then 0 else Count(script, a, n - 1) + if script[n - 1] == Own(a) then 1 else 0
  }

  lemma {:induction false} SlotOf(script: seq<Slot>, a: nat, n: nat, k: nat) returns (j: nat)
    requires n <= |script| && k < Count(script, a, n)
    ensures j < n && script[j] == Own(a) && Count(script, a, j) == k
  {
    if Count(script, a, n - 1) > k {
      j := SlotOf(script, a, n - 1, k);
    } else {
      j := n - 1;
    }
  }

  lemma {:induction false} CountGrows(script: seq<Slot>, a: nat, m: nat, n: nat)
    requires m <= n <= |script|
    ensures Count(script, a, m) <= Count(script, a, n)
  {
    if m < n {
      CountGrows(script, a, m, n - 1);
    }
  }

  predicate SlotOk(rs: seq<Record>, specs: seq<Spec>, script: seq<Slot>, i: nat)
    requires |script| == |rs| && i < |rs| && forall a :: 0 <= a < |specs| ==> SpecOk(specs[a])
  {
    && TraceIdOk(rs[i].trace) && rs[i].trace == rs[0].trace && SpanIdOk(rs[i].span)
    && match script[i]
       case Foreign => !IsMemory(rs[i])
       case Own(a) =>
         a < |specs| && Count(script, a, i) < Length(specs[a].ending) && rs[i] == At(specs[a], Count(script, a, i))
  }

  /** The parent is other evidence, already there when the attempt begins, and
      shows the state the job was in. */
  predicate ParentAt(rs: seq<Record>, specs: seq<Spec>, script: seq<Slot>, a: nat, p: nat)
    requires |script| == |rs| && a < |specs|
  {
    p < |rs| && Count(script, a, p) == 0 && script[p] == Foreign
    && rs[p].span == specs[a].ids.parent && ParentFits(rs[p], specs[a].names, specs[a].ending)
  }

  ghost predicate HasParent(rs: seq<Record>, specs: seq<Spec>, script: seq<Slot>, a: nat)
    requires |script| == |rs| && a < |specs|
  {
    exists p: nat :: ParentAt(rs, specs, script, a, p)
  }

  ghost predicate Woven(rs: seq<Record>, specs: seq<Spec>, script: seq<Slot>) {
    && specs != [] && |script| == |rs| && SpansUnique(rs)
    && (forall a :: 0 <= a < |specs| ==> SpecOk(specs[a]))
    && (forall i {:trigger SlotOk(rs, specs, script, i)} :: 0 <= i < |rs| ==> SlotOk(rs, specs, script, i))
    && (forall a :: 0 <= a < |specs| ==> Count(script, a, |rs|) == Length(specs[a].ending))
    && (forall a {:trigger HasParent(rs, specs, script, a)} :: 0 <= a < |specs| ==> HasParent(rs, specs, script, a))
  }

  // ------------------------------------------------------ every record fits

  lemma OwnFits(rs: seq<Record>, specs: seq<Spec>, script: seq<Slot>, i: nat)
    requires Woven(rs, specs, script) && i < |rs| && script[i].Own?
    ensures SlotOk(rs, specs, script, i) && MemoryOk(rs[i]) && rs[i].parent.Some? && SpanBefore(rs, i, rs[i].parent.value)
  {
    assert SlotOk(rs, specs, script, i);
    var a, k := script[i].a, Count(script, script[i].a, i);
    var s := specs[a];
    EveryRecordOk(s.ids, s.names, s.selection, s.ending, k);
    if k > 0 {
      var j := SlotOf(script, a, i, k - 1);
      assert SlotOk(rs, specs, script, j) && rs[j].span == s.ids.spans[k - 1];
    } else {
      assert HasParent(rs, specs, script, a);
      var p: nat :| ParentAt(rs, specs, script, a, p);
      ParentFirst(script, a, p, i);
      assert rs[p].span == s.ids.parent;
    }
  }

  /** A foreign record with none of the attempt before it comes before every
      first record of the attempt, or not at all: so the ledger order holds. */
  lemma ParentFirst(script: seq<Slot>, a: nat, p: nat, i: nat)
    requires p < |script| && i < |script| && script[p] == Foreign && script[i] == Own(a)
    requires Count(script, a, p) == 0 && Count(script, a, i) == 0
    ensures p < i
  {
    if i < p {
      CountGrows(script, a, i + 1, p);
    }
  }

  // ------------------------------------------------- the Memory records alone

  lemma {:induction false} MemoryMembers(rs: seq<Record>)
    ensures forall x :: x in MemoryRecords(rs) <==> x in rs && IsMemory(x)
  {
    if rs != [] {
      MemoryMembers(rs[..|rs| - 1]);
      assert rs == rs[..|rs| - 1] + [rs[|rs| - 1]];
    }
  }

  lemma {:induction false} MemorySpans(rs: seq<Record>)
    requires SpansUnique(rs)
    ensures SpansUnique(MemoryRecords(rs))
  {
    if rs != [] {
      var front, last := rs[..|rs| - 1], rs[|rs| - 1];
      MemorySpans(front);
      MemoryMembers(front);
      forall m | m in MemoryRecords(front)
        ensures m.span != last.span
      {
        assert m in front;
      }
    }
  }

  lemma {:induction false} MemoryPrefix(rs: seq<Record>, i: nat)
    requires i <= |rs|
    ensures MemoryRecords(rs[..i]) <= MemoryRecords(rs)
    ensures i < |rs| ==> MemoryRecords(rs[..i + 1]) == MemoryRecords(rs[..i]) + if IsMemory(rs[i]) then [rs[i]] else []
    decreases |rs|
  {
    if i < |rs| {
      assert rs[..i + 1][..i] == rs[..i];
      var front := rs[..|rs| - 1];
      assert front[..i] == rs[..i];
      MemoryPrefix(front, i);
    } else {
      assert rs[..i] == rs;
    }
  }

  // ---------------------------------------------------------- walking to roots

  lemma {:induction false} WalkUp(ms: seq<Record>, s: Spec, k: nat, visited: set<Record>)
    requires SpecOk(s) && k < Length(s.ending) && SpansUnique(ms)
    requires forall j :: 0 <= j <= k ==> At(s, j) in ms && At(s, j) !in visited
    ensures Walk(ms, At(s, k), visited) == Some(At(s, 0))
    decreases k
  {
    if k > 0 {
      var r, up := At(s, k), At(s, k - 1);
      assert r.event == Stage(s.ending, k) && r.parent == Some(up.span) && !IsRoot(r);
      var n :| 0 <= n < |ms| && ms[n] == up;
      BySpanFinds(ms, n);
      forall j | 0 <= j <= k - 1
        ensures At(s, j) !in visited + {r}
      {
        StagesDiffer(s.ending, j, k);
        assert At(s, j).event != r.event;
      }
      WalkUp(ms, s, k - 1, visited + {r});
    }
  }

  lemma AllThere(rs: seq<Record>, specs: seq<Spec>, script: seq<Slot>, a: nat, k: nat)
    requires Woven(rs, specs, script) && a < |specs| && k < Length(specs[a].ending)
    ensures At(specs[a], k) in MemoryRecords(rs)
  {
    var j := SlotOf(script, a, |rs|, k);
    assert SlotOk(rs, specs, script, j) && rs[j] == At(specs[a], k);
    MemoryMembers(rs);
  }

  lemma RootOfOwn(rs: seq<Record>, specs: seq<Spec>, script: seq<Slot>, i: nat)
    requires Woven(rs, specs, script) && i < |rs| && script[i].Own?
    ensures script[i].a < |specs| && rs[i] in MemoryRecords(rs)
    ensures RootOf(MemoryRecords(rs), rs[i]) == Some(At(specs[script[i].a], 0))
  {
    assert SlotOk(rs, specs, script, i);
    var a, k := script[i].a, Count(script, script[i].a, i);
    MemorySpans(rs);
    forall j | 0 <= j <= k
      ensures At(specs[a], j) in MemoryRecords(rs)
    {
      AllThere(rs, specs, script, a, j);
    }
    WalkUp(MemoryRecords(rs), specs[a], k, {});
  }

  lemma RootsDiffer(rs: seq<Record>, specs: seq<Spec>, script: seq<Slot>, a: nat, b: nat)
    requires Woven(rs, specs, script) && a < |specs| && b < |specs| && a != b
    ensures At(specs[a], 0) != At(specs[b], 0)
  {
    var i := SlotOf(script, a, |rs|, 0);
    var j := SlotOf(script, b, |rs|, 0);
    assert SlotOk(rs, specs, script, i) && SlotOk(rs, specs, script, j);
    assert rs[i].span != rs[j].span;
  }

  // -------------------------------------------------------- grouping by root

  function Records(s: Spec, n: nat): seq<Record>
    requires SpecOk(s) && n <= Length(s.ending)
  {
    seq(n, k requires 0 <= k < n => At(s, k))
  }

  lemma {:induction false} GroupIsAttempt(rs: seq<Record>, specs: seq<Spec>, script: seq<Slot>, a: nat, i: nat)
    requires Woven(rs, specs, script) && a < |specs| && i <= |rs|
    ensures Count(script, a, i) <= Length(specs[a].ending) && |MemoryRecords(rs[..i])| <= |MemoryRecords(rs)|
    ensures Attempt(MemoryRecords(rs), |MemoryRecords(rs[..i])|, At(specs[a], 0)) == Records(specs[a], Count(script, a, i))
    decreases i
  {
    CountGrows(script, a, i, |rs|);
    MemoryPrefix(rs, i);
    if i == 0 {
      assert rs[..0] == [];
    } else {
      GroupIsAttempt(rs, specs, script, a, i - 1);
      GroupStep(rs, specs, script, a, i - 1);
    }
  }

  lemma MemoryAt(rs: seq<Record>, i: nat)
    requires i < |rs|
    ensures var ms, n := MemoryRecords(rs), |MemoryRecords(rs[..i])|;
      && |MemoryRecords(rs[..i + 1])| == n + (if IsMemory(rs[i]) then 1 else 0) <= |ms|
      && (IsMemory(rs[i]) ==> ms[n] == rs[i])
  {
    MemoryPrefix(rs, i);
    MemoryPrefix(rs, i + 1);
  }

  lemma RecordsNext(s: Spec, n: nat)
    requires SpecOk(s) && n < Length(s.ending)
    ensures Records(s, n + 1) == Records(s, n) + [At(s, n)]
  {
  }

  /** The root of the record at `i`, seen from the attempt `a`. */
  lemma OwnerRoot(rs: seq<Record>, specs: seq<Spec>, script: seq<Slot>, a: nat, i: nat)
    requires Woven(rs, specs, script) && a < |specs| && i < |rs| && script[i].Own?
    ensures IsMemory(rs[i]) && rs[i] in MemoryRecords(rs)
    ensures RootOf(MemoryRecords(rs), rs[i]) == Some(At(specs[a], 0)) <==> script[i] == Own(a)
    ensures script[i] == Own(a) ==> Count(script, a, i) < Length(specs[a].ending) && rs[i] == At(specs[a], Count(script, a, i))
  {
    assert SlotOk(rs, specs, script, i);
    OwnFits(rs, specs, script, i);
    RootOfOwn(rs, specs, script, i);
    if script[i].a != a {
      RootsDiffer(rs, specs, script, script[i].a, a);
    }
  }

  lemma GroupStep(rs: seq<Record>, specs: seq<Spec>, script: seq<Slot>, a: nat, i: nat)
    requires Woven(rs, specs, script) && a < |specs| && i < |rs|
    requires Count(script, a, i) <= Length(specs[a].ending) && |MemoryRecords(rs[..i])| <= |MemoryRecords(rs)|
    requires Attempt(MemoryRecords(rs), |MemoryRecords(rs[..i])|, At(specs[a], 0)) == Records(specs[a], Count(script, a, i))
    ensures Count(script, a, i + 1) <= Length(specs[a].ending) && |MemoryRecords(rs[..i + 1])| <= |MemoryRecords(rs)|
    ensures Attempt(MemoryRecords(rs), |MemoryRecords(rs[..i + 1])|, At(specs[a], 0)) == Records(specs[a], Count(script, a, i + 1))
  {
    MemoryAt(rs, i);
    CountGrows(script, a, i + 1, |rs|);
    if script[i].Own? {
      OwnerRoot(rs, specs, script, a, i);
      if script[i] == Own(a) {
        RecordsNext(specs[a], Count(script, a, i));
      }
    } else {
      assert SlotOk(rs, specs, script, i);
    }
  }

  // ------------------------------------------------------------- the theorem

  lemma RecordsEmitted(s: Spec)
    requires SpecOk(s)
    ensures Emitted(s.ids, s.names, s.selection, s.ending, Records(s, Length(s.ending)))
  {
  }

  lemma OwnRooted(rs: seq<Record>, specs: seq<Spec>, script: seq<Slot>, a: nat)
    requires Woven(rs, specs, script) && a < |specs|
    ensures var ms, root := MemoryRecords(rs), At(specs[a], 0); AttemptOk(rs, root, Attempt(ms, |ms|, root))
  {
    var s := specs[a];
    GroupIsAttempt(rs, specs, script, a, |rs|);
    assert rs[..|rs|] == rs;
    RecordsEmitted(s);
    assert HasParent(rs, specs, script, a);
    var p: nat :| ParentAt(rs, specs, script, a, p);
    BySpanFinds(rs, p);
    AttemptAccepted(rs, s.ids, s.names, s.selection, s.ending, Records(s, Length(s.ending)), rs[p]);
  }

  /** Every Memory record of the trace is some attempt's. */
  lemma Owner(rs: seq<Record>, specs: seq<Spec>, script: seq<Slot>, m: Record) returns (a: nat)
    requires Woven(rs, specs, script) && m in MemoryRecords(rs)
    ensures a < |specs| && RootOf(MemoryRecords(rs), m) == Some(At(specs[a], 0))
  {
    MemoryMembers(rs);
    var i :| 0 <= i < |rs| && rs[i] == m;
    assert SlotOk(rs, specs, script, i);
    RootOfOwn(rs, specs, script, i);
    a := script[i].a;
  }

  lemma AllRooted(rs: seq<Record>, specs: seq<Spec>, script: seq<Slot>)
    requires Woven(rs, specs, script)
    ensures var ms := MemoryRecords(rs); forall i {:trigger RootedAt(rs, ms, i)} :: 0 <= i < |ms| ==> RootedAt(rs, ms, i)
  {
    var ms := MemoryRecords(rs);
    forall i | 0 <= i < |ms|
      ensures RootedAt(rs, ms, i)
    {
      var a := Owner(rs, specs, script, ms[i]);
      OwnRooted(rs, specs, script, a);
    }
  }

  lemma NoneMixed(rs: seq<Record>, specs: seq<Spec>, script: seq<Slot>)
    requires Woven(rs, specs, script)
    ensures NotMixed(MemoryRecords(rs))
  {
    var ms := MemoryRecords(rs);
    forall i, root | 0 <= i < |ms| && RootIs(ms, i, root)
      ensures root.event == ContextRequested
    {
      var a := Owner(rs, specs, script, ms[i]);
    }
  }

  lemma AllFit(rs: seq<Record>, specs: seq<Spec>, script: seq<Slot>)
    requires Woven(rs, specs, script)
    ensures CommonOk(rs)
  {
    forall i | 0 <= i < |rs|
      ensures RecordFits(rs, i)
    {
      assert SlotOk(rs, specs, script, i);
      if script[i].Own? {
        OwnFits(rs, specs, script, i);
      }
    }
  }

  /** Any number of attempts on one trace, however each ended and however their
      records interleave with each other and with other services' evidence: the
      assessor judges the trace complete. */
  lemma WovenIsComplete(rs: seq<Record>, specs: seq<Spec>, script: seq<Slot>)
    requires Woven(rs, specs, script)
    ensures ContextComplete(rs)
  {
    AllFit(rs, specs, script);
    AllRooted(rs, specs, script);
    NoneMixed(rs, specs, script);
    AllThere(rs, specs, script, 0, 0);
  }

  // ------------------------------------------- on the trace Relay has left

  /** Relay's own lifecycle records are the parents the assessor looks for. */
  lemma LifecycleIsParent(ids: JE.Ids, f: JE.Facts, outcome: Word)
    requires JE.IdsOk(ids) && Identifier(Some(f.execution)) && f.environment.Name?
    requires outcome in {StatusAvailable, WorkerUnavailable, WorkerResultInvalid, CapabilityDeniedWord, AuthorizationUnavailable}
    ensures RelayParent(Some(JE.RootRecord(ids, f)), Some(f.job), Some(Say(Submitted)))
    ensures RelayParent(Some(JE.AcceptedRecord(ids, f)), Some(f.job), Some(Say(Accepted)))
    ensures RelayParent(Some(JE.RunningRecord(ids, f)), Some(f.job), Some(Say(Running)))
    ensures RelayParent(Some(JE.TerminalRecord(ids, f, outcome)), Some(f.job),
                        Some(Say(if outcome == StatusAvailable then Completed else Failed)))
  {
    RootIsParent(ids, f);
    AcceptedIsParent(ids, f);
    RunningIsParent(ids, f);
    TerminalIsParent(ids, f, outcome);
  }

  lemma RootIsParent(ids: JE.Ids, f: JE.Facts)
    requires JE.IdsOk(ids) && f.environment.Name?
    ensures RelayParent(Some(JE.RootRecord(ids, f)), Some(f.job), Some(Say(Submitted)))
  {
    assert JE.RootRecord(ids, f).attributes.Keys == {Environment, RelayContract};
  }

  lemma AcceptedIsParent(ids: JE.Ids, f: JE.Facts)
    requires JE.IdsOk(ids)
    ensures RelayParent(Some(JE.AcceptedRecord(ids, f)), Some(f.job), Some(Say(Accepted)))
  {
    assert JE.AcceptedRecord(ids, f).attributes.Keys == {JobId, FromState, ToState};
  }

  lemma RunningIsParent(ids: JE.Ids, f: JE.Facts)
    requires JE.IdsOk(ids) && Identifier(Some(f.execution))
    ensures RelayParent(Some(JE.RunningRecord(ids, f)), Some(f.job), Some(Say(Running)))
  {
    assert JE.RunningRecord(ids, f).attributes.Keys == {JobId, ExecutionId, FromState, ToState};
  }

  lemma TerminalIsParent(ids: JE.Ids, f: JE.Facts, outcome: Word)
    requires JE.IdsOk(ids)
    requires outcome in {StatusAvailable, WorkerUnavailable, WorkerResultInvalid, CapabilityDeniedWord, AuthorizationUnavailable}
    ensures RelayParent(Some(JE.TerminalRecord(ids, f, outcome)), Some(f.job),
                        Some(Say(if outcome == StatusAvailable then Completed else Failed)))
  {
    assert JE.TerminalRecord(ids, f, outcome).attributes.Keys == {JobId, FromState, ToState, JobReason};
  }

  /** The script of one attempt after `n` foreign records. */
  function OneAttempt(n: nat, length: nat): seq<Slot> {
    seq(n + length, i => if i < n then Foreign else Own(0))
  }

  lemma {:induction false} OneAttemptCount(n: nat, length: nat, i: nat)
    requires i <= n + length
    ensures Count(OneAttempt(n, length), 0, i) == if i <= n then 0 else i - n
  {
    if i > 0 {
      OneAttemptCount(n, length, i - 1);
    }
  }

  /** A trace so far: no Memory evidence yet, well-formed and unique spans, and
      none of the spans the attempt is about to use. */
  ghost predicate Ready(before: seq<Record>, ids: Ids)
    requires IdsOk(ids)
  {
    && SpansUnique(before)
    && (forall i, j :: 0 <= i < j < 6 ==> ids.spans[i] != ids.spans[j])
    && forall i :: 0 <= i < |before| ==> (!IsMemory(before[i]) && before[i].trace == ids.trace
                                          && SpanIdOk(before[i].span) && before[i].span !in ids.spans)
  }

  lemma OneSlot(before: seq<Record>, s: Spec, i: nat)
    requires SpecOk(s) && Ready(before, s.ids) && before != [] && i < |before| + Length(s.ending)
    ensures SlotOk(before + AttemptRecords(s.ids, s.names, s.selection, s.ending), [s], OneAttempt(|before|, Length(s.ending)), i)
  {
    var rs := before + AttemptRecords(s.ids, s.names, s.selection, s.ending);
    OneAttemptCount(|before|, Length(s.ending), i);
    assert rs[i] == if i < |before| then before[i] else At(s, i - |before|);
  }

  lemma OneParent(before: seq<Record>, s: Spec, p: nat)
    requires SpecOk(s) && p < |before| && before[p].span == s.ids.parent && ParentFits(before[p], s.names, s.ending)
    ensures HasParent(before + AttemptRecords(s.ids, s.names, s.selection, s.ending), [s], OneAttempt(|before|, Length(s.ending)), 0)
  {
    OneAttemptCount(|before|, Length(s.ending), p);
    assert ParentAt(before + AttemptRecords(s.ids, s.names, s.selection, s.ending), [s], OneAttempt(|before|, Length(s.ending)), 0, p);
  }

  lemma AllSlots(before: seq<Record>, s: Spec, rs: seq<Record>, script: seq<Slot>)
    requires SpecOk(s) && Ready(before, s.ids) && before != []
    requires rs == before + AttemptRecords(s.ids, s.names, s.selection, s.ending)
    requires script == OneAttempt(|before|, Length(s.ending))
    ensures |script| == |rs| && forall i {:trigger SlotOk(rs, [s], script, i)} :: 0 <= i < |rs| ==> SlotOk(rs, [s], script, i)
  {
    forall i {:trigger SlotOk(rs, [s], script, i)} | 0 <= i < |rs|
      ensures SlotOk(rs, [s], script, i)
    {
      OneSlot(before, s, i);
    }
  }

  lemma WovenOfOne(rs: seq<Record>, s: Spec, script: seq<Slot>)
    requires SpecOk(s) && |script| == |rs| && SpansUnique(rs)
    requires forall i {:trigger SlotOk(rs, [s], script, i)} :: 0 <= i < |rs| ==> SlotOk(rs, [s], script, i)
    requires Count(script, 0, |rs|) == Length(s.ending) && HasParent(rs, [s], script, 0)
    ensures Woven(rs, [s], script)
  {
  }

  lemma OneIsWoven(before: seq<Record>, s: Spec, p: nat)
    requires SpecOk(s) && Ready(before, s.ids) && p < |before|
    requires before[p].span == s.ids.parent && ParentFits(before[p], s.names, s.ending)
    ensures Woven(before + AttemptRecords(s.ids, s.names, s.selection, s.ending), [s], OneAttempt(|before|, Length(s.ending)))
  {
    var own, script := AttemptRecords(s.ids, s.names, s.selection, s.ending), OneAttempt(|before|, Length(s.ending));
    AllSlots(before, s, before + own, script);
    SpansApart(before, s, own);
    OneAttemptCount(|before|, Length(s.ending), |before + own|);
    OneParent(before, s, p);
    WovenOfOne(before + own, s, script);
  }

  /** Whatever is selected and however the attempt ends, appended to the trace
      Relay has left so far, under the record of the job's state: accepted. */
  lemma AttemptOnTrace(before: seq<Record>, s: Spec, p: nat)
    requires SpecOk(s) && Ready(before, s.ids) && p < |before|
    requires before[p].span == s.ids.parent && ParentFits(before[p], s.names, s.ending)
    ensures ContextComplete(before + AttemptRecords(s.ids, s.names, s.selection, s.ending))
  {
    OneIsWoven(before, s, p);
    WovenIsComplete(before + AttemptRecords(s.ids, s.names, s.selection, s.ending), [s], OneAttempt(|before|, Length(s.ending)));
  }

  lemma SpansApart(before: seq<Record>, s: Spec, own: seq<Record>)
    requires SpecOk(s) && Ready(before, s.ids) && own == AttemptRecords(s.ids, s.names, s.selection, s.ending)
    ensures SpansUnique(before + own)
  {
    var rs := before + own;
    forall i, j | 0 <= i < j < |rs|
      ensures rs[i].span != rs[j].span
    {
      assert j >= |before| ==> rs[j].span == s.ids.spans[j - |before|];
      assert i >= |before| ==> rs[i].span == s.ids.spans[i - |before|];
    }
  }

  /** What an attempt with ending `e` tells of the selection, if it got there. */
  function Told(candidates: seq<MS.Record>, q: MS.Request, e: Ending): MS.Selection {
    if Length(e) == 6 then MS.Select(candidates, q) else MS.Selection(0, 0, MS.Excluded(0, 0, 0, 0, 0), [], 0, 0)
  }

  lemma ToldIsAll(ids: Ids, n: Names, candidates: seq<MS.Record>, q: MS.Request, e: Ending)
    requires IdsOk(ids)
    ensures AttemptRecords(ids, n, MS.Select(candidates, q), e) == AttemptRecords(ids, n, Told(candidates, q, e), e)
  {
    if Length(e) < 6 {
      forall i | 0 <= i < Length(e)
        ensures RecordAt(ids, n, MS.Select(candidates, q), e, i) == RecordAt(ids, n, Told(candidates, q, e), e, i)
      {
      }
    }
  }

  lemma ToldConserved(candidates: seq<MS.Record>, q: MS.Request, e: Ending)
    requires Length(e) == 6 ==> |candidates| <= MAX_SAFE && forall r :: r in candidates ==> MS.ValidRecord(r)
    ensures Conserved(Told(candidates, q, e))
  {
    if Length(e) == 6 {
      SelectionConserved(candidates, q);
    }
  }

  /** What `buildContext` appends for any candidates and any query is accepted:
      only records it validated are ever told of. */
  lemma ContextAccepted(before: seq<Record>, ids: Ids, n: Names, e: Ending, candidates: seq<MS.Record>, q: MS.Request, p: nat)
    requires Length(e) == 6 ==> |candidates| <= MAX_SAFE && forall r :: r in candidates ==> MS.ValidRecord(r)
    requires IdsOk(ids) && NamesOk(n) && EndingOk(e) && Ready(before, ids) && p < |before|
    requires before[p].span == ids.parent && ParentFits(before[p], n, e)
    ensures ContextComplete(before + AttemptRecords(ids, n, MS.Select(candidates, q), e))
  {
    ToldIsAll(ids, n, candidates, q, e);
    ToldConserved(candidates, q, e);
    AttemptOnTrace(before, Spec(ids, n, Told(candidates, q, e), e), p);
  }

  ghost predicate Recorded(before: seq<Record>, span: Id) {
    exists p: nat :: p < |before| && before[p].span == span
  }

  lemma CompleteNeedsParent(before: seq<Record>, s: Spec)
    requires SpecOk(s) && ContextComplete(before + AttemptRecords(s.ids, s.names, s.selection, s.ending))
    ensures Recorded(before, s.ids.parent)
  {
    var rs := before + AttemptRecords(s.ids, s.names, s.selection, s.ending);
    assert RecordFits(rs, |before|);
    assert rs[|before|] == At(s, 0) && IsMemory(rs[|before|]);
    var k :| 0 <= k < |before| && rs[k].span == s.ids.parent;
    assert before[k].span == s.ids.parent;
  }

  /** Relay appends a lifecycle record only after its store call returned, so
      the job may be read before the record of its state is there. The attempt
      is accepted if and only if that record is already in the trace. */
  lemma AcceptedIffRecorded(before: seq<Record>, s: Spec)
    requires SpecOk(s) && Ready(before, s.ids)
    requires forall p :: 0 <= p < |before| && before[p].span == s.ids.parent ==> ParentFits(before[p], s.names, s.ending)
    ensures ContextComplete(before + AttemptRecords(s.ids, s.names, s.selection, s.ending)) <==> Recorded(before, s.ids.parent)
  {
    if Recorded(before, s.ids.parent) {
      var p: nat :| p < |before| && before[p].span == s.ids.parent;
      AttemptOnTrace(before, s, p);
    } else if ContextComplete(before + AttemptRecords(s.ids, s.names, s.selection, s.ending)) {
      CompleteNeedsParent(before, s);
    }
  }
}
