// Opening the freshness state: many processes, one directory. Every system
// call is a step of its own; it may fail, and a process may die between any two
// of them. Disk damage may lose the epoch file or make it unreadable, an operator
// may clear the lock a dead process left behind, and the whole host may crash,
// which ends every process and may undo the renames since the last directory
// sync.

module FreshnessProtocol {
  import opened Common
  import opened FreshnessTokens

  /** Where a process is inside `openFreshnessState`, or after it. */
  datatype Process =
    | Starting
    | Entered(created: bool)            // mkdir done or found
    | Locked(created: bool)             // holds advance.lock
    | Prepared(epoch: nat)              // has read the prior epoch
    | Written(epoch: nat)               // epoch.next is on disk
    | Renamed(epoch: nat)               // epoch.next became epoch
    | Synced(epoch: nat)
    | Unwinding                         // an error inside the lock, finally pending
    | Serving(session: Session)
    | Gone                              // refused, failed or dead

  datatype Session = Session(epoch: nat, sequence: nat, failed: bool)

  datatype Published = Published(process: Id, epoch: nat)

  datatype Issued = Issued(process: Id, epoch: nat, sequence: nat)

  /** The directory, its three files, and what has been published and issued.
      `published` are the renames that stand; the first `durable` of them were
      followed by a directory sync. */
  datatype World = World(
    directory: bool, lock: Option<Id>, file: Option<string>, temporary: Option<string>,
    processes: map<Id, Process>, published: seq<Published>, durable: nat, issued: seq<Issued>)

  const EMPTY := World(false, None, None, None, map[], [], 0, [])

  datatype Fault = NoFault | Before | AfterEffect

  datatype Event =
    | Mkdir(p: Id, fault: Fault)
    | Lock(p: Id, fault: Fault)
    | Read(p: Id, fault: Fault)
    | Write(p: Id, fault: Fault, debris: Option<string>)
    | Rename(p: Id, fault: Fault)
    | Sync(p: Id, fault: Fault)
    | Unlock(p: Id, fault: Fault)
    | Next(p: Id)
    | Die(p: Id)
    | ClearLock
    | Damage(debris: Option<string>)
    | HostCrash(kept: nat, directory: bool, lock: Option<Id>, temporary: Option<string>)

  function At(w: World, p: Id): Process {
    if p in w.processes then w.processes[p] else Starting
  }

  function Put(w: World, p: Id, v: Process): World {
    w.(processes := w.processes[p := v])
  }

  function ReadFile(file: Option<string>): Option<nat> {
    if file.Some? then ReadEpoch(file.value) else None
  }

  /** mkdir either creates the directory or finds it; after creating it the
      parent is synced, which may fail and leave an empty directory behind. */
  function MkdirStep(w: World, p: Id, fault: Fault): World {
    if fault == Before then Put(w, p, Gone)
    else if w.directory then Put(w, p, Entered(false))
    else Put(w.(directory := true), p, if fault == NoFault then Entered(true) else Gone)
  }

  /** Exclusive creation. An existing lock fails closed. When writing the pid
      fails the lock file stays, because `lock` was never assigned. */
  function LockStep(w: World, p: Id, created: bool, fault: Fault): World {
    if w.lock.Some? || fault == Before then Put(w, p, Gone)
    else Put(w.(lock := Some(p)), p, if fault == NoFault then Locked(created) else Gone)
  }

  function ReadStep(w: World, p: Id, created: bool, fault: Fault): World {
    if created then Put(w, p, Prepared(1))
    else
      var prior := ReadFile(w.file);
      if fault != NoFault || prior.None? || prior.value == U64 then Put(w, p, Unwinding)
      else Put(w, p, Prepared(prior.value + 1))
  }

  /** Opening with 'w' truncates whatever a crashed writer left. */
  function WriteStep(w: World, p: Id, epoch: nat, fault: Fault, debris: Option<string>): World {
    if fault == NoFault then Put(w.(temporary := Some(Print(epoch))), p, Written(epoch))
    else Put(w.(temporary := debris), p, Unwinding)
  }

  function RenameStep(w: World, p: Id, epoch: nat, fault: Fault): World {
    if fault == Before || w.temporary.None? then Put(w.(temporary := None), p, Unwinding)
    else
      var moved := w.(file := w.temporary, temporary := None, published := w.published + [Published(p, epoch)]);
      Put(moved, p, if fault == NoFault then Renamed(epoch) else Unwinding)
  }

  /** The finally block: unlink the lock by path, then sync. */
  function UnlockStep(w: World, p: Id, then_: Process, fault: Fault): World {
    if fault == Before then Put(w, p, Gone)
    else if fault == NoFault then Put(w.(lock := None, durable := |w.published|), p, then_)
    else Put(w.(lock := None), p, Gone)
  }

  function SyncStep(w: World, p: Id, epoch: nat, fault: Fault): World {
    if fault == NoFault then Put(w.(durable := |w.published|), p, Synced(epoch)) else Put(w, p, Unwinding)
  }

  /** The disk after a crash of the host: any of the versions of the epoch file
      since the last sync may be the one that is there (its content was synced
      before the rename), the lock of a process may have come or stayed, and a
      directory that holds no epoch may itself be gone. */
  function HostCrashStep(w: World, kept: nat, directory: bool, lock: Option<Id>, temporary: Option<string>): World {
    if !(w.durable <= kept <= |w.published|) || (lock.Some? && lock.value !in w.processes) then w
    else
      var there := w.directory && (directory || kept > 0);
      World(there, if there then lock else None,
            if !there then None
            else if kept == |w.published| then w.file
            else if kept == 0 then None
            else Some(Print(kept)),
            temporary, map p | p in w.processes :: Gone, w.published[..kept], w.durable, w.issued)
  }

  /** `next()`: serve only while the file still holds this session's epoch. */
  predicate Serves(s: Session, file: Option<string>) {
    !s.failed && ReadFile(file) == Some(s.epoch) && s.sequence != U64
  }

  function NextSession(s: Session, file: Option<string>): Session {
    if Serves(s, file) then s.(sequence := s.sequence + 1) else s.(failed := true)
  }

  function NextStep(w: World, p: Id, s: Session): World {
    var s' := NextSession(s, w.file);
    var w' := Put(w, p, Serving(s'));
    if Serves(s, w.file) then w'.(issued := w.issued + [Issued(p, s'.epoch, s'.sequence)]) else w'
  }

  function Step(w: World, e: Event): World {
    match e
    case Mkdir(p, fault) => if At(w, p) == Starting then MkdirStep(w, p, fault) else w
    case Lock(p, fault) => (match At(w, p) case Entered(c) => LockStep(w, p, c, fault) case _ => w)
    case Read(p, fault) => (match At(w, p) case Locked(c) => ReadStep(w, p, c, fault) case _ => w)
    case Write(p, fault, debris) => (match At(w, p) case Prepared(n) => WriteStep(w, p, n, fault, debris) case _ => w)
    case Rename(p, fault) => (match At(w, p) case Written(n) => RenameStep(w, p, n, fault) case _ => w)
    case Sync(p, fault) =>
      (match At(w, p) case Renamed(n) => SyncStep(w, p, n, fault) case _ => w)
    case Unlock(p, fault) =>
      (match At(w, p)
       case Synced(n) => UnlockStep(w, p, Serving(Session(n, 0, false)), fault)
       case Unwinding => UnlockStep(w, p, Gone, fault)
       case _ => w)
    case Next(p) => (match At(w, p) case Serving(s) => NextStep(w, p, s) case _ => w)
    case Die(p) => Put(w, p, Gone)
    case ClearLock => if w.lock.Some? && At(w, w.lock.value) == Gone then w.(lock := None) else w
    case Damage(debris) => if ReadFile(debris).None? then w.(file := debris) else w
    case HostCrash(kept, directory, lock, temporary) => HostCrashStep(w, kept, directory, lock, temporary)
  }

  function Run(events: seq<Event>): World {
    if events == [] then EMPTY else Step(Run(events[..|events| - 1]), events[|events| - 1])
  }

  // -------------------------------------------------------- the session class

  /** The closure returned to the caller. The file's content is read by the
      caller of the model and passed in. */
  class FreshnessSession {
    const epoch: nat
    var sequence: nat
    var failed: bool

    function Contents(): Session
      reads this
    {
      Session(epoch, sequence, failed)
    }

    constructor (epoch: nat)
      ensures Contents() == Session(epoch, 0, false)
    {
      this.epoch, sequence, failed := epoch, 0, false;
    }

    method Next(file: Option<string>) returns (token: Option<Token>)
      modifies this
      ensures Contents() == NextSession(old(Contents()), file)
      ensures token == if Serves(old(Contents()), file) then Some(Token(Print(epoch), Print(sequence))) else None
    {
      if failed || ReadFile(file) != Some(epoch) || sequence == U64 {
        failed := true;
        return None;
      }
      sequence := sequence + 1;
      return Some(Token(Print(epoch), Print(sequence)));
    }
  }

  // ------------------------------------------------------------ the invariant

  predicate Holds(v: Process) {
    v.Locked? || v.Prepared? || v.Written? || v.Renamed? || v.Synced? || v.Unwinding?
  }

  /** Created the directory and has not yet turned that into an epoch. */
  predicate Pending(v: Process) {
    (v.Entered? || v.Locked?) && v.created
  }

  predicate Publishing(v: Process) { v.Prepared? || v.Written? }

  predicate Owner(w: World, p: Id, epoch: nat) {
    1 <= epoch <= |w.published| && w.published[epoch - 1] == Published(p, epoch)
  }

  predicate ProcessOk(w: World, p: Id, v: Process) {
    && (v != Starting && v != Gone ==> w.directory)
    && (Holds(v) ==> w.lock == Some(p))
    && (Pending(v) ==> |w.published| == 0)
    && (Publishing(v) ==> v.epoch == |w.published| + 1 && v.epoch <= U64)
    && (v.Written? ==> w.temporary == Some(Print(v.epoch)))
    && (v.Renamed? || v.Synced? ==> Owner(w, p, v.epoch))
    && (v.Synced? ==> v.epoch <= w.durable)
    && (v.Serving? ==> Owner(w, p, v.session.epoch) && v.session.epoch <= w.durable && v.session.sequence <= U64)
  }

  /** While a creator is pending nobody else may create or publish. */
  predicate Compatible(v: Process, u: Process) {
    Pending(v) ==> !Pending(u) && !Publishing(u)
  }

  predicate TokenOk(w: World, t: Issued) {
    && Owner(w, t.process, t.epoch) && t.epoch <= w.durable && 1 <= t.sequence <= U64
    && (match At(w, t.process)
        case Serving(s) => s.epoch == t.epoch && t.sequence <= s.sequence
        case Gone => true
        case _ => false)
  }

  ghost predicate Inv(w: World) {
    && (forall i :: 0 <= i < |w.published| ==> w.published[i].epoch == i + 1)
    && w.durable <= |w.published| <= U64
    && (!w.directory ==> w.published == [])
    && (forall n :: ReadFile(w.file) == Some(n) ==> n == |w.published|)
    && (forall p {:trigger ProcessOk(w, p, w.processes[p])} :: p in w.processes ==> ProcessOk(w, p, w.processes[p]))
    && (forall p, q {:trigger Compatible(w.processes[p], w.processes[q])} ::
         p in w.processes && q in w.processes && p != q ==> Compatible(w.processes[p], w.processes[q]))
    && (forall t {:trigger TokenOk(w, t)} :: t in w.issued ==> TokenOk(w, t))
    && (forall i, j :: 0 <= i < j < |w.issued| ==>
         After((w.issued[j].epoch, w.issued[j].sequence), (w.issued[i].epoch, w.issued[i].sequence)))
  }

  // ------------------------------------------------------------- preservation

  /** A move of process `p` that publishes and issues nothing. */
  lemma QuietMove(w: World, w': World, p: Id, v: Process)
    requires Inv(w) && w' == w.(directory := w'.directory, lock := w'.lock, temporary := w'.temporary, durable := w'.durable,
                                processes := w.processes[p := v])
    requires w.durable <= w'.durable <= |w.published|
    requires w.directory ==> w'.directory
    requires ProcessOk(w', p, v)
    requires w'.lock == w.lock || w.lock.None? || w.lock == Some(p)
    requires w'.temporary == w.temporary || w.lock == Some(p)
    requires forall q :: q in w.processes && q != p ==> Compatible(v, w.processes[q]) && Compatible(w.processes[q], v)
    requires At(w, p).Serving? ==> v == Gone || v == At(w, p)
    requires forall t :: t in w.issued && t.process == p ==> v == Gone || v == At(w, p)
    ensures Inv(w')
  {
    forall q {:trigger ProcessOk(w', q, w'.processes[q])} | q in w'.processes
      ensures ProcessOk(w', q, w'.processes[q])
    {
      if q != p {
        assert ProcessOk(w, q, w.processes[q]);
      }
    }
    forall a, b {:trigger Compatible(w'.processes[a], w'.processes[b])} | a in w'.processes && b in w'.processes && a != b
      ensures Compatible(w'.processes[a], w'.processes[b])
    {
      if a != p && b != p {
        assert Compatible(w.processes[a], w.processes[b]);
      }
    }
    forall t {:trigger TokenOk(w', t)} | t in w'.issued
      ensures TokenOk(w', t)
    {
      assert TokenOk(w, t);
    }
  }

  /** A process that is not yet serving has issued nothing. */
  lemma NothingIssuedYet(w: World, p: Id)
    requires Inv(w) && !At(w, p).Serving? && At(w, p) != Gone
    ensures forall t :: t in w.issued ==> t.process != p
  {
    forall t | t in w.issued
      ensures t.process != p
    {
      assert TokenOk(w, t);
    }
  }

  lemma MayMove(w: World, p: Id, v: Process)
    requires Inv(w) && !Pending(v) && (Publishing(v) ==> w.lock == Some(p) && forall q :: q in w.processes && q != p ==> !Pending(w.processes[q]))
    ensures forall q :: q in w.processes && q != p ==> Compatible(v, w.processes[q]) && Compatible(w.processes[q], v)
  {
  }

  lemma ToGone(w: World, w': World, p: Id)
    requires Inv(w) && w' == w.(directory := w'.directory, lock := w'.lock, temporary := w'.temporary, durable := w'.durable,
                                processes := w.processes[p := Gone])
    requires w.durable <= w'.durable <= |w.published|
    requires w.directory ==> w'.directory
    requires w'.lock == w.lock || w.lock.None? || w.lock == Some(p)
    requires w'.temporary == w.temporary || w.lock == Some(p)
    ensures Inv(w')
  {
    MayMove(w, p, Gone);
    QuietMove(w, w', p, Gone);
  }

  lemma MkdirKeeps(w: World, p: Id, fault: Fault)
    requires Inv(w) && At(w, p) == Starting
    ensures Inv(MkdirStep(w, p, fault))
  {
    var w' := MkdirStep(w, p, fault);
    if At(w', p) == Gone {
      ToGone(w, w', p);
    } else {
      NothingIssuedYet(w, p);
      forall q | q in w.processes && q != p
        ensures Compatible(At(w', p), w.processes[q]) && Compatible(w.processes[q], At(w', p))
      {
        assert ProcessOk(w, q, w.processes[q]);
      }
      QuietMove(w, w', p, At(w', p));
    }
  }

  lemma LockKeeps(w: World, p: Id, created: bool, fault: Fault)
    requires Inv(w) && At(w, p) == Entered(created)
    ensures Inv(LockStep(w, p, created, fault))
  {
    var w' := LockStep(w, p, created, fault);
    assert ProcessOk(w, p, w.processes[p]);
    if At(w', p) == Gone {
      ToGone(w, w', p);
    } else {
      NothingIssuedYet(w, p);
      forall q | q in w.processes && q != p
        ensures Compatible(Locked(created), w.processes[q]) && Compatible(w.processes[q], Locked(created))
      {
        assert Compatible(w.processes[p], w.processes[q]) && Compatible(w.processes[q], w.processes[p]);
      }
      QuietMove(w, w', p, Locked(created));
    }
  }

  /** The key step: reading. A creator still pending means no epoch was ever
      published, so nobody else can read one; and a creator itself starts at 1. */
  lemma ReadKeeps(w: World, p: Id, created: bool, fault: Fault)
    requires Inv(w) && At(w, p) == Locked(created)
    ensures Inv(ReadStep(w, p, created, fault))
  {
    var w' := ReadStep(w, p, created, fault);
    assert ProcessOk(w, p, w.processes[p]);
    NothingIssuedYet(w, p);
    var v := At(w', p);
    forall q | q in w.processes && q != p
      ensures Compatible(v, w.processes[q]) && Compatible(w.processes[q], v)
    {
      assert ProcessOk(w, q, w.processes[q]);
      assert Compatible(w.processes[p], w.processes[q]);
      if ReadFile(w.file).Some? {
        ReadPrints(w.file.value);
      }
    }
    QuietMove(w, w', p, v);
  }

  lemma WriteKeeps(w: World, p: Id, epoch: nat, fault: Fault, debris: Option<string>)
    requires Inv(w) && At(w, p) == Prepared(epoch)
    ensures Inv(WriteStep(w, p, epoch, fault, debris))
  {
    var w' := WriteStep(w, p, epoch, fault, debris);
    assert ProcessOk(w, p, w.processes[p]);
    NothingIssuedYet(w, p);
    var v := At(w', p);
    forall q | q in w.processes && q != p
      ensures Compatible(v, w.processes[q]) && Compatible(w.processes[q], v)
    {
      assert Compatible(w.processes[q], w.processes[p]);
    }
    QuietMove(w, w', p, v);
  }

  lemma RenameKeeps(w: World, p: Id, epoch: nat, fault: Fault)
    requires Inv(w) && At(w, p) == Written(epoch)
    ensures Inv(RenameStep(w, p, epoch, fault))
  {
    var w' := RenameStep(w, p, epoch, fault);
    assert ProcessOk(w, p, w.processes[p]);
    NothingIssuedYet(w, p);
    if fault == Before {
      MayMove(w, p, Unwinding);
      QuietMove(w, w', p, Unwinding);
    } else {
      PrintReads(epoch);
      forall q {:trigger ProcessOk(w', q, w'.processes[q])} | q in w'.processes
        ensures ProcessOk(w', q, w'.processes[q])
      {
        if q != p {
          assert ProcessOk(w, q, w.processes[q]);
          assert Compatible(w.processes[q], w.processes[p]);
        }
      }
      forall a, b {:trigger Compatible(w'.processes[a], w'.processes[b])} | a in w'.processes && b in w'.processes && a != b
        ensures Compatible(w'.processes[a], w'.processes[b])
      {
        if a != p && b != p {
          assert Compatible(w.processes[a], w.processes[b]);
        }
      }
      forall t {:trigger TokenOk(w', t)} | t in w'.issued
        ensures TokenOk(w', t)
      {
        assert TokenOk(w, t);
      }
    }
  }

  lemma SyncKeeps(w: World, p: Id, epoch: nat, fault: Fault)
    requires Inv(w) && At(w, p) == Renamed(epoch)
    ensures Inv(SyncStep(w, p, epoch, fault))
  {
    var w' := SyncStep(w, p, epoch, fault);
    assert ProcessOk(w, p, w.processes[p]);
    NothingIssuedYet(w, p);
    MayMove(w, p, At(w', p));
    QuietMove(w, w', p, At(w', p));
  }

  lemma UnlockKeeps(w: World, p: Id, next: Process, fault: Fault)
    requires Inv(w) && (At(w, p).Synced? || At(w, p).Unwinding?)
    requires next == Gone || (At(w, p).Synced? && next == Serving(Session(At(w, p).epoch, 0, false)))
    ensures Inv(UnlockStep(w, p, next, fault))
  {
    var w' := UnlockStep(w, p, next, fault);
    assert ProcessOk(w, p, w.processes[p]);
    if At(w', p) == Gone {
      ToGone(w, w', p);
    } else {
      NothingIssuedYet(w, p);
      MayMove(w, p, next);
      QuietMove(w, w', p, next);
    }
  }

  lemma NextKeeps(w: World, p: Id, s: Session)
    requires Inv(w) && At(w, p) == Serving(s)
    ensures Inv(NextStep(w, p, s))
  {
    var w' := NextStep(w, p, s);
    assert ProcessOk(w, p, w.processes[p]);
    forall q {:trigger ProcessOk(w', q, w'.processes[q])} | q in w'.processes
      ensures ProcessOk(w', q, w'.processes[q])
    {
      if q != p {
        assert ProcessOk(w, q, w.processes[q]);
      }
    }
    forall a, b {:trigger Compatible(w'.processes[a], w'.processes[b])} | a in w'.processes && b in w'.processes && a != b
      ensures Compatible(w'.processes[a], w'.processes[b])
    {
      assert a != p && b != p ==> Compatible(w.processes[a], w.processes[b]);
    }
    forall t {:trigger TokenOk(w', t)} | t in w'.issued
      ensures TokenOk(w', t)
    {
      assert t in w.issued ==> TokenOk(w, t);
    }
    if Serves(s, w.file) {
      forall i | 0 <= i < |w.issued|
        ensures After((s.epoch, s.sequence + 1), (w.issued[i].epoch, w.issued[i].sequence))
      {
        assert w.issued[i] in w.issued;
        assert TokenOk(w, w.issued[i]);
      }
    }
  }

  lemma OutsideKeeps(w: World, w': World)
    requires Inv(w)
    requires (w' == w.(lock := None) && w.lock.Some? && At(w, w.lock.value) == Gone)
      || (w' == w.(file := w'.file) && ReadFile(w'.file).None?)
    ensures Inv(w')
  {
    forall q {:trigger ProcessOk(w', q, w'.processes[q])} | q in w'.processes
      ensures ProcessOk(w', q, w'.processes[q])
    {
      assert ProcessOk(w, q, w.processes[q]);
    }
    forall a, b {:trigger Compatible(w'.processes[a], w'.processes[b])} | a in w'.processes && b in w'.processes && a != b
      ensures Compatible(w'.processes[a], w'.processes[b])
    {
      assert Compatible(w.processes[a], w.processes[b]);
    }
    forall t {:trigger TokenOk(w', t)} | t in w'.issued
      ensures TokenOk(w', t)
    {
      assert TokenOk(w, t);
    }
  }

  /** A crash of the host cuts the publications back to a length that no
      session and no token depends on. */
  lemma HostCrashKeeps(w: World, kept: nat, directory: bool, lock: Option<Id>, temporary: Option<string>)
    requires Inv(w)
    ensures Inv(HostCrashStep(w, kept, directory, lock, temporary))
  {
    var w' := HostCrashStep(w, kept, directory, lock, temporary);
    if w' != w {
      if 0 < kept < |w.published| {
        PrintReads(kept);
      }
      forall t {:trigger TokenOk(w', t)} | t in w'.issued
        ensures TokenOk(w', t)
      {
        assert TokenOk(w, t);
      }
    }
  }

  lemma StepKeeps(w: World, e: Event)
    requires Inv(w)
    ensures Inv(Step(w, e))
  {
    match e
    case Mkdir(p, fault) =>
      if At(w, p) == Starting {
        MkdirKeeps(w, p, fault);
      }
    case Lock(p, fault) =>
      if At(w, p).Entered? {
        LockKeeps(w, p, At(w, p).created, fault);
      }
    case Read(p, fault) =>
      if At(w, p).Locked? {
        ReadKeeps(w, p, At(w, p).created, fault);
      }
    case Write(p, fault, debris) =>
      if At(w, p).Prepared? {
        WriteKeeps(w, p, At(w, p).epoch, fault, debris);
      }
    case Rename(p, fault) =>
      if At(w, p).Written? {
        RenameKeeps(w, p, At(w, p).epoch, fault);
      }
    case Sync(p, fault) =>
      if At(w, p).Renamed? {
        SyncKeeps(w, p, At(w, p).epoch, fault);
      }
    case Unlock(p, fault) =>
      if At(w, p).Synced? {
        UnlockKeeps(w, p, Serving(Session(At(w, p).epoch, 0, false)), fault);
      } else if At(w, p).Unwinding? {
        UnlockKeeps(w, p, Gone, fault);
      }
    case Next(p) =>
      if At(w, p).Serving? {
        NextKeeps(w, p, At(w, p).session);
      }
    case Die(p) => ToGone(w, Put(w, p, Gone), p);
    case ClearLock =>
      if w.lock.Some? && At(w, w.lock.value) == Gone {
        OutsideKeeps(w, w.(lock := None));
      }
    case Damage(debris) =>
      if ReadFile(debris).None? {
        OutsideKeeps(w, w.(file := debris));
      }
    case HostCrash(kept, directory, lock, temporary) => HostCrashKeeps(w, kept, directory, lock, temporary);
  }

  lemma {:induction false} RunKeeps(events: seq<Event>)
    ensures Inv(Run(events))
    decreases |events|
  {
    if events == [] {
      assert ReadFile(EMPTY.file).None?;
    } else {
      RunKeeps(events[..|events| - 1]);
      StepKeeps(Run(events[..|events| - 1]), events[|events| - 1]);
    }
  }

  // ---------------------------------------------------------------- theorems

  /** In every run, the publications that stand are 1, 2, 3, ... without gaps,
      each epoch once and by one process. */
  lemma EpochsPublishedOnce(events: seq<Event>, i: nat, j: nat)
    requires var w := Run(events); i < |w.published| && j < |w.published|
    ensures var w := Run(events);
      && w.published[i].epoch == i + 1
      && (w.published[i].epoch == w.published[j].epoch ==> i == j)
  {
    RunKeeps(events);
  }

  predicate Prefix(w: World, w': World) {
    w.durable <= w'.durable && w.durable <= |w.published| && w.durable <= |w'.published|
    && w'.published[..w.durable] == w.published[..w.durable]
  }

  lemma StepPrefix(w: World, e: Event)
    requires Inv(w)
    ensures Prefix(w, Step(w, e))
  {
  }

  lemma RunExtends(events: seq<Event>, more: seq<Event>)
    requires more != []
    ensures Run(events + more) == Step(Run(events + more[..|more| - 1]), more[|more| - 1])
  {
    FrontOfSum(events, more);
  }

  lemma {:induction false} RunPrefix(events: seq<Event>, more: seq<Event>)
    ensures Prefix(Run(events), Run(events + more))
    decreases |more|
  {
    if more == [] {
      RunKeeps(events);
      assert events + more == events;
    } else {
      var front, e := more[..|more| - 1], more[|more| - 1];
      RunPrefix(events, front);
      RunExtends(events, more);
      RunKeeps(events + front);
      StepPrefix(Run(events + front), e);
      PrefixTogether(Run(events), Run(events + front), Run(events + more));
    }
  }

  lemma PrefixTogether(w: World, m: World, w': World)
    requires Prefix(w, m) && Prefix(m, w')
    ensures Prefix(w, w')
  {
    assert w'.published[..w.durable] == w'.published[..m.durable][..w.durable];
    assert m.published[..w.durable] == m.published[..m.durable][..w.durable];
  }

  /** The process has returned a session, or is past the directory sync and about to. */
  predicate Opened(v: Process, epoch: nat) {
    v == Synced(epoch) || (v.Serving? && v.session.epoch == epoch)
  }

  /** What the directory sync buys: once a process is past it, nothing that
      follows, host crashes included, undoes its publication. */
  lemma OpenedStands(events: seq<Event>, more: seq<Event>, p: Id, epoch: nat)
    requires Opened(At(Run(events), p), epoch)
    ensures Owner(Run(events + more), p, epoch)
  {
    RunKeeps(events);
    var w, w' := Run(events), Run(events + more);
    assert ProcessOk(w, p, w.processes[p]);
    RunPrefix(events, more);
    assert w'.published[..w.durable][epoch - 1] == w.published[..w.durable][epoch - 1];
  }

  /** So no two processes ever open the same epoch. */
  lemma EpochOpenedOnce(events: seq<Event>, more: seq<Event>, p: Id, q: Id, epoch: nat)
    requires Opened(At(Run(events), p), epoch) && Opened(At(Run(events + more), q), epoch)
    ensures p == q
  {
    OpenedStands(events, more, p, epoch);
    OpenedStands(events + more, [], q, epoch);
    assert events + more + [] == events + more;
  }

  /** And it is needed: a publication survives every crash of the host if and
      only if a directory sync followed it. */
  lemma StandsIffSynced(events: seq<Event>, epoch: nat)
    requires epoch <= |Run(events).published|
    ensures (forall kept, directory, lock, temporary ::
        epoch <= |HostCrashStep(Run(events), kept, directory, lock, temporary).published|) <==> epoch <= Run(events).durable
  {
    RunKeeps(events);
    var w := Run(events);
    assert |HostCrashStep(w, w.durable, true, None, None).published| == w.durable;
  }

  /** The five calls up to the rename. */
  function Renames(w: World, p: Id): World {
    Step(Step(Step(Step(Step(w, Mkdir(p, NoFault)), Lock(p, NoFault)), Read(p, NoFault)), Write(p, NoFault, None)), Rename(p, NoFault))
  }

  predicate Ready(w: World, epoch: nat) {
    w.directory && w.lock.None? && 1 <= epoch < U64 && w.file == Some(Print(epoch))
  }

  lemma RenamesNext(w: World, p: Id, epoch: nat)
    requires Ready(w, epoch) && At(w, p) == Starting
    ensures var w' := Renames(w, p);
      && At(w', p) == Renamed(epoch + 1) && w'.published == w.published + [Published(p, epoch + 1)]
      && w'.directory && w'.durable == w.durable && w'.processes.Keys == w.processes.Keys + {p}
  {
    PrintReads(epoch);
  }

  /** Without it an epoch is published twice: wherever a starter may begin, it
      and the next one, with a crash between the rename and the sync of the
      first, both rename the same epoch into place. */
  lemma UnsyncedIsPublishedAgain(events: seq<Event>, p: Id, q: Id, epoch: nat)
    requires Ready(Run(events), epoch) && Run(events).durable == epoch
    requires At(Run(events), p) == Starting && q !in Run(events).processes && p != q
    ensures var w1 := Renames(Run(events), p);
      var w2 := Renames(Step(w1, HostCrash(epoch, true, None, None)), q);
      && At(w1, p) == Renamed(epoch + 1) && At(w2, q) == Renamed(epoch + 1)
      && w1.published == Run(events).published + [Published(p, epoch + 1)]
      && w2.published == Run(events).published + [Published(q, epoch + 1)]
  {
    RunKeeps(events);
    var w := Run(events);
    PrintReads(epoch);
    RenamesNext(w, p, epoch);
    var crashed := Step(Renames(w, p), HostCrash(epoch, true, None, None));
    assert crashed.published == w.published;
    RenamesNext(crashed, q, epoch);
  }

  /** Tokens, in the order of the file reads inside `next()`, strictly increase
      across all processes, and each comes from the publisher of its epoch. */
  lemma TokensIncrease(events: seq<Event>, i: nat, j: nat)
    requires var w := Run(events); i < j < |w.issued|
    ensures var w := Run(events);
      && After((w.issued[j].epoch, w.issued[j].sequence), (w.issued[i].epoch, w.issued[i].sequence))
      && Owner(w, w.issued[i].process, w.issued[i].epoch)
      && (w.issued[i].epoch == w.issued[j].epoch ==> w.issued[i].process == w.issued[j].process)
  {
    RunKeeps(events);
    var w := Run(events);
    assert w.issued[i] in w.issued && w.issued[j] in w.issued;
    assert TokenOk(w, w.issued[i]) && TokenOk(w, w.issued[j]);
  }

  /** A process that created the directory and does not yet hold the lock sees
      no epoch: nothing has been published and the file cannot be read. */
  lemma PendingCreatorMeansNoEpoch(events: seq<Event>, p: Id)
    requires Pending(At(Run(events), p))
    ensures Run(events).published == [] && ReadFile(Run(events).file).None?
  {
    RunKeeps(events);
    var w := Run(events);
    assert ProcessOk(w, p, w.processes[p]);
    if ReadFile(w.file).Some? {
      ReadPrints(w.file.value);
    }
  }

  /** At most one live process is between taking the lock and giving it back. */
  lemma LockExcludes(events: seq<Event>, p: Id, q: Id)
    requires Holds(At(Run(events), p)) && Holds(At(Run(events), q))
    ensures p == q
  {
    RunKeeps(events);
    var w := Run(events);
    assert ProcessOk(w, p, w.processes[p]) && ProcessOk(w, q, w.processes[q]);
  }

  function TokenText(t: Issued): Token {
    Token(Print(t.epoch), Print(t.sequence))
  }

  /** Server and client together: a client that is shown only tokens some
      process issued, in any order and any number of times, accepts them in the
      order of the file reads. */
  lemma ClientFollowsServers(events: seq<Event>, inputs: seq<Input>, a: nat, b: nat, i: nat, j: nat)
    requires var w := Run(events); i < |w.issued| && j < |w.issued|
    requires var tokens := Accepted(inputs);
      a < b < |tokens| && tokens[a] == TokenText(Run(events).issued[i]) && tokens[b] == TokenText(Run(events).issued[j])
    ensures i < j
  {
    RunKeeps(events);
    AcceptedIncrease(inputs);
    NewerIsLater(Run(events), i, j);
  }

  lemma NewerIsLater(w: World, i: nat, j: nat)
    requires Inv(w) && i < |w.issued| && j < |w.issued|
    requires IsNewer(TokenText(w.issued[j]), Some(TokenText(w.issued[i])))
    ensures i < j
  {
    var a, b := w.issued[i], w.issued[j];
    assert a in w.issued && b in w.issued;
    assert TokenOk(w, a) && TokenOk(w, b);
    PrintDigits(a.epoch);
    PrintDigits(a.sequence);
    PrintDigits(b.epoch);
    PrintDigits(b.sequence);
    NewerIsLexicographic(TokenText(b), TokenText(a));
    assert i >= j ==> !After((b.epoch, b.sequence), (a.epoch, a.sequence));
  }
}
