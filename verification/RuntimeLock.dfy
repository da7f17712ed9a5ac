/**
 The runtime lock of one state path: a main lock file, and a chain of takeover mutex files
 (`.takeover`, `.takeover.1`, `.takeover.2`, ...) that serializes recovery and release.

 Any number of processes run the code at once.  Every filesystem call is one step, the scheduler picks
 the process that moves next, a call may work, fail without effect, or fail after its effect, and a
 process may crash between any two steps.
 */
module RuntimeLock {
  import opened Wrappers

  /** One incarnation of a process: its pid together with its start time. */
  type Proc = nat

  /** A lock record.  Two snapshots of a path agree exactly when they hold the same record. */
  datatype Record = Record(owner: Proc, token: nat)

  /** Why the takeover mutex is wanted: to acquire the main lock, or to release a handle on it. */
  datatype Goal = Acquire(record: Record) | Release(handle: Record)

  datatype FastStep = CheckMutex | CreateMain | ReadBack | RecheckMain | RecheckMutex

  datatype MutexStep =
    | Create
    | ReadOwn(mine: Record)
    | CheckEvidence
    | ReadExisting
    | Inspect(existing: Record)
    | Recheck(existing: Record)

  datatype CriticalStep =
    | CheckMain
    | ReadMain
    | InspectMain(stale: Record)
    | AssertMain(stale: Record)
    | AssertMutex(stale: Record)
    | RemoveStale(stale: Record)
    | AssertMutexBeforeCreate
    | CreateNew
    | AssertMutexAfterCreate
    | ReadCreated
    | AssertOwned
    | AssertMutexBeforeRelease
    | RemoveOwned
    | CleanupAssert(created: Option<Record>)
    | CleanupRemove(created: Option<Record>)

  /** Where a process is in acquireRuntimeLock or release. */
  datatype PC =
    | Idle
    | Fast(record: Record, fast: FastStep)
    | Mutex(goal: Goal, generation: nat, mutex: MutexStep)
    | Critical(goal: Goal, generation: nat, mine: Record, critical: CriticalStep)

  /**
   `held`: acquired handles whose record the process has not removed.
   `lost`: handles whose record was removed by a removal that then reported an error, so that the
   handle still believes it is not released.
   */
  datatype Process = Process(pc: PC, held: set<Record>, lost: set<Record>)

  datatype World = World(
    main: Option<Record>,
    mutexes: map<nat, Record>,
    procs: map<Proc, Process>,
    ended: set<Proc>,
    nextToken: nat)

  datatype Io = Works | Fails | FailsAfterEffect

  datatype Event =
    | Spawn(p: Proc)
    | Crash(p: Proc)
    | BeginAcquire(p: Proc)
    | BeginRelease(p: Proc, handle: Record)
    | Act(p: Proc, io: Io, verdict: bool)

  const Init := World(None, map[], map[], {}, 0)

  function Goto(w: World, p: Proc, pc: PC): World
    requires p in w.procs
  {
    w.(procs := w.procs[p := w.procs[p].(pc := pc)])
  }

  /** The inspector is sound: it calls an owner dead only when that process has ended; it may fail to. */
  predicate DemonstrablyDead(w: World, r: Record, verdict: bool) {
    verdict && r.owner in w.ended
  }

  predicate IsAt(file: Option<Record>, r: Record, io: Io) {
    io.Works? && file == Some(r)
  }

  function MutexFile(w: World, generation: nat): Option<Record> {
    if generation in w.mutexes then Some(w.mutexes[generation]) else None
  }

  /** acquireRuntimeLock up to the takeover mutex: the attempt that needs no mutex. */
  function FastAct(w: World, p: Proc, io: Io): World
    requires p in w.procs && w.procs[p].pc.Fast?
  {
    var rec := w.procs[p].pc.record;
    var slow := Goto(w, p, Mutex(Acquire(rec), 0, Create));
    match w.procs[p].pc.fast
    case CheckMutex =>
      if !io.Works? then Goto(w, p, Idle)
      else if 0 in w.mutexes then slow
      else Goto(w, p, Fast(rec, CreateMain))
    case CreateMain =>
      if io.Fails? || w.main.Some? then Goto(w, p, Fast(rec, RecheckMain))
      else Goto(w.(main := Some(rec)), p, Fast(rec, if io.Works? then ReadBack else RecheckMain))
    case ReadBack =>
      if io.Works? && w.main.Some?
      then w.(procs := w.procs[p := w.procs[p].(pc := Idle, held := w.procs[p].held + {w.main.value})])
      else Goto(w, p, Fast(rec, RecheckMain))
    case RecheckMain =>
      if !io.Works? then Goto(w, p, Idle)
      else if w.main.Some? then slow
      else Goto(w, p, Fast(rec, RecheckMutex))
    case RecheckMutex =>
      if io.Works? && 0 in w.mutexes then slow else Goto(w, p, Idle)
  }

  /** acquireTakeoverMutex: climb past dead owners' files until an exclusive create succeeds. */
  function MutexAct(w: World, p: Proc, io: Io, verdict: bool): World
    requires p in w.procs && w.procs[p].pc.Mutex?
  {
    var pc := w.procs[p].pc;
    var g := pc.generation;
    match pc.mutex
    case Create =>
      var mine := Record(p, w.nextToken);
      var w' := w.(nextToken := w.nextToken + 1);
      if io.Fails? || g in w.mutexes then Goto(w', p, pc.(mutex := CheckEvidence))
      else Goto(w'.(mutexes := w.mutexes[g := mine]), p,
                pc.(mutex := if io.Works? then ReadOwn(mine) else CheckEvidence))
    case ReadOwn(_) =>
      if io.Works? && g in w.mutexes
      then Goto(w, p, Critical(pc.goal, g, w.mutexes[g], if pc.goal.Acquire? then CheckMain else AssertOwned))
      else Goto(w, p, pc.(mutex := CheckEvidence))
    case CheckEvidence =>
      if io.Works? && g in w.mutexes then Goto(w, p, pc.(mutex := ReadExisting)) else Goto(w, p, Idle)
    case ReadExisting =>
      if io.Works? && g in w.mutexes then Goto(w, p, pc.(mutex := Inspect(w.mutexes[g]))) else Goto(w, p, Idle)
    case Inspect(existing) =>
      if DemonstrablyDead(w, existing, verdict) then Goto(w, p, pc.(mutex := Recheck(existing)))
      else Goto(w, p, Idle)
    case Recheck(existing) =>
      if IsAt(MutexFile(w, g), existing, io) then Goto(w, p, Mutex(pc.goal, g + 1, Create))
      else Goto(w, p, Idle)
  }

  /** The work done while holding the takeover mutex, ending with its cleanup. */
  function CriticalAct(w: World, p: Proc, io: Io, verdict: bool): World
    requires p in w.procs && w.procs[p].pc.Critical?
  {
    var pc := w.procs[p].pc;
    var me := w.procs[p];
    var ownsMutex := IsAt(MutexFile(w, pc.generation), pc.mine, io);
    var abort := Goto(w, p, pc.(critical := CleanupAssert(None)));
    match pc.critical
    case CheckMain =>
      if !io.Works? then abort
      else Goto(w, p, pc.(critical := if w.main.Some? then ReadMain else AssertMutexBeforeCreate))
    case ReadMain =>
      if io.Works? && w.main.Some? then Goto(w, p, pc.(critical := InspectMain(w.main.value))) else abort
    case InspectMain(stale) =>
      if DemonstrablyDead(w, stale, verdict) then Goto(w, p, pc.(critical := AssertMain(stale))) else abort
    case AssertMain(stale) =>
      if IsAt(w.main, stale, io) then Goto(w, p, pc.(critical := AssertMutex(stale))) else abort
    case AssertMutex(stale) =>
      if ownsMutex then Goto(w, p, pc.(critical := RemoveStale(stale))) else abort
    case RemoveStale(_) =>
      if io.Fails? || w.main.None? then abort
      else Goto(w.(main := None), p,
                pc.(critical := if io.Works? then AssertMutexBeforeCreate else CleanupAssert(None)))
    case AssertMutexBeforeCreate =>
      if ownsMutex then Goto(w, p, pc.(critical := CreateNew)) else abort
    case CreateNew =>
      if io.Fails? || w.main.Some? || pc.goal.Release? then abort
      else Goto(w.(main := Some(pc.goal.record)), p,
                pc.(critical := if io.Works? then AssertMutexAfterCreate else CleanupAssert(None)))
    case AssertMutexAfterCreate =>
      if ownsMutex then Goto(w, p, pc.(critical := ReadCreated)) else abort
    case ReadCreated =>
      if io.Works? && w.main.Some? && pc.goal == Acquire(w.main.value)
      then Goto(w, p, pc.(critical := CleanupAssert(w.main))) else abort
    case AssertOwned =>
      if pc.goal.Release? && IsAt(w.main, pc.goal.handle, io)
      then Goto(w, p, pc.(critical := AssertMutexBeforeRelease)) else abort
    case AssertMutexBeforeRelease =>
      if ownsMutex then Goto(w, p, pc.(critical := RemoveOwned)) else abort
    case RemoveOwned =>
      if io.Fails? || w.main.None? || pc.goal.Acquire? then abort
      else
        var r := pc.goal.handle;
        var lost := if io.Works? then me.lost - {r} else me.lost + {r};
        w.(main := None,
           procs := w.procs[p := Process(pc.(critical := CleanupAssert(None)), me.held - {r}, lost)])
    case CleanupAssert(created) =>
      if ownsMutex then Goto(w, p, pc.(critical := CleanupRemove(created))) else Finish(w, p, created)
    case CleanupRemove(created) =>
      if io.Fails? then Finish(w, p, created)
      else Finish(w.(mutexes := w.mutexes - {pc.generation}), p, created)
  }

  /** The call returns: with a handle on the created record, or by throwing. */
  function Finish(w: World, p: Proc, created: Option<Record>): World
    requires p in w.procs
  {
    var held := w.procs[p].held + (if created.Some? then {created.value} else {});
    w.(procs := w.procs[p := w.procs[p].(pc := Idle, held := held)])
  }

  /** One step of the whole system.  An event that does not apply changes nothing. */
  function Next(w: World, e: Event): World {
    match e
    case Spawn(p) =>
      if p in w.procs || p in w.ended then w
      else w.(procs := w.procs[p := Process(Idle, {}, {})])
    case Crash(p) =>
      if p !in w.procs then w
      else w.(procs := w.procs - {p}, ended := w.ended + {p})
    case BeginAcquire(p) =>
      if p !in w.procs || !w.procs[p].pc.Idle? then w
      else Goto(w.(nextToken := w.nextToken + 1), p, Fast(Record(p, w.nextToken), CheckMutex))
    case BeginRelease(p, h) =>
      if p !in w.procs || !w.procs[p].pc.Idle? || h !in w.procs[p].held + w.procs[p].lost then w
      else Goto(w, p, Mutex(Release(h), 0, Create))
    case Act(p, io, verdict) =>
      if p !in w.procs then w
      else match w.procs[p].pc
        case Idle => w
        case Fast(_, _) => FastAct(w, p, io)
        case Mutex(_, _, _) => MutexAct(w, p, io, verdict)
        case Critical(_, _, _, _) => CriticalAct(w, p, io, verdict)
  }

  function Run(w: World, events: seq<Event>): World {
    if events == [] then w else Next(Run(w, events[..|events| - 1]), events[|events| - 1])
  }

  // ----- What every step keeps

  /** A generation exists only above a file whose owner has ended. */
  ghost predicate ChainOk(w: World) {
    forall g: nat :: g + 1 in w.mutexes ==> DeadFile(w, g)
  }

  ghost predicate DeadFile(w: World, g: nat) {
    g in w.mutexes && w.mutexes[g].owner in w.ended
  }

  ghost predicate FastOk(w: World, p: Proc, pc: PC)
    requires pc.Fast?
  {
    && pc.record.owner == p
    && (pc.fast.ReadBack? ==> w.main == Some(pc.record))
  }

  ghost predicate MutexOk(w: World, p: Proc, pc: PC)
    requires pc.Mutex?
  {
    && (forall g: nat :: g < pc.generation ==> DeadFile(w, g))
    && (pc.mutex.ReadOwn? ==> pc.mutex.mine.owner == p && MutexFile(w, pc.generation) == Some(pc.mutex.mine))
    && (pc.mutex.Recheck? ==> pc.mutex.existing.owner in w.ended)
  }

  ghost predicate CriticalOk(w: World, p: Proc, pc: PC)
    requires pc.Critical?
  {
    && pc.mine.owner == p
    && MutexFile(w, pc.generation) == Some(pc.mine)
    && match pc.critical
       case AssertMain(stale) => stale.owner in w.ended
       case AssertMutex(stale) => w.main == Some(stale) && stale.owner in w.ended
       case RemoveStale(stale) => w.main == Some(stale) && stale.owner in w.ended
       case AssertMutexAfterCreate => pc.goal.Acquire? && w.main == Some(pc.goal.record)
       case ReadCreated => pc.goal.Acquire? && w.main == Some(pc.goal.record)
       case AssertMutexBeforeRelease => pc.goal.Release? && w.main == Some(pc.goal.handle)
       case RemoveOwned => pc.goal.Release? && w.main == Some(pc.goal.handle)
       case CleanupAssert(created) => created.Some? ==> pc.goal == Acquire(created.value) && w.main == created
       case CleanupRemove(created) => created.Some? ==> pc.goal == Acquire(created.value) && w.main == created
       case _ => true
  }

  ghost predicate PcOk(w: World, p: Proc, pc: PC) {
    match pc
    case Idle => true
    case Fast(_, _) => FastOk(w, p, pc)
    case Mutex(goal, _, _) => GoalOk(p, goal) && MutexOk(w, p, pc)
    case Critical(goal, _, _, _) => GoalOk(p, goal) && CriticalOk(w, p, pc)
  }

  ghost predicate GoalOk(p: Proc, goal: Goal) {
    match goal
    case Acquire(r) => r.owner == p
    case Release(r) => r.owner == p
  }

  ghost predicate ProcessOk(w: World, p: Proc)
    requires p in w.procs
  {
    && p !in w.ended
    && (forall r :: r in w.procs[p].held ==> r.owner == p && w.main == Some(r))
    && (forall r :: r in w.procs[p].lost ==> r.owner == p)
    && PcOk(w, p, w.procs[p].pc)
  }

  ghost predicate Inv(w: World) {
    && ChainOk(w)
    && (forall p :: p in w.procs ==> ProcessOk(w, p))
  }

  /** Below any existing generation lie only files of ended processes. */
  lemma {:induction false} ChainBelow(w: World, g: nat, h: nat)
    requires ChainOk(w) && h in w.mutexes && g < h
    ensures DeadFile(w, g)
    decreases h - g
  {
    assert DeadFile(w, h - 1);
    if g < h - 1 {
      ChainBelow(w, g, h - 1);
    }
  }

  lemma NoFileWithoutBase(w: World)
    requires ChainOk(w) && 0 !in w.mutexes
    ensures forall g :: g !in w.mutexes
  {
    forall g
      ensures g !in w.mutexes
    {
      if g > 0 && g in w.mutexes { ChainBelow(w, 0, g); }
    }
  }

  /** Two live processes never hold takeover mutex files of different generations. */
  lemma OneLiveMutexFile(w: World, g: nat, h: nat)
    requires ChainOk(w)
    requires g in w.mutexes && w.mutexes[g].owner !in w.ended
    requires h in w.mutexes && w.mutexes[h].owner !in w.ended
    ensures g == h
  {
    if g < h { ChainBelow(w, g, h); }
    if h < g { ChainBelow(w, h, g); }
  }

  lemma OneCritical(w: World, p: Proc, q: Proc)
    requires Inv(w) && p in w.procs && q in w.procs
    requires w.procs[p].pc.Critical? && w.procs[q].pc.Critical?
    ensures p == q
  {
    assert ProcessOk(w, p) && ProcessOk(w, q);
    OneLiveMutexFile(w, w.procs[p].pc.generation, w.procs[q].pc.generation);
  }

  // ----- Every step keeps the invariant

  ghost predicate KeepsDeadFiles(w: World, w': World) {
    forall g: nat :: DeadFile(w, g) ==> DeadFile(w', g)
  }

  /** Only the process `p` moved. */
  ghost predicate OnlyMoved(w: World, w': World, p: Proc) {
    && w'.ended == w.ended
    && w'.procs.Keys == w.procs.Keys
    && (forall q :: q in w.procs && q != p ==> w'.procs[q] == w.procs[q])
  }

  /** A step of `p` that writes no file matters to no other process. */
  lemma QuietStepKeeps(w: World, w': World, p: Proc)
    requires Inv(w) && OnlyMoved(w, w', p) && p in w.procs
    requires w'.main == w.main && w'.mutexes == w.mutexes
    requires ProcessOk(w', p)
    ensures Inv(w')
  {
    assert KeepsDeadFiles(w, w');
    forall q | q in w'.procs
      ensures ProcessOk(w', q)
    {
      assert ProcessOk(w, q);
    }
  }

  /** A created main file was absent before, so no other process relied on its contents. */
  lemma MainCreateKeeps(w: World, w': World, p: Proc)
    requires Inv(w) && OnlyMoved(w, w', p) && p in w.procs
    requires w.main.None? && w'.mutexes == w.mutexes
    requires ProcessOk(w', p)
    ensures Inv(w')
  {
    assert KeepsDeadFiles(w, w');
    forall q | q in w'.procs
      ensures ProcessOk(w', q)
    {
      assert ProcessOk(w, q);
    }
  }

  /**
   The main file is removed only inside the critical section, when it holds the remover's own record or
   that of an ended process, so no other process relied on it.
   */
  lemma MainRemoveKeeps(w: World, w': World, p: Proc)
    requires Inv(w) && OnlyMoved(w, w', p) && p in w.procs
    requires w.procs[p].pc.Critical?
    requires w.main.Some? && (w.main.value.owner == p || w.main.value.owner in w.ended)
    requires w'.main.None? && w'.mutexes == w.mutexes
    requires ProcessOk(w', p)
    ensures Inv(w')
  {
    assert KeepsDeadFiles(w, w');
    forall q | q in w'.procs
      ensures ProcessOk(w', q)
    {
      assert ProcessOk(w, q);
      if q != p && w.procs[q].pc.Critical? { OneCritical(w, p, q); }
    }
  }

  lemma FastKeeps(w: World, p: Proc, io: Io)
    requires Inv(w) && p in w.procs && w.procs[p].pc.Fast?
    ensures Inv(FastAct(w, p, io))
  {
    if w.procs[p].pc.fast.CreateMain? { FastCreateKeeps(w, p, io); } else { FastReadKeeps(w, p, io); }
  }

  lemma FastCreateKeeps(w: World, p: Proc, io: Io)
    requires Inv(w) && p in w.procs && w.procs[p].pc.Fast? && w.procs[p].pc.fast.CreateMain?
    ensures Inv(FastAct(w, p, io))
  {
    var w' := FastAct(w, p, io);
    assert ProcessOk(w, p);
    assert ProcessOk(w', p);
    if w'.main == w.main { QuietStepKeeps(w, w', p); } else { MainCreateKeeps(w, w', p); }
  }

  lemma FastReadKeeps(w: World, p: Proc, io: Io)
    requires Inv(w) && p in w.procs && w.procs[p].pc.Fast? && !w.procs[p].pc.fast.CreateMain?
    ensures Inv(FastAct(w, p, io))
  {
    var w' := FastAct(w, p, io);
    assert ProcessOk(w, p);
    assert ProcessOk(w', p);
    QuietStepKeeps(w, w', p);
  }

  /** Going to a program point changes nothing but that point. */
  lemma GotoKeeps(w: World, p: Proc, pc: PC)
    requires Inv(w) && p in w.procs && PcOk(w, p, pc)
    ensures Inv(Goto(w, p, pc))
  {
    var w' := Goto(w, p, pc);
    assert ProcessOk(w, p);
    assert KeepsDeadFiles(w, w');
    assert ProcessOk(w', p);
    QuietStepKeeps(w, w', p);
  }

  lemma MutexReadKeeps(w: World, p: Proc, io: Io, verdict: bool)
    requires Inv(w) && p in w.procs && w.procs[p].pc.Mutex? && !w.procs[p].pc.mutex.Create?
    ensures Inv(MutexAct(w, p, io, verdict))
  {
    var w' := MutexAct(w, p, io, verdict);
    assert ProcessOk(w, p);
    var pc := w'.procs[p].pc;
    assert w' == Goto(w, p, pc);
    assert PcOk(w, p, pc);
    GotoKeeps(w, p, pc);
  }

  /** A new mutex file extends a chain of files of ended processes. */
  lemma MutexCreateKeeps(w: World, p: Proc, io: Io, verdict: bool)
    requires Inv(w) && p in w.procs && w.procs[p].pc.Mutex? && w.procs[p].pc.mutex.Create?
    ensures Inv(MutexAct(w, p, io, verdict))
  {
    var w' := MutexAct(w, p, io, verdict);
    var gen := w.procs[p].pc.generation;
    assert ProcessOk(w, p);
    assert KeepsDeadFiles(w, w');
    assert ProcessOk(w', p);
    if w'.mutexes == w.mutexes {
      QuietStepKeeps(w, w', p);
    } else {
      forall g: nat | g + 1 in w'.mutexes
        ensures DeadFile(w', g)
      {
        assert g + 1 != gen ==> g + 1 in w.mutexes && DeadFile(w, g);
        assert g + 1 == gen ==> DeadFile(w, g);
      }
      forall q | q in w'.procs
        ensures ProcessOk(w', q)
      {
        assert ProcessOk(w, q);
      }
    }
  }

  /** The critical steps that write no file. */
  predicate WritesNothing(critical: CriticalStep) {
    !critical.RemoveStale? && !critical.CreateNew? && !critical.RemoveOwned? && !critical.CleanupRemove?
  }

  lemma CriticalReadKeeps(w: World, p: Proc, io: Io, verdict: bool)
    requires Inv(w) && p in w.procs && w.procs[p].pc.Critical? && WritesNothing(w.procs[p].pc.critical)
    ensures Inv(CriticalAct(w, p, io, verdict))
  {
    var w' := CriticalAct(w, p, io, verdict);
    assert ProcessOk(w, p);
    if w.procs[p].pc.critical.CleanupAssert? {
      CleanupAssertKeeps(w, p, io, verdict);
    } else {
      var pc := w'.procs[p].pc;
      assert w' == Goto(w, p, pc);
      assert PcOk(w, p, pc);
      GotoKeeps(w, p, pc);
    }
  }

  lemma CleanupAssertKeeps(w: World, p: Proc, io: Io, verdict: bool)
    requires Inv(w) && p in w.procs && w.procs[p].pc.Critical? && w.procs[p].pc.critical.CleanupAssert?
    ensures Inv(CriticalAct(w, p, io, verdict))
  {
    var w' := CriticalAct(w, p, io, verdict);
    assert ProcessOk(w, p);
    assert w'.main == w.main && w'.mutexes == w.mutexes && OnlyMoved(w, w', p);
    assert ProcessOk(w', p);
    QuietStepKeeps(w, w', p);
  }

  lemma CriticalWriteKeeps(w: World, p: Proc, io: Io, verdict: bool)
    requires Inv(w) && p in w.procs && w.procs[p].pc.Critical?
    requires !WritesNothing(w.procs[p].pc.critical) && !w.procs[p].pc.critical.CleanupRemove?
    ensures Inv(CriticalAct(w, p, io, verdict))
  {
    var w' := CriticalAct(w, p, io, verdict);
    assert ProcessOk(w, p);
    assert w'.mutexes == w.mutexes && OnlyMoved(w, w', p);
    assert ProcessOk(w', p);
    if w'.main == w.main { QuietStepKeeps(w, w', p); }
    else if w.main.None? { MainCreateKeeps(w, w', p); }
    else { MainRemoveKeeps(w, w', p); }
  }

  lemma CleanupRemoveKeeps(w: World, p: Proc, io: Io, verdict: bool)
    requires Inv(w) && p in w.procs && w.procs[p].pc.Critical? && w.procs[p].pc.critical.CleanupRemove?
    ensures Inv(CriticalAct(w, p, io, verdict))
  {
    var w' := CriticalAct(w, p, io, verdict);
    assert ProcessOk(w, p);
    assert KeepsDeadFiles(w, w');
    forall q | q in w'.procs
      ensures ProcessOk(w', q)
    {
      assert ProcessOk(w, q);
      if q != p && w.procs[q].pc.Critical? { OneCritical(w, p, q); }
    }
  }

  lemma CrashKeeps(w: World, p: Proc)
    requires Inv(w) && p in w.procs
    ensures Inv(Next(w, Crash(p)))
  {
    var w' := Next(w, Crash(p));
    assert KeepsDeadFiles(w, w');
    forall q | q in w'.procs
      ensures ProcessOk(w', q)
    {
      assert ProcessOk(w, q);
    }
  }

  lemma BeginKeeps(w: World, e: Event)
    requires Inv(w) && !e.Crash? && !e.Act?
    ensures Inv(Next(w, e))
  {
    var w' := Next(w, e);
    assert KeepsDeadFiles(w, w');
    forall q | q in w'.procs
      ensures ProcessOk(w', q)
    {
      assert q in w.procs ==> ProcessOk(w, q);
    }
  }

  lemma NextKeeps(w: World, e: Event)
    requires Inv(w)
    ensures Inv(Next(w, e))
  {
    match e
    case Crash(p) => if p in w.procs { CrashKeeps(w, p); }
    case Act(p, io, verdict) =>
      if p in w.procs {
        match w.procs[p].pc
        case Idle =>
        case Fast(_, _) => FastKeeps(w, p, io);
        case Mutex(_, _, step) =>
          if step.Create? { MutexCreateKeeps(w, p, io, verdict); } else { MutexReadKeeps(w, p, io, verdict); }
        case Critical(_, _, _, critical) =>
          if WritesNothing(critical) { CriticalReadKeeps(w, p, io, verdict); }
          else if critical.CleanupRemove? { CleanupRemoveKeeps(w, p, io, verdict); }
          else { CriticalWriteKeeps(w, p, io, verdict); }
      }
    case _ => BeginKeeps(w, e);
  }

  lemma {:induction false} RunKeeps(w: World, events: seq<Event>)
    requires Inv(w)
    ensures Inv(Run(w, events))
  {
    if events != [] {
      RunKeeps(w, events[..|events| - 1]);
      NextKeeps(Run(w, events[..|events| - 1]), events[|events| - 1]);
    }
  }

  // ----- Safety over every run

  /** `p` has acquired the main lock with handle `r` and has not removed it. */
  ghost predicate Holds(w: World, p: Proc, r: Record) {
    p in w.procs && r in w.procs[p].held
  }

  /**
   Mutual exclusion: over every interleaving, I/O failure and crash, at most one live process holds the
   main lock, and the main file is then exactly that process's record.
   */
  lemma MutualExclusion(events: seq<Event>, p: Proc, q: Proc, r: Record, s: Record)
    requires Holds(Run(Init, events), p, r) && Holds(Run(Init, events), q, s)
    ensures p == q && r == s && r.owner == p
    ensures Run(Init, events).main == Some(r)
  {
    var w := Run(Init, events);
    RunKeeps(Init, events);
    assert ProcessOk(w, p) && ProcessOk(w, q);
  }

  /** A holder that is inside release, and reads its file without an I/O error, always passes assertOwned. */
  lemma AssertOwnedNeverFails(events: seq<Event>, p: Proc, r: Record, verdict: bool)
    requires Holds(Run(Init, events), p, r)
    ensures IsAt(Run(Init, events).main, r, Works)
    ensures
      var w := Run(Init, events);
      var pc := w.procs[p].pc;
      pc.Critical? && pc.goal == Release(r) && pc.critical.AssertOwned? ==>
        Next(w, Act(p, Works, verdict)).procs[p].pc.critical.AssertMutexBeforeRelease?
  {
    MutualExclusion(events, p, p, r, r);
  }

  /** At most one live process has a takeover mutex file, and it is the newest generation. */
  lemma TakeoverChain(events: seq<Event>, g: nat, h: nat)
    requires g in Run(Init, events).mutexes && h in Run(Init, events).mutexes && g < h
    ensures Run(Init, events).mutexes[g].owner in Run(Init, events).ended
  {
    RunKeeps(Init, events);
    ChainBelow(Run(Init, events), g, h);
  }

  /** The mutex file of generation `g` is still there, unchanged, and its owner has ended. */
  ghost predicate StaysFrozen(w: World, w': World, g: nat)
    requires g in w.mutexes
  {
    DeadFile(w', g) && w'.mutexes[g] == w.mutexes[g]
  }

  lemma NextFreezesDeadFiles(w: World, e: Event, g: nat)
    requires Inv(w) && DeadFile(w, g)
    ensures StaysFrozen(w, Next(w, e), g)
  {
    match e
    case Act(p, io, verdict) => if p in w.procs { assert ProcessOk(w, p); }
    case _ =>
  }

  lemma RunSplit(w: World, before: seq<Event>, after: seq<Event>)
    requires after != []
    ensures Run(w, before + after) == Next(Run(w, before + after[..|after| - 1]), after[|after| - 1])
  {
    var rest, e := after[..|after| - 1], after[|after| - 1];
    assert before + after == before + rest + [e];
    RunOneMore(w, before + rest, e);
  }

  lemma RunOneMore(w: World, events: seq<Event>, e: Event)
    ensures Run(w, events + [e]) == Next(Run(w, events), e)
  {
    var all := events + [e];
    assert all[..|all| - 1] == events && all[|all| - 1] == e;
  }

  /** The mutex file of an ended process is never removed or rewritten in the rest of any run. */
  lemma {:induction false} DeadFilesAreFrozen(before: seq<Event>, after: seq<Event>, g: nat)
    requires DeadFile(Run(Init, before), g)
    ensures StaysFrozen(Run(Init, before), Run(Init, before + after), g)
  {
    if after == [] {
      assert before + after == before;
    } else {
      var rest := after[..|after| - 1];
      DeadFilesAreFrozen(before, rest, g);
      RunSplit(Init, before, after);
      RunKeeps(Init, before + rest);
      NextFreezesDeadFiles(Run(Init, before + rest), after[|after| - 1], g);
    }
  }

  /** The record a process has just validated before it unlinks the main file. */
  function Validated(pc: PC): Option<Record> {
    if !pc.Critical? then None
    else match pc.critical
      case RemoveStale(stale) => Some(stale)
      case RemoveOwned => if pc.goal.Release? then Some(pc.goal.handle) else None
      case _ => None
  }

  /**
   No ABA: a step that removes the main file is taken by a process inside the critical section, and what
   it removes is exactly the record it validated: its own, or that of an ended process.
   */
  lemma RemovalIsExact(events: seq<Event>, e: Event)
    requires Run(Init, events).main.Some?
    requires Next(Run(Init, events), e).main != Run(Init, events).main
    ensures e.Act? && e.p in Run(Init, events).procs
    ensures Validated(Run(Init, events).procs[e.p].pc) == Run(Init, events).main
    ensures
      var owner := Run(Init, events).main.value.owner;
      owner == e.p || owner in Run(Init, events).ended
    ensures Next(Run(Init, events), e).main == None
  {
    RunKeeps(Init, events);
    if e.Act? && e.p in Run(Init, events).procs { assert ProcessOk(Run(Init, events), e.p); }
  }

  /** Past its exclusive create, an acquiring process is bound to succeed. */
  predicate PastCreate(pc: PC) {
    && pc.Critical? && pc.goal.Acquire?
    && (pc.critical.AssertMutexAfterCreate? || pc.critical.ReadCreated?
        || pc.critical == CleanupAssert(Some(pc.goal.record)) || pc.critical == CleanupRemove(Some(pc.goal.record)))
  }

  lemma PastCreateTurn(w: World, p: Proc, verdict: bool)
    requires p in w.procs && w.procs[p].pc.Critical? && CriticalOk(w, p, w.procs[p].pc)
    requires PastCreate(w.procs[p].pc)
    ensures
      var w' := CriticalAct(w, p, Works, verdict);
      p in w'.procs && (PastCreate(w'.procs[p].pc) || (w'.procs[p].pc.Idle? && Holds(w', p, w.procs[p].pc.goal.record)))
  {
  }

  /** A busy process moves only by its own steps. */
  lemma OthersLeaveAlone(w: World, p: Proc, e: Event)
    requires p in w.procs && !w.procs[p].pc.Idle?
    requires e != Crash(p) && !(e.Act? && e.p == p)
    ensures p in Next(w, e).procs && Next(w, e).procs[p] == w.procs[p]
  {
  }

  /**
   Once the create of the main file succeeds, whatever the other processes do between its steps, no later
   check of the acquiring process fails unless its own filesystem call does: the lock is not stranded.
   */
  lemma CreatedLockIsNotStranded(events: seq<Event>, p: Proc, e: Event)
    requires p in Run(Init, events).procs && PastCreate(Run(Init, events).procs[p].pc)
    requires e != Crash(p) && (e.Act? && e.p == p ==> e.io.Works?)
    ensures
      var w := Run(Init, events);
      var w' := Next(w, e);
      p in w'.procs && (PastCreate(w'.procs[p].pc) || (w'.procs[p].pc.Idle? && Holds(w', p, w.procs[p].pc.goal.record)))
  {
    var w := Run(Init, events);
    RunKeeps(Init, events);
    assert ProcessOk(w, p);
    if e.Act? && e.p == p { PastCreateTurn(w, p, e.verdict); } else { OthersLeaveAlone(w, p, e); }
  }

  // ----- Tokens are never made twice

  /** Every record in the main file or a handle, or wanted by a call, has a token made before. */
  ghost predicate OldTokens(w: World) {
    && (w.main.Some? ==> w.main.value.token < w.nextToken)
    && (forall p :: p in w.procs ==> ProcessTokens(w.procs[p], w.nextToken))
  }

  ghost predicate ProcessTokens(me: Process, next: nat) {
    && (forall r :: r in me.held ==> r.token < next)
    && (me.pc.Fast? ==> me.pc.record.token < next)
    && (me.pc.Mutex? && me.pc.goal.Acquire? ==> me.pc.goal.record.token < next)
    && (me.pc.Critical? && me.pc.goal.Acquire? ==> me.pc.goal.record.token < next)
  }

  lemma {:induction false} TokensAreOld(events: seq<Event>)
    ensures OldTokens(Run(Init, events))
  {
    if events != [] {
      var before := events[..|events| - 1];
      TokensAreOld(before);
      RunKeeps(Init, before);
      NextTokens(Run(Init, before), events[|events| - 1]);
    }
  }

  lemma NextTokens(w: World, e: Event)
    requires OldTokens(w) && Inv(w)
    ensures OldTokens(Next(w, e))
  {
    if !e.Act? {
      OtherTokens(w, e);
    } else if e.p in w.procs && !w.procs[e.p].pc.Idle? {
      ActTokens(w, e.p, e.io, e.verdict);
    }
  }

  lemma OtherTokens(w: World, e: Event)
    requires OldTokens(w) && !e.Act?
    ensures OldTokens(Next(w, e))
  {
    var w' := Next(w, e);
    forall q | q in w'.procs ensures ProcessTokens(w'.procs[q], w'.nextToken) {
      if q in w.procs { assert ProcessTokens(w.procs[q], w.nextToken); }
    }
  }

  lemma ActTokens(w: World, p: Proc, io: Io, verdict: bool)
    requires OldTokens(w) && Inv(w) && p in w.procs && !w.procs[p].pc.Idle?
    ensures OldTokens(Next(w, Act(p, io, verdict)))
  {
    var w' := Next(w, Act(p, io, verdict));
    ActMoves(w, p, io, verdict);
    match w.procs[p].pc {
      case Fast(_, _) => FastTokens(w, p, io);
      case Mutex(_, _, _) => MutexTokens(w, p, io, verdict);
      case Critical(_, _, _, _) => CriticalTokens(w, p, io, verdict);
    }
    forall q | q in w'.procs ensures ProcessTokens(w'.procs[q], w'.nextToken) {
      assert ProcessTokens(w.procs[q], w.nextToken);
    }
  }

  ghost predicate Moves(w: World, w': World, p: Proc) {
    && w'.nextToken >= w.nextToken && w'.procs.Keys == w.procs.Keys
    && forall q :: q in w.procs && q != p ==> w'.procs[q] == w.procs[q]
  }

  /** A step of a process changes no other one. */
  lemma ActMoves(w: World, p: Proc, io: Io, verdict: bool)
    requires p in w.procs
    ensures Moves(w, Next(w, Act(p, io, verdict)), p)
  {
    match w.procs[p].pc
    case Idle =>
    case Fast(_, _) => FastMoves(w, p, io);
    case Mutex(_, _, _) => MutexMoves(w, p, io, verdict);
    case Critical(_, _, _, _) => CriticalMoves(w, p, io, verdict);
  }

  lemma FastMoves(w: World, p: Proc, io: Io)
    requires p in w.procs && w.procs[p].pc.Fast?
    ensures Moves(w, FastAct(w, p, io), p)
  {
  }

  lemma MutexMoves(w: World, p: Proc, io: Io, verdict: bool)
    requires p in w.procs && w.procs[p].pc.Mutex?
    ensures Moves(w, MutexAct(w, p, io, verdict), p)
  {
  }

  lemma CriticalMoves(w: World, p: Proc, io: Io, verdict: bool)
    requires p in w.procs && w.procs[p].pc.Critical?
    ensures Moves(w, CriticalAct(w, p, io, verdict), p)
  {
  }

  ghost predicate OwnTokens(w: World, p: Proc)
    requires p in w.procs
  {
    ProcessTokens(w.procs[p], w.nextToken) && (w.main.Some? ==> w.main.value.token < w.nextToken)
  }

  lemma FastTokens(w: World, p: Proc, io: Io)
    requires OldTokens(w) && p in w.procs && w.procs[p].pc.Fast?
    ensures OwnTokens(FastAct(w, p, io), p)
  {
    assert ProcessTokens(w.procs[p], w.nextToken);
  }

  lemma MutexTokens(w: World, p: Proc, io: Io, verdict: bool)
    requires OldTokens(w) && p in w.procs && w.procs[p].pc.Mutex?
    ensures OwnTokens(MutexAct(w, p, io, verdict), p)
  {
    assert ProcessTokens(w.procs[p], w.nextToken);
    if w.procs[p].pc.mutex.Create? {
      MutexCreateTokens(w, p, io, verdict);
    } else {
      MutexReadTokens(w, p, io, verdict);
    }
  }

  lemma MutexReadTokens(w: World, p: Proc, io: Io, verdict: bool)
    requires p in w.procs && w.procs[p].pc.Mutex? && !w.procs[p].pc.mutex.Create? && OwnTokens(w, p)
    ensures OwnTokens(MutexAct(w, p, io, verdict), p)
  {
  }

  lemma MutexCreateTokens(w: World, p: Proc, io: Io, verdict: bool)
    requires p in w.procs && w.procs[p].pc.Mutex? && w.procs[p].pc.mutex.Create? && OwnTokens(w, p)
    ensures OwnTokens(MutexAct(w, p, io, verdict), p)
  {
  }

  lemma CriticalTokens(w: World, p: Proc, io: Io, verdict: bool)
    requires OldTokens(w) && Inv(w) && p in w.procs && w.procs[p].pc.Critical?
    ensures OwnTokens(CriticalAct(w, p, io, verdict), p)
  {
    assert ProcessTokens(w.procs[p], w.nextToken) && ProcessOk(w, p);
  }

  // ----- What makes a call give up, whatever others do

  /** The step belongs to the call's goal, and neither ends the call nor cleans up after it. */
  predicate UnderWay(pc: PC) {
    match pc
    case Idle => false
    case Fast(_, step) => !step.ReadBack?
    case Mutex(_, _, _) => true
    case Critical(goal, _, _, step) =>
      !step.CleanupAssert? && !step.CleanupRemove? && !step.RemoveOwned?
      && (goal.Release? <==> step.AssertOwned? || step.AssertMutexBeforeRelease?)
  }

  /** The step finds what its call needs to go on: a file, the record read before, or an owner known to have ended. */
  predicate Finds(w: World, pc: PC, verdict: bool) {
    match pc
    case Idle => true
    case Fast(_, step) => step.RecheckMutex? ==> 0 in w.mutexes
    case Mutex(_, g, step) =>
      (match step
       case Inspect(r) => verdict && r.owner in w.ended
       case Recheck(r) => MutexFile(w, g) == Some(r)
       case CheckEvidence => g in w.mutexes
       case ReadExisting => g in w.mutexes
       case _ => true)
    case Critical(goal, g, mine, step) =>
      match step
      case InspectMain(r) => verdict && r.owner in w.ended
      case AssertMain(r) => w.main == Some(r)
      case ReadMain => w.main.Some?
      case RemoveStale(_) => w.main.Some?
      case CreateNew => w.main.None?
      case ReadCreated => w.main == Some(GoalRecord(goal))
      case AssertOwned => w.main == Some(GoalRecord(goal))
      case CheckMain => true
      case _ => MutexFile(w, g) == Some(mine)
  }

  function GoalRecord(goal: Goal): Record { if goal.Acquire? then goal.record else goal.handle }

  /** The step needs no file operation to work: it inspects an owner, or looks at what is there if it fails. */
  predicate LooksAgain(pc: PC) {
    match pc
    case Idle => false
    case Fast(_, step) => step.CreateMain? || step.ReadBack?
    case Mutex(_, _, step) => step.Create? || step.ReadOwn? || step.Inspect?
    case Critical(_, _, _, step) => step.InspectMain?
  }

  /** The call ends without a handle, or goes to its cleanup without one. */
  predicate GivesUp(before: PC, after: PC) {
    if before.Critical? then after == before.(critical := CleanupAssert(None)) else after.Idle?
  }

  /**
   In any world, whatever other processes do meanwhile: a call gives up exactly at a step that does not find what it
   needs, or whose file operation fails and that looks no further.
   */
  lemma GivesUpIff(w: World, p: Proc, io: Io, verdict: bool)
    requires p in w.procs && UnderWay(w.procs[p].pc)
    ensures var pc := w.procs[p].pc;
            GivesUp(pc, Next(w, Act(p, io, verdict)).procs[p].pc)
            <==> !Finds(w, pc, verdict) || !(io.Works? || LooksAgain(pc))
  {
    if w.procs[p].pc.Mutex? {
      MutexGivesUpIff(w, p, io, verdict);
    } else if w.procs[p].pc.Critical? {
      CriticalGivesUpIff(w, p, io, verdict);
    }
  }

  lemma MutexGivesUpIff(w: World, p: Proc, io: Io, verdict: bool)
    requires p in w.procs && w.procs[p].pc.Mutex?
    ensures var pc := w.procs[p].pc;
            GivesUp(pc, MutexAct(w, p, io, verdict).procs[p].pc)
            <==> !Finds(w, pc, verdict) || !(io.Works? || LooksAgain(pc))
  {
  }

  lemma CriticalGivesUpIff(w: World, p: Proc, io: Io, verdict: bool)
    requires p in w.procs && w.procs[p].pc.Critical? && UnderWay(w.procs[p].pc)
    ensures var pc := w.procs[p].pc;
            GivesUp(pc, CriticalAct(w, p, io, verdict).procs[p].pc)
            <==> !Finds(w, pc, verdict) || !(io.Works? || LooksAgain(pc))
  {
  }

  /** After its own create failed, the attempt goes on with the takeover exactly if a lock or mutex file is seen. */
  lemma RecheckIs(w: World, p: Proc, rec: Record)
    requires p in w.procs
    ensures w.procs[p].pc == Fast(rec, RecheckMain) ==>
              Next(w, Act(p, Works, true)).procs[p].pc
              == if w.main.Some? then Mutex(Acquire(rec), 0, Create) else Fast(rec, RecheckMutex)
    ensures w.procs[p].pc == Fast(rec, RecheckMutex) ==>
              Next(w, Act(p, Works, true)).procs[p].pc
              == if 0 in w.mutexes then Mutex(Acquire(rec), 0, Create) else Idle
  {
  }

  /** A removal that reports an error may have removed the file: the handle can then be released once more. */
  lemma FailedRemovalIs(w: World, p: Proc, h: Record, g: nat, mine: Record, io: Io)
    requires p in w.procs && w.procs[p].pc == Critical(Release(h), g, mine, RemoveOwned) && !io.Works?
    ensures var w' := Next(w, Act(p, io, true)); var me, me' := w.procs[p], w'.procs[p];
            me'.pc == Critical(Release(h), g, mine, CleanupAssert(None))
            && (if io.Fails? || w.main.None? then w'.main == w.main && me'.held == me.held && me'.lost == me.lost
                else w'.main.None? && me'.held == me.held - {h} && me'.lost == me.lost + {h})
  {
  }

  /** A process that ends leaves its files behind, and is ended for the rest of every run. */
  lemma {:induction false} EndIsFinal(w: World, p: Proc, after: seq<Event>)
    requires p in w.procs
    ensures var w' := Next(w, Crash(p));
            w'.main == w.main && w'.mutexes == w.mutexes && p in w'.ended && p !in w'.procs
    ensures p in Run(Next(w, Crash(p)), after).ended && p !in Run(Next(w, Crash(p)), after).procs
  {
    if after != [] {
      EndIsFinal(w, p, after[..|after| - 1]);
      EndedStays(Run(Next(w, Crash(p)), after[..|after| - 1]), after[|after| - 1], p);
    }
  }

  lemma EndedStays(w: World, e: Event, p: Proc)
    requires p in w.ended && p !in w.procs
    ensures p in Next(w, e).ended && p !in Next(w, e).procs
  {
  }

  // ----- Running alone: what an undisturbed call comes to

  function Turn(w: World, p: Proc): World { Next(w, Act(p, Works, true)) }

  function Solo(w: World, p: Proc, turns: nat): World
    decreases turns
  {
    if turns == 0 then w else Solo(Turn(w, p), p, turns - 1)
  }

  /** Every mutex file is of an ended process. */
  ghost predicate MutexIsFree(w: World) { forall g :: g in w.mutexes ==> DeadFile(w, g) }

  ghost predicate MainIsFree(w: World) {
    w.main.Some? ==> w.main.value.owner in w.ended
  }

  /** No live process owns the main lock or a mutex file. */
  ghost predicate Free(w: World) { MainIsFree(w) && MutexIsFree(w) }

  /** The state of the main file that the goal needs. */
  ghost predicate MainFits(w: World, goal: Goal) {
    if goal.Acquire? then MainIsFree(w) else w.main == Some(goal.handle)
  }

  /** Whether a call that now runs undisturbed will succeed. */
  ghost predicate WillSucceed(w: World, pc: PC) {
    match pc
    case Idle => false
    case Fast(_, step) => step.ReadBack? || Free(w)
    case Mutex(goal, _, step) => MainFits(w, goal) && (step.ReadOwn? || MutexIsFree(w))
    case Critical(goal, _, _, step) =>
      match step
      case CleanupAssert(created) => created.Some?
      case CleanupRemove(created) => created.Some?
      case AssertMutexAfterCreate => true
      case ReadCreated => true
      case _ => MainFits(w, goal)
  }

  /** What an undisturbed call still knows about what it last read. */
  ghost predicate Undisturbed(w: World, pc: PC) {
    match pc
    case Idle => true
    case Fast(_, step) =>
      && !step.RecheckMutex?
      && (step.CreateMain? ==> 0 !in w.mutexes)
      && (step.RecheckMain? ==> w.main.Some?)
    case Mutex(goal, g, step) =>
      && (step.CheckEvidence? || step.ReadExisting? ==> g in w.mutexes)
      && (step.Inspect? ==> MutexFile(w, g) == Some(step.existing))
      && (step.Recheck? ==> MutexFile(w, g) == Some(step.existing))
    case Critical(goal, _, _, step) =>
      && (if step.AssertOwned? || step.AssertMutexBeforeRelease? || step.RemoveOwned? then goal.Release?
          else goal.Acquire? || step == CleanupAssert(None) || step == CleanupRemove(None))
      && (step.ReadMain? ==> w.main.Some?)
      && (step.InspectMain? ==> w.main == Some(step.stale))
      && (step.AssertMain? ==> w.main == Some(step.stale))
      && (step.AssertMutexBeforeCreate? || step.CreateNew? ==> w.main.None?)
  }

  function Stage(pc: PC): nat {
    match pc
    case Idle => 0
    case Critical(_, _, _, _) => 1
    case Mutex(_, _, step) => if step.ReadOwn? then 2 else 3
    case Fast(_, _) => 4
  }

  function Above(w: World, pc: PC): set<nat> {
    if pc.Mutex? then set g | g in w.mutexes && g >= pc.generation else {}
  }

  function Remaining(pc: PC): nat {
    match pc
    case Idle => 0
    case Fast(_, step) =>
      (match step case CheckMutex => 3 case CreateMain => 2 case RecheckMutex => 0 case _ => 1)
    case Mutex(_, _, step) =>
      (match step case Create => 5 case CheckEvidence => 4 case ReadExisting => 3 case Inspect(_) => 2 case _ => 1)
    case Critical(_, _, _, step) =>
      (match step
       case CheckMain => 11 case ReadMain => 10 case InspectMain(_) => 9 case AssertMain(_) => 8
       case AssertMutex(_) => 7 case RemoveStale(_) => 6 case AssertMutexBeforeCreate => 5 case CreateNew => 4
       case AssertMutexAfterCreate => 3 case ReadCreated => 2 case CleanupAssert(_) => 1
       case AssertOwned => 4 case AssertMutexBeforeRelease => 3 case RemoveOwned => 2 case _ => 0)
  }

  /** What the call wants: the record to acquire, or the handle to release. */
  function GoalOf(pc: PC): Goal
    requires !pc.Idle?
  {
    match pc
    case Fast(r, _) => Acquire(r)
    case Mutex(goal, _, _) => goal
    case Critical(goal, _, _, _) => goal
  }

  /** The mutex files without the one that the call has made. */
  function OthersFiles(w: World, pc: PC): map<nat, Record> {
    match pc
    case Mutex(_, g, step) => if step.ReadOwn? then w.mutexes - {g} else w.mutexes
    case Critical(_, g, _, _) => w.mutexes - {g}
    case _ => w.mutexes
  }

  /** What the files and the handles of a process come to. */
  datatype Outcome = Outcome(main: Option<Record>, mutexes: map<nat, Record>, held: set<Record>, lost: set<Record>)

  /** A call that succeeds acquires its record, or gives up its handle; one that fails leaves no trace. */
  ghost function Verdict(w: World, p: Proc): Outcome
    requires p in w.procs
  {
    var me := w.procs[p];
    var files := OthersFiles(w, me.pc);
    if me.pc.Idle? || !WillSucceed(w, me.pc) then Outcome(w.main, files, me.held, me.lost)
    else
      match GoalOf(me.pc)
      case Acquire(r) => Outcome(Some(r), files, me.held + {r}, me.lost)
      case Release(h) => Outcome(None, files, me.held - {h}, me.lost - {h})
  }

  /** A turn is still undisturbed, does not change the verdict, and the call is closer to its end. */
  ghost predicate TurnOk(w: World, w': World, p: Proc)
    requires p in w.procs
  {
    && p in w'.procs
    && var pc, pc' := w.procs[p].pc, w'.procs[p].pc;
    && Undisturbed(w', pc') && Verdict(w', p) == Verdict(w, p)
    && (|| Stage(pc') < Stage(pc)
        || (Stage(pc') == Stage(pc) && Above(w', pc') < Above(w, pc))
        || (Stage(pc') == Stage(pc) && Above(w', pc') == Above(w, pc) && Remaining(pc') < Remaining(pc)))
  }

  lemma FastTurn(w: World, p: Proc)
    requires Inv(w) && p in w.procs && w.procs[p].pc.Fast? && Undisturbed(w, w.procs[p].pc)
    ensures TurnOk(w, Turn(w, p), p)
  {
    assert ProcessOk(w, p);
    if 0 !in w.mutexes { NoFileWithoutBase(w); }
    SameFilesSameVerdict(w, Turn(w, p));
  }

  /** Whether the mutex is free depends on its files and the ended processes only. */
  lemma SameFilesSameVerdict(w: World, w': World)
    ensures w'.mutexes == w.mutexes && w'.ended == w.ended ==> MutexIsFree(w') == MutexIsFree(w)
  {
    if w'.mutexes == w.mutexes && w'.ended == w.ended {
      assert forall g :: DeadFile(w, g) == DeadFile(w', g);
    }
  }

  lemma MutexTurn(w: World, p: Proc)
    requires Inv(w) && p in w.procs && w.procs[p].pc.Mutex? && Undisturbed(w, w.procs[p].pc)
    ensures TurnOk(w, Turn(w, p), p)
  {
    var step := w.procs[p].pc.mutex;
    if step.Create? || step.ReadOwn? { OwnMutexTurn(w, p); } else { ExistingMutexTurn(w, p); }
  }

  lemma OwnMutexTurn(w: World, p: Proc)
    requires Inv(w) && p in w.procs && w.procs[p].pc.Mutex? && Undisturbed(w, w.procs[p].pc)
    requires w.procs[p].pc.mutex.Create? || w.procs[p].pc.mutex.ReadOwn?
    ensures TurnOk(w, Turn(w, p), p)
  {
    assert ProcessOk(w, p);
    var w', g := Turn(w, p), w.procs[p].pc.generation;
    SameFilesSameVerdict(w, w');
    if w.procs[p].pc.mutex.Create? && g !in w.mutexes {
      forall h | h in w.mutexes ensures DeadFile(w, h) {
        if h > g { ChainBelow(w, g, h); }
      }
      assert w'.mutexes - {g} == w.mutexes;
    }
  }

  lemma ExistingMutexTurn(w: World, p: Proc)
    requires Inv(w) && p in w.procs && w.procs[p].pc.Mutex? && Undisturbed(w, w.procs[p].pc)
    requires !w.procs[p].pc.mutex.Create? && !w.procs[p].pc.mutex.ReadOwn?
    ensures TurnOk(w, Turn(w, p), p)
  {
    assert ProcessOk(w, p);
    var w', pc := Turn(w, p), w.procs[p].pc;
    SameFilesSameVerdict(w, w');
    if pc.mutex.Inspect? { assert DeadFile(w, pc.generation) == (pc.mutex.existing.owner in w.ended); }
    if pc.mutex.Recheck? {
      assert pc.generation in Above(w, pc) && pc.generation !in Above(w', w'.procs[p].pc);
      assert Above(w', w'.procs[p].pc) <= Above(w, pc);
    }
  }

  lemma CriticalTurn(w: World, p: Proc)
    requires Inv(w) && p in w.procs && w.procs[p].pc.Critical? && Undisturbed(w, w.procs[p].pc)
    ensures TurnOk(w, Turn(w, p), p)
  {
    var step := w.procs[p].pc.critical;
    if step.CleanupAssert? || step.CleanupRemove? {
      CleanupTurn(w, p);
    } else if w.procs[p].pc.goal.Release? {
      ReleaseTurn(w, p);
    } else {
      TakeoverTurn(w, p);
    }
  }

  /** The steps that look at a stale main file. */
  predicate OnStale(step: CriticalStep) {
    step.ReadMain? || step.InspectMain? || step.AssertMain? || step.AssertMutex? || step.RemoveStale?
  }

  lemma StaleTurn(w: World, p: Proc)
    requires Inv(w) && p in w.procs && w.procs[p].pc.Critical? && Undisturbed(w, w.procs[p].pc)
    requires w.procs[p].pc.goal.Acquire? && OnStale(w.procs[p].pc.critical)
    ensures TurnOk(w, Turn(w, p), p)
  {
    assert ProcessOk(w, p);
  }

  lemma CreateTurn(w: World, p: Proc)
    requires Inv(w) && p in w.procs && w.procs[p].pc.Critical? && Undisturbed(w, w.procs[p].pc)
    requires w.procs[p].pc.goal.Acquire? && !OnStale(w.procs[p].pc.critical)
    requires !w.procs[p].pc.critical.CleanupAssert? && !w.procs[p].pc.critical.CleanupRemove?
    ensures TurnOk(w, Turn(w, p), p)
  {
    assert ProcessOk(w, p);
  }

  lemma CleanupTurn(w: World, p: Proc)
    requires Inv(w) && p in w.procs && w.procs[p].pc.Critical? && Undisturbed(w, w.procs[p].pc)
    requires w.procs[p].pc.critical.CleanupAssert? || w.procs[p].pc.critical.CleanupRemove?
    ensures TurnOk(w, Turn(w, p), p)
  {
    assert ProcessOk(w, p);
  }

  lemma ReleaseTurn(w: World, p: Proc)
    requires Inv(w) && p in w.procs && w.procs[p].pc.Critical? && Undisturbed(w, w.procs[p].pc)
    requires w.procs[p].pc.goal.Release?
    requires !w.procs[p].pc.critical.CleanupAssert? && !w.procs[p].pc.critical.CleanupRemove?
    ensures TurnOk(w, Turn(w, p), p)
  {
    assert ProcessOk(w, p);
  }

  lemma TakeoverTurn(w: World, p: Proc)
    requires Inv(w) && p in w.procs && w.procs[p].pc.Critical? && Undisturbed(w, w.procs[p].pc)
    requires w.procs[p].pc.goal.Acquire?
    requires !w.procs[p].pc.critical.CleanupAssert? && !w.procs[p].pc.critical.CleanupRemove?
    ensures TurnOk(w, Turn(w, p), p)
  {
    if OnStale(w.procs[p].pc.critical) { StaleTurn(w, p); } else { CreateTurn(w, p); }
  }

  /** From any reachable program point that others have not disturbed, the call ends as its verdict says. */
  lemma {:induction false} SoloFinishes(w: World, p: Proc) returns (n: nat)
    requires Inv(w) && p in w.procs && Undisturbed(w, w.procs[p].pc)
    ensures var w' := Solo(w, p, n); p in w'.procs && w'.procs[p].pc.Idle? && Verdict(w', p) == Verdict(w, p)
    decreases Stage(w.procs[p].pc), Above(w, w.procs[p].pc), Remaining(w.procs[p].pc)
  {
    if w.procs[p].pc.Idle? { return 0; }
    match w.procs[p].pc {
      case Fast(_, _) => FastTurn(w, p);
      case Mutex(_, _, _) => MutexTurn(w, p);
      case Critical(_, _, _, _) => CriticalTurn(w, p);
    }
    NextKeeps(w, Act(p, Works, true));
    var m := SoloFinishes(Turn(w, p), p);
    n := m + 1;
  }

  /** A process at rest stays so, so there is one outcome of running alone. */
  lemma {:induction false} SoloRests(w: World, p: Proc, n: nat, m: nat)
    requires p in Solo(w, p, n).procs && Solo(w, p, n).procs[p].pc.Idle?
    requires p in Solo(w, p, m).procs && Solo(w, p, m).procs[p].pc.Idle?
    ensures Solo(w, p, n) == Solo(w, p, m)
    decreases n
  {
    if n == 0 || m == 0 {
      RestTurns(w, p, n + m);
    } else {
      SoloRests(Turn(w, p), p, n - 1, m - 1);
    }
  }

  lemma {:induction false} RestTurns(w: World, p: Proc, n: nat)
    requires p in w.procs && w.procs[p].pc.Idle?
    ensures Solo(w, p, n) == w
  {
    if n > 0 { RestTurns(Turn(w, p), p, n - 1); }
  }

  ghost function OutcomeOf(w: World, p: Proc): Outcome
    requires p in w.procs
  {
    Outcome(w.main, w.mutexes, w.procs[p].held, w.procs[p].lost)
  }

  /**
   Recovery: in any reachable state, an idle process that then runs undisturbed, with working I/O and an
   inspector that recognizes every ended process, returns from acquireRuntimeLock.  It has acquired the
   lock, with the main file its record, if and only if no live process owned the main lock or a mutex file,
   however many files of ended processes were left behind; else nothing has changed.  Its mutex file is gone.
   */
  lemma SoloAcquire(events: seq<Event>, p: Proc) returns (n: nat)
    requires p in Run(Init, events).procs && Run(Init, events).procs[p].pc.Idle?
    ensures
      var w := Run(Init, events);
      var w', record := Solo(Next(w, BeginAcquire(p)), p, n), Record(p, w.nextToken);
      && p in w'.procs && w'.procs[p].pc.Idle?
      && OutcomeOf(w', p)
         == if Free(w) then Outcome(Some(record), w.mutexes, w.procs[p].held + {record}, w.procs[p].lost)
            else OutcomeOf(w, p)
  {
    var w := Run(Init, events);
    RunKeeps(Init, events);
    var w1 := Next(w, BeginAcquire(p));
    NextKeeps(w, BeginAcquire(p));
    SameFilesSameVerdict(w, w1);
    n := SoloFinishes(w1, p);
  }

  /**
   In any reachable state, an idle process that then runs undisturbed returns from releasing a handle that it
   has not released.  The main file is gone and the handle spent if and only if the file was that handle's and
   every mutex file of an ended process; else nothing has changed.  Its mutex file is gone.
   */
  lemma SoloRelease(events: seq<Event>, p: Proc, h: Record) returns (n: nat)
    requires p in Run(Init, events).procs && Run(Init, events).procs[p].pc.Idle?
    requires h in Run(Init, events).procs[p].held + Run(Init, events).procs[p].lost
    ensures
      var w := Run(Init, events);
      var w' := Solo(Next(w, BeginRelease(p, h)), p, n);
      && p in w'.procs && w'.procs[p].pc.Idle?
      && OutcomeOf(w', p)
         == if w.main == Some(h) && MutexIsFree(w)
            then Outcome(None, w.mutexes, w.procs[p].held - {h}, w.procs[p].lost - {h})
            else OutcomeOf(w, p)
  {
    var w := Run(Init, events);
    RunKeeps(Init, events);
    var w1 := Next(w, BeginRelease(p, h));
    assert ProcessOk(w, p);
    NextKeeps(w, BeginRelease(p, h));
    SameFilesSameVerdict(w, w1);
    n := SoloFinishes(w1, p);
  }
}
