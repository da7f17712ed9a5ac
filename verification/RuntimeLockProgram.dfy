/**
 acquireRuntimeLock, release and acquireTakeoverMutex in their own control flow: loops, early throws and
 cleanup.  Each filesystem call lets the other processes run first, then takes exactly one step of the
 machine of module RuntimeLock, so every run of this code is one of that machine's runs.
 */
module RuntimeLockProgram {
  import opened Wrappers
  import opened RuntimeLock

  /** What happens at one filesystem call: the steps others take before it, and how the call ends. */
  datatype Tick = Tick(others: seq<Event>, io: Io, verdict: bool)

  datatype Path = MainPath | TakeoverPath(generation: nat)

  function FileAt(w: World, path: Path): Option<Record> {
    match path
    case MainPath => w.main
    case TakeoverPath(g) => MutexFile(w, g)
  }

  predicate LeavesAlone(e: Event, p: Proc) {
    e != Crash(p) && !(e.Act? && e.p == p)
  }

  /** `w` is the end of some run of the machine. */
  ghost predicate Reachable(w: World) {
    exists events :: w == Run(Init, events)
  }

  lemma ReachableNext(w: World, e: Event)
    requires Reachable(w)
    ensures Reachable(Next(w, e))
  {
    var events :| w == Run(Init, events);
    assert (events + [e])[..|events + [e]| - 1] == events;
    assert Next(w, e) == Run(Init, events + [e]);
  }

  lemma ReachableInv(w: World)
    requires Reachable(w)
    ensures Inv(w)
  {
    var events :| w == Run(Init, events);
    RunKeeps(Init, events);
  }

  /** How a call of `p` sees the world after others moved: `p` is where it was. */
  ghost predicate Resumed(before: World, w: World, p: Proc) {
    Reachable(w) && p in before.procs && p in w.procs && w.procs[p] == before.procs[p]
  }

  ghost predicate SameHandles(before: World, w: World, p: Proc) {
    p in before.procs && p in w.procs
    && w.procs[p].held == before.procs[p].held && w.procs[p].lost == before.procs[p].lost
  }

  /** Undisturbed turns of `p` lead from one world to the other. */
  ghost predicate Quiet(w: World, w': World, p: Proc) {
    exists n :: w' == Solo(w, p, n)
  }

  lemma QuietSelf(w: World, p: Proc)
    ensures Quiet(w, w, p)
  {
    assert Solo(w, p, 0) == w;
  }

  lemma QuietTurn(w: World, p: Proc)
    ensures Quiet(w, Turn(w, p), p)
  {
    assert Solo(w, p, 1) == Solo(Turn(w, p), p, 0) == Turn(w, p);
  }

  lemma {:induction false} SoloAdds(w: World, p: Proc, n: nat, m: nat)
    ensures Solo(w, p, n + m) == Solo(Solo(w, p, n), p, m)
    decreases n
  {
    if n > 0 { SoloAdds(Turn(w, p), p, n - 1, m); }
  }

  lemma QuietTrans(a: World, b: World, c: World, p: Proc)
    requires Quiet(a, b, p) && Quiet(b, c, p)
    ensures Quiet(a, c, p)
  {
    var n :| b == Solo(a, p, n);
    var m :| c == Solo(b, p, m);
    SoloAdds(a, p, n, m);
  }

  lemma QuietAcquire(w: World, w': World, p: Proc)
    requires Reachable(w) && p in w.procs && w.procs[p].pc.Idle?
    requires Quiet(Next(w, BeginAcquire(p)), w', p) && p in w'.procs && w'.procs[p].pc.Idle?
    ensures var record := Record(p, w.nextToken);
            OutcomeOf(w', p)
            == if Free(w) then Outcome(Some(record), w.mutexes, w.procs[p].held + {record}, w.procs[p].lost)
               else OutcomeOf(w, p)
  {
    var events :| w == Run(Init, events);
    var n :| w' == Solo(Next(w, BeginAcquire(p)), p, n);
    var m := SoloAcquire(events, p);
    SoloRests(Next(w, BeginAcquire(p)), p, n, m);
  }

  lemma QuietRelease(w: World, w': World, p: Proc, h: Record)
    requires Reachable(w) && p in w.procs && w.procs[p].pc.Idle? && h in w.procs[p].held + w.procs[p].lost
    requires Quiet(Next(w, BeginRelease(p, h)), w', p) && p in w'.procs && w'.procs[p].pc.Idle?
    ensures OutcomeOf(w', p)
            == if w.main == Some(h) && MutexIsFree(w)
               then Outcome(None, w.mutexes, w.procs[p].held - {h}, w.procs[p].lost - {h})
               else OutcomeOf(w, p)
  {
    var events :| w == Run(Init, events);
    var n :| w' == Solo(Next(w, BeginRelease(p, h)), p, n);
    var m := SoloRelease(events, p, h);
    SoloRests(Next(w, BeginRelease(p, h)), p, n, m);
  }

  /** What a step of `p` is, by where it is; it stays in the world. */
  lemma ActsAt(w: World, p: Proc, io: Io, verdict: bool)
    requires p in w.procs && !w.procs[p].pc.Idle?
    ensures p in Next(w, Act(p, io, verdict)).procs
    ensures Next(w, Act(p, io, verdict))
            == if w.procs[p].pc.Fast? then FastAct(w, p, io)
               else if w.procs[p].pc.Mutex? then MutexAct(w, p, io, verdict)
               else CriticalAct(w, p, io, verdict)
  {
    ActMoves(w, p, io, verdict);
  }

  /** No handle has the token of a record that is yet to be made. */
  lemma NewTokens(w: World, p: Proc)
    requires Reachable(w) && p in w.procs
    ensures Record(p, w.nextToken) !in w.procs[p].held
  {
    var events :| w == Run(Init, events);
    TokensAreOld(events);
    assert ProcessTokens(w.procs[p], w.nextToken);
  }

  class RuntimeLockHost {
    var world: World
    /** The outside world's choices, consumed one per filesystem call; when it runs out, nothing interferes. */
    var script: seq<Tick>

    /** Whether nothing has interfered with the call at hand since its begin, and the world at that begin. */
    ghost var calm: bool
    ghost var start: World

    /** `p` is in a call; while nothing interferes, it has come here from the begin by undisturbed turns. */
    ghost predicate Ready(p: Proc)
      reads this
    {
      Reachable(world) && p in world.procs && (calm ==> script == [] && Quiet(start, world, p))
    }

    ghost predicate At(p: Proc, pc: PC)
      reads this
    {
      Ready(p) && world.procs[p].pc == pc
    }

    /** `p` is between calls. */
    ghost predicate Resting(p: Proc)
      reads this
    {
      Reachable(world) && p in world.procs && world.procs[p].pc.Idle?
    }

    /** Lets the other processes take the steps in `events`. */
    method Interfere(p: Proc, events: seq<Event>)
      requires Reachable(world) && p in world.procs && !world.procs[p].pc.Idle?
      modifies this`world
      ensures Resumed(old(world), world, p)
    {
      var i := 0;
      while i < |events|
        invariant 0 <= i <= |events|
        invariant Resumed(old(world), world, p)
      {
        if LeavesAlone(events[i], p) {
          OthersLeaveAlone(world, p, events[i]);
          ReachableNext(world, events[i]);
          world := Next(world, events[i]);
        }
        i := i + 1;
      }
    }

    /** Up to the filesystem call of `p`: the others run first.  Nothing interferes once the script is spent. */
    method Await(p: Proc) returns (io: Io, verdict: bool)
      requires Ready(p) && !world.procs[p].pc.Idle?
      modifies this`world, this`script
      ensures Resumed(old(world), world, p)
      ensures if old(script) == [] then script == [] && world == old(world) && io.Works? && verdict
              else script == old(script)[1..]
    {
      io, verdict := Works, true;
      if script != [] {
        var tick := script[0];
        script := script[1..];
        Interfere(p, tick.others);
        io, verdict := tick.io, tick.verdict;
      }
    }

    /** One filesystem call of `p`, made in the world `mid`. */
    method Call(p: Proc) returns (mid: World, io: Io, verdict: bool)
      requires Ready(p) && !world.procs[p].pc.Idle?
      modifies this`world, this`script
      ensures Resumed(old(world), mid, p) && world == Next(mid, Act(p, io, verdict))
      ensures Reachable(world) && (calm ==> script == [] && Quiet(start, world, p))
      ensures if old(script) == [] then script == [] && mid == old(world) && io.Works? else script == old(script)[1..]
    {
      io, verdict := Await(p);
      mid := world;
      ReachableNext(world, Act(p, io, verdict));
      world := Next(world, Act(p, io, verdict));
      if calm {
        QuietTurn(mid, p);
        QuietTrans(start, mid, world, p);
      }
    }

    method FastCall(p: Proc) returns (mid: World, io: Io)
      requires Ready(p) && world.procs[p].pc.Fast?
      modifies this`world, this`script
      ensures Ready(p) && Resumed(old(world), mid, p) && world == FastAct(mid, p, io)
    {
      var verdict;
      mid, io, verdict := Call(p);
      ActsAt(mid, p, io, verdict);
    }

    method MutexCall(p: Proc) returns (mid: World, io: Io, verdict: bool)
      requires Ready(p) && world.procs[p].pc.Mutex?
      modifies this`world, this`script
      ensures Ready(p) && Resumed(old(world), mid, p) && world == MutexAct(mid, p, io, verdict)
      ensures if old(script) == [] then script == [] && mid == old(world) && io.Works? else script == old(script)[1..]
    {
      mid, io, verdict := Call(p);
      ActsAt(mid, p, io, verdict);
    }

    method CriticalCall(p: Proc) returns (mid: World, io: Io, verdict: bool)
      requires Ready(p) && world.procs[p].pc.Critical?
      modifies this`world, this`script
      ensures Ready(p) && Resumed(old(world), mid, p) && world == CriticalAct(mid, p, io, verdict)
    {
      mid, io, verdict := Call(p);
      ActsAt(mid, p, io, verdict);
    }

    /** Climbs the chain of mutex files until an exclusive create succeeds, or throws (None). */
    method AcquireTakeoverMutex(p: Proc, goal: Goal) returns (mutex: Option<(nat, Record)>)
      requires At(p, Mutex(goal, 0, Create))
      modifies this`world, this`script
      ensures Ready(p) && SameHandles(old(world), world, p)
      ensures mutex.None? ==> world.procs[p].pc.Idle?
      ensures mutex.Some? ==>
        world.procs[p].pc
            == Critical(goal, mutex.value.0, mutex.value.1, if goal.Acquire? then CheckMain else AssertOwned)
    {
      var generation := 0;
      while true
        invariant At(p, Mutex(goal, generation, Create)) && SameHandles(old(world), world, p)
        decreases |script|, Above(world, Mutex(goal, generation, Create))
      {
        ghost var above := Above(world, Mutex(goal, generation, Create));
        ghost var quiet := script == [];
        var mine := CreateOrFindOwned(p, goal, generation);
        if mine.Some? { return Some((generation, mine.value)); }
        var stale := PassStaleAncestor(p, goal, generation);
        if !stale { return None; }
        generation := generation + 1;
        assert quiet ==> Above(world, Mutex(goal, generation, Create)) <= above
                         && generation - 1 in above && generation - 1 !in Above(world, Mutex(goal, generation, Create));
      }
    }

    /** The exclusive create of one generation and the read of what it created. */
    method CreateOrFindOwned(p: Proc, goal: Goal, generation: nat) returns (mine: Option<Record>)
      requires At(p, Mutex(goal, generation, Create))
      modifies this`world, this`script
      ensures Ready(p) && SameHandles(old(world), world, p)
      ensures world.procs[p].pc
              == if mine.Some?
                 then Critical(goal, generation, mine.value, if goal.Acquire? then CheckMain else AssertOwned)
                 else Mutex(goal, generation, CheckEvidence)
      ensures if old(script) == [] then script == [] else |script| < |old(script)|
      ensures old(script) == [] && mine.None? ==> world.mutexes == old(world).mutexes
    {
      var path := TakeoverPath(generation);
      var w, io, verdict := MutexCall(p);
      if io.Works? && FileAt(w, path).None? {
        w, io, verdict := MutexCall(p);
        if io.Works? { mine := FileAt(w, path); } else { mine := None; }
      } else {
        mine := None;
      }
    }

    /** An existing generation is passed only when its owner has ended and its file is still the one read. */
    method PassStaleAncestor(p: Proc, goal: Goal, generation: nat) returns (stale: bool)
      requires At(p, Mutex(goal, generation, CheckEvidence))
      modifies this`world, this`script
      ensures Ready(p) && SameHandles(old(world), world, p)
      ensures world.procs[p].pc == if stale then Mutex(goal, generation + 1, Create) else Idle
      ensures if old(script) == [] then script == [] else |script| < |old(script)|
      ensures old(script) == [] ==> world.mutexes == old(world).mutexes
      ensures old(script) == [] && stale ==> generation in world.mutexes
    {
      var existing := ReadAncestor(p, goal, generation);
      if existing.None? { return false; }
      var w, io, verdict := MutexCall(p);
      if !DemonstrablyDead(w, existing.value, verdict) { return false; }
      w, io, verdict := MutexCall(p);
      return IsAt(FileAt(w, TakeoverPath(generation)), existing.value, io);
    }

    /** The record of the generation's file, if its evidence is there and it can be read. */
    method ReadAncestor(p: Proc, goal: Goal, generation: nat) returns (existing: Option<Record>)
      requires At(p, Mutex(goal, generation, CheckEvidence))
      modifies this`world, this`script
      ensures Ready(p) && SameHandles(old(world), world, p)
      ensures world.procs[p].pc == if existing.Some? then Mutex(goal, generation, Inspect(existing.value)) else Idle
      ensures if old(script) == [] then script == [] else |script| < |old(script)|
      ensures old(script) == [] ==> world.mutexes == old(world).mutexes
    {
      var path := TakeoverPath(generation);
      var w, io, verdict := MutexCall(p);
      if !io.Works? || FileAt(w, path).None? { return None; }
      w, io, verdict := MutexCall(p);
      return if io.Works? then FileAt(w, path) else None;
    }

    /** Replaces an absent main lock, or one of an ended process, while holding the mutex. */
    method TakeOverMain(p: Proc, record: Record, generation: nat, mine: Record) returns (created: Option<Record>)
      requires At(p, Critical(Acquire(record), generation, mine, CheckMain))
      modifies this`world, this`script
      ensures Ready(p) && SameHandles(old(world), world, p)
      ensures world.procs[p].pc == Critical(Acquire(record), generation, mine, CleanupAssert(created))
      ensures created.Some? ==> created.value == record && world.main == created
    {
      var w, io, verdict := CriticalCall(p);
      if !io.Works? { return None; }
      if FileAt(w, MainPath).Some? {
        var removed := RemoveStaleMain(p, record, generation, mine);
        if !removed { return None; }
      }
      created := CreateMain(p, record, generation, mine);
    }

    /** The exclusive create between two checks that the mutex is still owned. */
    method CreateMain(p: Proc, record: Record, generation: nat, mine: Record) returns (created: Option<Record>)
      requires At(p, Critical(Acquire(record), generation, mine, AssertMutexBeforeCreate))
      modifies this`world, this`script
      ensures Ready(p) && SameHandles(old(world), world, p)
      ensures world.procs[p].pc == Critical(Acquire(record), generation, mine, CleanupAssert(created))
      ensures created.Some? ==> created.value == record && world.main == created
    {
      var path := TakeoverPath(generation);
      var w, io, verdict := CriticalCall(p);
      if !IsAt(FileAt(w, path), mine, io) { return None; }
      w, io, verdict := CriticalCall(p);
      if !io.Works? || FileAt(w, MainPath).Some? { return None; }
      w, io, verdict := CriticalCall(p);
      if !IsAt(FileAt(w, path), mine, io) { return None; }
      w, io, verdict := CriticalCall(p);
      if !io.Works? || FileAt(w, MainPath).None? || FileAt(w, MainPath).value != record { return None; }
      created := FileAt(w, MainPath);
    }

    method RemoveStaleMain(p: Proc, record: Record, generation: nat, mine: Record) returns (removed: bool)
      requires At(p, Critical(Acquire(record), generation, mine, ReadMain))
      modifies this`world, this`script
      ensures Ready(p) && SameHandles(old(world), world, p)
      ensures world.procs[p].pc
              == Critical(Acquire(record), generation, mine,
                          if removed then AssertMutexBeforeCreate else CleanupAssert(None))
    {
      var w, io, verdict := CriticalCall(p);
      if !io.Works? || FileAt(w, MainPath).None? { return false; }
      var stale := FileAt(w, MainPath).value;
      w, io, verdict := CriticalCall(p);
      if !DemonstrablyDead(w, stale, verdict) { return false; }
      w, io, verdict := CriticalCall(p);
      if !IsAt(FileAt(w, MainPath), stale, io) { return false; }
      w, io, verdict := CriticalCall(p);
      if !IsAt(FileAt(w, TakeoverPath(generation)), mine, io) { return false; }
      w, io, verdict := CriticalCall(p);
      removed := io.Works? && FileAt(w, MainPath).Some?;
    }

    /** Removes the own mutex generation, never its ancestors, and lets the call return. */
    method CleanupTakeoverMutex(p: Proc, goal: Goal, generation: nat, mine: Record, created: Option<Record>)
      requires At(p, Critical(goal, generation, mine, CleanupAssert(created)))
      modifies this`world, this`script
      ensures At(p, Idle)
      ensures world.procs[p].held
              == old(world.procs[p].held) + if created.Some? then {created.value} else {}
      ensures world.procs[p].lost == old(world.procs[p].lost)
    {
      var w, io, verdict := CriticalCall(p);
      if IsAt(FileAt(w, TakeoverPath(generation)), mine, io) {
        w, io, verdict := CriticalCall(p);
      }
    }

    /** The attempt that needs no mutex: decides the call (`done`), or leaves it to the takeover. */
    method AcquireFast(p: Proc, record: Record) returns (done: bool, handle: Option<Record>)
      requires At(p, Fast(record, CheckMutex))
      modifies this`world, this`script
      ensures Ready(p) && world.procs[p].lost == old(world.procs[p].lost)
      ensures !done ==> world.procs[p].pc == Mutex(Acquire(record), 0, Create)
      ensures done ==> world.procs[p].pc.Idle?
      ensures handle.Some? ==> done && handle.value == record
      ensures world.procs[p].held
              == old(world.procs[p].held) + if handle.Some? then {handle.value} else {}
    {
      var w, io := FastCall(p);
      if !io.Works? { return true, None; }
      if FileAt(w, TakeoverPath(0)).Some? { return false, None; }
      handle := FastCreate(p, record);
      if handle.Some? { return true, handle; }
      w, io := FastCall(p);
      if !io.Works? { return true, None; }
      if FileAt(w, MainPath).Some? { return false, None; }
      w, io := FastCall(p);
      return !(io.Works? && FileAt(w, TakeoverPath(0)).Some?), None;
    }

    /** The exclusive create of the main file and the read of what it created. */
    method FastCreate(p: Proc, record: Record) returns (handle: Option<Record>)
      requires At(p, Fast(record, FastStep.CreateMain))
      modifies this`world, this`script
      ensures Ready(p) && world.procs[p].lost == old(world.procs[p].lost)
      ensures if handle.Some? then handle.value == record && world.procs[p].pc.Idle?
              else world.procs[p].pc == Fast(record, RecheckMain)
      ensures world.procs[p].held == old(world.procs[p].held) + if handle.Some? then {handle.value} else {}
    {
      handle := None;
      var w, io := FastCall(p);
      if io.Works? && FileAt(w, MainPath).None? {
        w, io := FastCall(p);
        ReachableInv(w);
        assert ProcessOk(w, p);
        if io.Works? { handle := FileAt(w, MainPath); }
      }
    }

    /** A call begins. */
    method Begin(p: Proc, e: Event)
      requires Resting(p) && p in Next(world, e).procs
      modifies this
      ensures world == Next(old(world), e) && Ready(p)
      ensures script == old(script) && calm == (script == []) && start == world
    {
      ReachableNext(world, e);
      world := Next(world, e);
      calm, start := script == [], world;
      QuietSelf(world, p);
    }

    /**
     acquireRuntimeLock.  A returned handle is for the record this call created; the process then holds
     the main lock and its file is exactly that record.  A call that throws (None) gives no handle.  When nothing
     interferes, it returns exactly when no live process had the lock or a mutex, and leaves no other trace.
     */
    method AcquireRuntimeLock(p: Proc) returns (handle: Option<Record>)
      requires Resting(p)
      modifies this
      ensures Resting(p)
      ensures world.procs[p].held == old(world.procs[p].held) + if handle.Some? then {handle.value} else {}
      ensures handle.Some? ==> handle.value == Record(p, old(world.nextToken))
      ensures handle.Some? ==> Holds(world, p, handle.value) && world.main == handle
      ensures old(script) == [] ==>
        && (handle.Some? <==> Free(old(world)))
        && world.main == (if handle.Some? then handle else old(world).main) && world.mutexes == old(world).mutexes
    {
      var record := Record(p, world.nextToken);
      NewTokens(world, p);
      Begin(p, BeginAcquire(p));
      var done;
      done, handle := AcquireFast(p, record);
      if !done {
        var mutex := AcquireTakeoverMutex(p, Acquire(record));
        if mutex.Some? {
          handle := TakeOverMain(p, record, mutex.value.0, mutex.value.1);
          CleanupTakeoverMutex(p, Acquire(record), mutex.value.0, mutex.value.1, handle);
        }
      }
      ReachableInv(world);
      assert ProcessOk(world, p);
      if calm { QuietAcquire(old(world), world, p); }
    }

    /**
     release of a handle that has not been released.  When it reports success the process no longer holds
     the lock and the handle is spent; when it throws, a handle that still owned the lock either still
     owns it or has lost its file to a removal that reported an error.  When nothing interferes, it succeeds
     exactly when the main file was the handle's and no live process had a mutex; the main file is then gone.
     */
    method Release(p: Proc, handle: Record) returns (released: bool)
      requires Resting(p) && handle in world.procs[p].held + world.procs[p].lost
      modifies this
      ensures Resting(p)
      ensures released ==>
        && world.procs[p].held == old(world.procs[p].held) - {handle}
        && world.procs[p].lost == old(world.procs[p].lost) - {handle}
      ensures !released ==>
        || SameHandles(old(world), world, p)
        || (world.procs[p].held == old(world.procs[p].held) - {handle}
            && world.procs[p].lost == old(world.procs[p].lost) + {handle})
      ensures old(script) == [] ==>
        && (released <==> old(world).main == Some(handle) && MutexIsFree(old(world)))
        && world.main == (if released then None else old(world).main) && world.mutexes == old(world).mutexes
    {
      Begin(p, BeginRelease(p, handle));
      var mutex := AcquireTakeoverMutex(p, Goal.Release(handle));
      if mutex.None? {
        released := false;
      } else {
        released := RemoveOwnedMain(p, handle, mutex.value.0, mutex.value.1);
        CleanupTakeoverMutex(p, Goal.Release(handle), mutex.value.0, mutex.value.1, None);
      }
      if calm { QuietRelease(old(world), world, p, handle); }
    }

    method RemoveOwnedMain(p: Proc, handle: Record, generation: nat, mine: Record) returns (released: bool)
      requires At(p, Critical(Goal.Release(handle), generation, mine, AssertOwned))
      modifies this`world, this`script
      ensures At(p, Critical(Goal.Release(handle), generation, mine, CleanupAssert(None)))
      ensures released ==>
        && world.procs[p].held == old(world.procs[p].held) - {handle}
        && world.procs[p].lost == old(world.procs[p].lost) - {handle}
      ensures !released ==>
        || SameHandles(old(world), world, p)
        || (world.procs[p].held == old(world.procs[p].held) - {handle}
            && world.procs[p].lost == old(world.procs[p].lost) + {handle})
    {
      var w, io, verdict := CriticalCall(p);
      if !IsAt(FileAt(w, MainPath), handle, io) { return false; }
      w, io, verdict := CriticalCall(p);
      if !IsAt(FileAt(w, TakeoverPath(generation)), mine, io) { return false; }
      w, io, verdict := CriticalCall(p);
      released := io.Works? && FileAt(w, MainPath).Some?;
    }
  }
}
