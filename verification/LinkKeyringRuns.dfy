/**
 What holds of the keyring file over whole runs: any number of keyring objects open it and operate on it in any
 order, and their operations succeed or throw.
 */
module LinkKeyringRuns {
  import opened Wrappers
  import opened LinkKeyring
  import opened LinkKeyringValidity
  import opened LinkKeyringSession

  /** What one object has in memory, and the state that it last loaded or stored. */
  datatype Memory = Memory(mem: Keyring, persisted: Keyring)

  datatype World = World(objects: map<nat, Memory>, disk: Option<Keyring>)

  const Start := World(map[], None)

  /** An object is opened on the file, or operates on it. */
  datatype Event =
    | Opens(id: nat)
    | Does(id: nat, op: Op)

  function View(w: World, id: nat): Session
    requires id in w.objects
  {
    Session(w.objects[id].mem, w.objects[id].persisted, w.disk)
  }

  function Put(w: World, id: nat, s: Session): World {
    World(w.objects[id := Memory(s.mem, s.persisted)], s.disk)
  }

  /** Opening a file that does not load throws. */
  ghost function Step(w: World, e: Event, hostKeys: set<string>): World {
    match e
    case Opens(id) =>
      var k := Contents(w.disk);
      if FileOk(w, hostKeys) then w.(objects := w.objects[id := Memory(k, k)]) else w
    case Does(id, op) => if id in w.objects then Put(w, id, Apply(View(w, id), op, hostKeys).0) else w
  }

  ghost function Run(events: seq<Event>, hostKeys: set<string>): World {
    if events == [] then Start
    else Step(Run(events[..|events| - 1], hostKeys), events[|events| - 1], hostKeys)
  }

  // ----- Validity, one operation at a time

  /** Whether memory and file are valid, as two facts. */
  ghost predicate MemOk(s: Session, hostKeys: set<string>) { Valid(s.mem, hostKeys) }

  ghost predicate DiskOk(s: Session, hostKeys: set<string>) { Valid(Contents(s.disk), hostKeys) }

  ghost predicate FileOk(w: World, hostKeys: set<string>) { Valid(Contents(w.disk), hostKeys) }

  /** The pins of memory and file are valid in any case; only staged activations can be at fault. */
  ghost predicate PinsOk(s: Session, hostKeys: set<string>) {
    ValidPins(s.mem.pins, hostKeys) && ValidPins(Contents(s.disk).pins, hostKeys)
  }

  lemma ActivatedPins(k: Keyring, pin: Pin, now: Timestamp, hostKeys: set<string>)
    requires ValidPins(k.pins, hostKeys) && ValidPin(pin, hostKeys) && pin.status.Active?
    ensures Activate(k, pin, now).Some? ==> ValidPins(Activate(k, pin, now).value.pins, hostKeys)
  {
    if Activate(k, pin, now).Some? && Find(k.pins, pin.Key()).None? {
      RollbackFreeIsNewer(k, pin);
      ActivateNew(k, pin, now, hostKeys);
    }
  }

  lemma RevokedPins(k: Keyring, watchId: string, generation: int, hostKeys: set<string>)
    requires ValidPins(k.pins, hostKeys)
    ensures ValidPins(RevokeGeneration(k, watchId, generation).pins, hostKeys)
  {
    MovingOnKeepsPins(k.pins, RevokeGeneration(k, watchId, generation).pins, hostKeys);
  }

  lemma ReconciledPinsOk(pins: seq<Pin>, snapshot: Snapshot, hostKeys: set<string>)
    requires ValidPins(pins, hostKeys)
    ensures ValidPins(Reconciled(pins, snapshot), hostKeys)
  {
    MovingOnKeepsPins(pins, Reconciled(pins, snapshot), hostKeys);
  }

  lemma PrunedPins(k: Keyring, references: seq<map<PinKey, Timestamp>>, now: Timestamp, hostKeys: set<string>)
    requires ValidPins(k.pins, hostKeys)
    ensures ValidPins(Prune(k, references, now).pins, hostKeys)
  {
    var pins := Prune(k, references, now).pins;
    KeepPinsKeeps(k.pins, (p: Pin) => Retained(p, references, now));
    forall i | 0 <= i < |pins| ensures ValidPin(pins[i], hostKeys) {
      assert pins[i] in pins;
    }
  }

  lemma UpdateKeepsPins(s: Session, next: Option<Keyring>, ready: bool, accepted: bool, hostKeys: set<string>)
    requires PinsOk(s, hostKeys) && (next.Some? ==> ValidPins(next.value.pins, hostKeys))
    ensures PinsOk(UpdateTo(s, next, ready, accepted).0, hostKeys)
  {
  }

  lemma ReconcileKeepsPins(s: Session, snapshot: Snapshot, lockFree: bool, loads: bool, hostKeys: set<string>)
    requires PinsOk(s, hostKeys)
    ensures PinsOk(Reconcile(s, snapshot, lockFree, loads, hostKeys).0, hostKeys)
  {
    ReconciledPinsOk(s.mem.pins, snapshot, hostKeys);
    ReconciledPinsOk(Contents(s.disk).pins, snapshot, hostKeys);
  }

  lemma ApplyKeepsPins(s: Session, op: Op, hostKeys: set<string>)
    requires PinsOk(s, hostKeys)
    ensures PinsOk(Apply(s, op, hostKeys).0, hostKeys)
  {
    var k := Contents(s.disk);
    match op
    case PersistActive(pin, now, lockFree) =>
      if ValidPin(pin, hostKeys) && pin.status.Active? { ActivatedPins(k, pin, now, hostKeys); }
    case StageActivation(_, _) =>
    case RevokeWatchGeneration(w, g, _) => RevokedPins(k, w, g, hostKeys);
    case ReconcileRecipients(snapshot, lockFree) =>
      ReconcileKeepsPins(s, snapshot, lockFree, Loads(s, hostKeys), hostKeys);
    case PruneRetiring(references, clock) => PrunedPins(s.mem, references, clock, hostKeys);
    case RevokeWatchPins(w) => MovingOnKeepsPins(s.mem.pins, RevokeWatch(s.mem, w).pins, hostKeys);
    case RevokeCompromisedKey(keyId) => MovingOnKeepsPins(s.mem.pins, RevokeHostKey(s.mem, keyId).pins, hostKeys);
  }

  /** The change that an updating operation makes to the file's keyring. */
  function Change(s: Session, op: Op): Option<Keyring> {
    var k := Contents(s.disk);
    match op
    case PersistActive(pin, now, _) => Activate(k, pin, now)
    case StageActivation(a, _) => Stage(k, a)
    case RevokeWatchGeneration(w, g, _) => Some(RevokeGeneration(k, w, g))
    case _ => None
  }

  /** What the operation checks of its own arguments. */
  predicate ArgumentsOk(op: Op, hostKeys: set<string>) {
    match op
    case PersistActive(pin, _, _) => ValidPin(pin, hostKeys) && pin.status.Active?
    case StageActivation(a, _) => ValidPending(a, hostKeys)
    case RevokeWatchGeneration(w, g, _) => w != "" && g >= 1
    case ReconcileRecipients(snapshot, _) => snapshot.forThisHost && snapshot.version >= 1
    case _ => true
  }

  predicate Updates(op: Op) { op.PersistActive? || op.StageActivation? || op.RevokeWatchGeneration? }

  lemma UpdateIs(s: Session, op: Op, hostKeys: set<string>)
    requires Updates(op)
    ensures Apply(s, op, hostKeys)
            == if ArgumentsOk(op, hostKeys)
               then UpdateTo(s, Change(s, op), op.lockFree && Loads(s, hostKeys), Accepted(Change(s, op), hostKeys))
               else (s, false)
  {
  }

  /** The relay no longer lists some pin, and it does not retire behind a newer one. */
  predicate Revokes(pins: seq<Pin>, snapshot: Snapshot) {
    exists i :: 0 <= i < |pins| && ReconciledPin(pins[i], snapshot) != pins[i]
  }

  lemma RevokesIff(pins: seq<Pin>, snapshot: Snapshot)
    ensures Revokes(pins, snapshot) <==> Reconciled(pins, snapshot) != pins
  {
  }

  /** The operation reads the file into memory. */
  ghost predicate Reads(s: Session, op: Op, hostKeys: set<string>) {
    && ArgumentsOk(op, hostKeys) && Loads(s, hostKeys)
    && ((Updates(op) && op.lockFree)
        || (op.ReconcileRecipients?
            && if AllMaterial(s.mem.pins, op.snapshot, hostKeys)
               then Revokes(s.mem.pins, op.snapshot) && op.lockFree && s.persisted != Contents(s.disk)
               else true))
  }

  /** The change is made in memory, and then rejected by validateState. */
  ghost predicate Rejected(s: Session, op: Op, hostKeys: set<string>) {
    Updates(op) && Reads(s, op, hostKeys) && Change(s, op).Some? && !Valid(Change(s, op).value, hostKeys)
  }

  /** Every staged activation fits the others, and the pins that pruning retains. */
  ghost predicate PrunedFits(k: Keyring, references: seq<map<PinKey, Timestamp>>, now: Timestamp,
                             hostKeys: set<string>) {
    && PendingApart(k.pending, hostKeys)
    && forall a, i :: 0 <= a < |k.pending| && 0 <= i < |k.pins| && Retained(k.pins[i], references, now) ==>
         Ahead(k.pending[a].pin, k.pins[i])
  }

  lemma PrunedFitsIff(k: Keyring, references: seq<map<PinKey, Timestamp>>, now: Timestamp, hostKeys: set<string>)
    requires ValidPins(k.pins, hostKeys)
    ensures Valid(Prune(k, references, now), hostKeys) <==> PrunedFits(k, references, now, hostKeys)
  {
    var pins := Prune(k, references, now).pins;
    PrunedPins(k, references, now, hostKeys);
    KeepPinsKeeps(k.pins, (p: Pin) => Retained(p, references, now));
    if PrunedFits(k, references, now, hostKeys) {
      forall a, i | 0 <= a < |k.pending| && 0 <= i < |pins| ensures Ahead(k.pending[a].pin, pins[i]) {
        assert pins[i] in pins;
        var j :| 0 <= j < |k.pins| && k.pins[j] == pins[i];
      }
    }
    if Valid(Prune(k, references, now), hostKeys) {
      forall a, i | 0 <= a < |k.pending| && 0 <= i < |k.pins| && Retained(k.pins[i], references, now)
        ensures Ahead(k.pending[a].pin, k.pins[i])
      {
        assert k.pins[i] in pins;
        var j :| 0 <= j < |pins| && pins[j] == k.pins[i];
      }
    }
  }

  /**
   Memory is valid after an operation exactly when it was read and not rejected, or not read and valid or pruned into
   shape.
   */
  ghost predicate MemoryFits(s: Session, op: Op, hostKeys: set<string>) {
    if Reads(s, op, hostKeys) then !Rejected(s, op, hostKeys)
    else if op.PruneRetiring? then PrunedFits(s.mem, op.references, op.clock, hostKeys)
    else MemOk(s, hostKeys)
  }

  lemma MemoryValidIff(s: Session, op: Op, hostKeys: set<string>)
    requires PinsOk(s, hostKeys)
    ensures MemOk(Apply(s, op, hostKeys).0, hostKeys) <==> MemoryFits(s, op, hostKeys)
  {
    if Updates(op) {
      UpdateIs(s, op, hostKeys);
    } else if op.ReconcileRecipients? {
      ReconcileValidIff(s, op.snapshot, op.lockFree, hostKeys);
    } else {
      UnlockedValidIff(s, op, hostKeys);
    }
  }

  /** A reconcile stores what is in memory: it found the material and something to revoke, and the file is as it was. */
  ghost predicate StoresMemory(s: Session, op: Op, hostKeys: set<string>) {
    match op
    case ReconcileRecipients(snapshot, lockFree) =>
      && ArgumentsOk(op, hostKeys) && AllMaterial(s.mem.pins, snapshot, hostKeys) && Revokes(s.mem.pins, snapshot)
      && lockFree && s.persisted == Contents(s.disk)
    case PruneRetiring(references, clock) =>
      exists i :: 0 <= i < |s.mem.pins| && !Retained(s.mem.pins[i], references, clock)
    case RevokeWatchPins(w) =>
      exists i :: 0 <= i < |s.mem.pins| && s.mem.pins[i].watchId == w
                  && (!s.mem.pins[i].status.Revoked? || s.mem.pins[i].retiringAt.Some?)
    case RevokeCompromisedKey(keyId) =>
      exists i :: 0 <= i < |s.mem.pins| && !s.mem.pins[i].status.Revoked? && s.mem.pins[i].hostBinding.keyId == keyId
    case _ => false
  }

  lemma ReconcileValidIff(s: Session, snapshot: Snapshot, lockFree: bool, hostKeys: set<string>)
    requires PinsOk(s, hostKeys)
    ensures var op := ReconcileRecipients(snapshot, lockFree); var s' := Apply(s, op, hostKeys).0;
            && (MemOk(s', hostKeys) <==> Reads(s, op, hostKeys) || MemOk(s, hostKeys))
            && (DiskOk(s, hostKeys) ==>
                (DiskOk(s', hostKeys) <==> !StoresMemory(s, op, hostKeys) || MemOk(s, hostKeys)))
  {
    RevokesIff(s.mem.pins, snapshot);
    ReconciledValidIff(s.mem, snapshot, hostKeys);
    ReconciledValidIff(Contents(s.disk), snapshot, hostKeys);
  }

  lemma UnlockedValidIff(s: Session, op: Op, hostKeys: set<string>)
    requires PinsOk(s, hostKeys) && (op.PruneRetiring? || op.RevokeWatchPins? || op.RevokeCompromisedKey?)
    ensures MemOk(Apply(s, op, hostKeys).0, hostKeys) <==> MemoryFits(s, op, hostKeys)
    ensures Apply(s, op, hostKeys).0
            == if StoresMemory(s, op, hostKeys) then Store(s, Apply(s, op, hostKeys).0.mem) else s
  {
    match op
    case PruneRetiring(references, clock) =>
      PrunedFitsIff(s.mem, references, clock, hostKeys);
      PruneKeepsAllIff(s.mem.pins, references, clock);
    case RevokeWatchPins(w) => RevokeWatchValidIff(s.mem, w, hostKeys);
      RevokeWatchChanges(s.mem, w);
    case RevokeCompromisedKey(keyId) => RevokeHostKeyValidIff(s.mem, keyId, hostKeys);
      RevokeHostKeyChanges(s.mem, keyId);
  }

  lemma RevokeWatchChanges(k: Keyring, watchId: string)
    ensures RevokeWatch(k, watchId) != k
            <==> exists i :: 0 <= i < |k.pins| && k.pins[i].watchId == watchId
                             && (!k.pins[i].status.Revoked? || k.pins[i].retiringAt.Some?)
  {
    var after := RevokeWatch(k, watchId).pins;
    assert forall i :: 0 <= i < |k.pins| ==>
      (after[i] != k.pins[i]
       <==> k.pins[i].watchId == watchId && (!k.pins[i].status.Revoked? || k.pins[i].retiringAt.Some?));
    if RevokeWatch(k, watchId) != k { assert after != k.pins; }
  }

  lemma RevokeHostKeyChanges(k: Keyring, keyId: string)
    ensures RevokeHostKey(k, keyId) != k
            <==> exists i :: 0 <= i < |k.pins| && !k.pins[i].status.Revoked? && k.pins[i].hostBinding.keyId == keyId
  {
    var after := RevokeHostKey(k, keyId).pins;
    assert forall i :: 0 <= i < |k.pins| ==>
      (after[i] != k.pins[i] <==> !k.pins[i].status.Revoked? && k.pins[i].hostBinding.keyId == keyId);
    if RevokeHostKey(k, keyId) != k { assert after != k.pins; }
  }

  lemma {:induction false} PruneKeepsAllIff(pins: seq<Pin>, references: seq<map<PinKey, Timestamp>>, now: Timestamp)
    ensures KeepPins(pins, (p: Pin) => Retained(p, references, now)) == pins
            <==> forall i :: 0 <= i < |pins| ==> Retained(pins[i], references, now)
  {
    var keep := (p: Pin) => Retained(p, references, now);
    KeepPinsKeeps(pins, keep);
    if forall i :: 0 <= i < |pins| ==> Retained(pins[i], references, now) {
      KeepsAll(pins, keep);
    } else {
      var i :| 0 <= i < |pins| && !Retained(pins[i], references, now);
      assert pins[i] !in KeepPins(pins, keep);
    }
  }

  lemma {:induction false} KeepsAll(pins: seq<Pin>, keep: Pin -> bool)
    requires forall i :: 0 <= i < |pins| ==> keep(pins[i])
    ensures KeepPins(pins, keep) == pins
  {
    if pins != [] {
      assert forall i :: 0 <= i < |pins[1..]| ==> pins[1..][i] == pins[i + 1];
      KeepsAll(pins[1..], keep);
    }
  }

  /** What the operation would store of memory without validating it is valid. */
  ghost predicate SoundStep(s: Session, op: Op, hostKeys: set<string>) {
    StoresMemory(s, op, hostKeys) ==>
      if op.PruneRetiring? then PrunedFits(s.mem, op.references, op.clock, hostKeys) else MemOk(s, hostKeys)
  }

  /**
   Exactly when an operation leaves a valid file valid: whatever it is, unless it stores, unvalidated, a memory whose
   staged activations do not fit each other or the pins that stay.
   */
  lemma StoresValidIff(s: Session, op: Op, hostKeys: set<string>)
    requires PinsOk(s, hostKeys) && DiskOk(s, hostKeys)
    ensures DiskOk(Apply(s, op, hostKeys).0, hostKeys) <==> SoundStep(s, op, hostKeys)
  {
    if Updates(op) {
      UpdateIs(s, op, hostKeys);
    } else if op.ReconcileRecipients? {
      ReconcileValidIff(s, op.snapshot, op.lockFree, hostKeys);
    } else {
      UnlockedValidIff(s, op, hostKeys);
    }
  }

  // ----- Validity over runs

  ghost predicate WorldPinsOk(w: World, hostKeys: set<string>) {
    && ValidPins(Contents(w.disk).pins, hostKeys)
    && forall id :: id in w.objects ==> ValidPins(w.objects[id].mem.pins, hostKeys)
  }

  /** In every run, whatever was rejected, all pins in memory and on disk are valid. */
  lemma {:induction false} PinsStayValid(events: seq<Event>, hostKeys: set<string>)
    ensures WorldPinsOk(Run(events, hostKeys), hostKeys)
  {
    if events != [] {
      var w, e := Run(events[..|events| - 1], hostKeys), events[|events| - 1];
      PinsStayValid(events[..|events| - 1], hostKeys);
      if e.Does? && e.id in w.objects { ApplyKeepsPins(View(w, e.id), e.op, hostKeys); }
    }
  }

  /**
   The object's last change that was read from the file was rejected, and nothing was read or pruned into shape since.
   */
  ghost predicate Tainted(events: seq<Event>, id: nat, hostKeys: set<string>) {
    if events == [] then false
    else
      var before, e := events[..|events| - 1], events[|events| - 1];
      var w := Run(before, hostKeys);
      if e.id != id || (e.Does? && id !in w.objects) then Tainted(before, id, hostKeys)
      else if e.Opens? then !FileOk(w, hostKeys) && Tainted(before, id, hostKeys)
      else if Reads(View(w, id), e.op, hostKeys) then Rejected(View(w, id), e.op, hostKeys)
      else if e.op.PruneRetiring?
      then Tainted(before, id, hostKeys) && !PrunedFits(w.objects[id].mem, e.op.references, e.op.clock, hostKeys)
      else Tainted(before, id, hostKeys)
  }

  /** Exactly then an object's memory is invalid. */
  lemma {:induction false} TaintedIff(events: seq<Event>, id: nat, hostKeys: set<string>)
    requires id in Run(events, hostKeys).objects
    ensures Valid(Run(events, hostKeys).objects[id].mem, hostKeys) <==> !Tainted(events, id, hostKeys)
  {
    var before, e := events[..|events| - 1], events[|events| - 1];
    var w := Run(before, hostKeys);
    if id in w.objects { TaintedIff(before, id, hostKeys); } else { NeverOpened(before, id, hostKeys); }
    if e.Does? && e.id == id && id in w.objects {
      PinsStayValid(before, hostKeys);
      MemoryValidIff(View(w, id), e.op, hostKeys);
      if e.op.PruneRetiring? && MemOk(View(w, id), hostKeys) {
        PruneKeepsValid(w.objects[id].mem, e.op.references, e.op.clock, hostKeys);
        PrunedFitsIff(w.objects[id].mem, e.op.references, e.op.clock, hostKeys);
      }
    }
  }

  lemma {:induction false} NeverOpened(events: seq<Event>, id: nat, hostKeys: set<string>)
    requires id !in Run(events, hostKeys).objects
    ensures !Tainted(events, id, hostKeys)
  {
    if events != [] { NeverOpened(events[..|events| - 1], id, hostKeys); }
  }

  /** At every point of the run the file is valid. */
  ghost predicate AlwaysValid(events: seq<Event>, hostKeys: set<string>) {
    FileOk(Run(events, hostKeys), hostKeys) && (events != [] ==> AlwaysValid(events[..|events| - 1], hostKeys))
  }

  /** No operation of the run stores an unfit memory. */
  ghost predicate AlwaysSound(events: seq<Event>, hostKeys: set<string>) {
    events == []
    || var w, e := Run(events[..|events| - 1], hostKeys), events[|events| - 1];
       && AlwaysSound(events[..|events| - 1], hostKeys)
       && (e.Does? && e.id in w.objects ==> SoundStep(View(w, e.id), e.op, hostKeys))
  }

  /** The file stays valid throughout a run exactly when no operation of it stores an unfit memory. */
  lemma {:induction false} FileStaysValidIff(events: seq<Event>, hostKeys: set<string>)
    ensures AlwaysValid(events, hostKeys) <==> AlwaysSound(events, hostKeys)
  {
    if events == [] {
      assert Valid(Empty, hostKeys);
    } else {
      var before, e := events[..|events| - 1], events[|events| - 1];
      var w := Run(before, hostKeys);
      FileStaysValidIff(before, hostKeys);
      PinsStayValid(before, hostKeys);
      if AlwaysValid(before, hostKeys) && e.Does? && e.id in w.objects {
        StoresValidIff(View(w, e.id), e.op, hostKeys);
      }
    }
  }

  const SampleBinding := Binding("host-key", 1, "")

  function SamplePin(generation: int): Pin {
    Pin(Active, "link", "watch", generation, 1, SampleBinding, SampleBinding, "", 0, None, true)
  }

  lemma SampleIsStored(generation: int)
    requires generation >= 1
    ensures var k := Keyring([SamplePin(generation)], []);
            Valid(k, {"host-key"})
            && Apply(Fresh, PersistActive(SamplePin(generation), 0, true), {"host-key"}) == (Store(Fresh, k), true)
  {
    SampleActivates(generation);
    SampleIsValid(generation);
    UpdateIs(Fresh, PersistActive(SamplePin(generation), 0, true), {"host-key"});
  }

  lemma SampleActivates(generation: int)
    ensures Activate(Empty, SamplePin(generation), 0) == Some(Keyring([SamplePin(generation)], []))
  {
    var pin := SamplePin(generation);
    assert Find([], pin.Key()).None?;
    assert MapPins([], (p: Pin) => Retire(p, pin, 0)) + [pin] == [pin];
  }

  lemma SampleIsValid(generation: int)
    requires generation >= 1
    ensures Valid(Empty, {"host-key"}) && Valid(Keyring([SamplePin(generation)], []), {"host-key"})
    ensures ValidPin(SamplePin(generation), {"host-key"})
  {
  }

  const SampleStaged := Pending("link", 1, 1, "", 0, SamplePin(1))

  const SampleStored := Keyring([SamplePin(2)], [])

  const SampleRejected := Keyring([SamplePin(2)], [SampleStaged])

  /** The staged activation is older than the stored pin. */
  lemma SampleIsRejected()
    ensures Apply(Store(Fresh, SampleStored), StageActivation(SampleStaged, true), {"host-key"})
            == (Session(SampleRejected, SampleStored, Some(SampleStored)), false)
    ensures !Valid(SampleRejected, {"host-key"}) && ValidPins(SampleRejected.pins, {"host-key"})
  {
    var s := Store(Fresh, SampleStored);
    SampleIsStored(2);
    assert [] + [SampleStaged] == [SampleStaged];
    assert Stage(SampleStored, SampleStaged) == Some(SampleRejected);
    assert !Ahead(SampleRejected.pending[0].pin, SampleRejected.pins[0]);
    UpdateIs(s, StageActivation(SampleStaged, true), {"host-key"});
  }

  lemma RejectedIsStored()
    ensures var s := Session(SampleRejected, SampleStored, Some(SampleStored));
            Apply(s, RevokeWatchPins("watch"), {"host-key"}) == (Store(s, RevokeWatch(SampleRejected, "watch")), true)
    ensures !Valid(RevokeWatch(SampleRejected, "watch"), {"host-key"})
  {
    SampleIsRejected();
    RevokeWatchValidIff(SampleRejected, "watch", {"host-key"});
    RevokeWatchChanges(SampleRejected, "watch");
    assert !SampleRejected.pins[0].status.Revoked?;
  }

  /**
   Why the condition is needed: a staged activation that validateState rejects (it is older than the
   stored pin) stays in memory, and revoking the Watch then stores it, leaving a file that no longer loads.
   */
  lemma RejectedStageIsStoredByRevoke()
    ensures
      var hostKeys := {"host-key"};
      var s1 := Apply(Fresh, PersistActive(SamplePin(2), 0, true), hostKeys);
      var s2 := Apply(s1.0, StageActivation(SampleStaged, true), hostKeys);
      var s3 := Apply(s2.0, RevokeWatchPins("watch"), hostKeys);
      && s1.1 && DiskOk(s1.0, hostKeys)
      && !s2.1 && DiskOk(s2.0, hostKeys)
      && s3.1 && !DiskOk(s3.0, hostKeys)
  {
    SampleIsStored(2);
    SampleIsRejected();
    RejectedIsStored();
  }

  // ----- The pins of a Watch over whole runs

  /** Pins have different keys, and a Watch's later pin is newer and goes back in no binding sequence. */
  ghost predicate Chained(pins: seq<Pin>) {
    && DistinctKeys(pins)
    && forall i, j :: 0 <= i < j < |pins| && pins[i].watchId == pins[j].watchId ==> Follows(pins[i], pins[j])
  }

  predicate Follows(p: Pin, q: Pin) {
    && ComparePins(q, p) > 0
    && p.watchBinding.sequence <= q.watchBinding.sequence
    && p.hostBinding.sequence <= q.hostBinding.sequence
  }

  /** Every pin of `before` is still in `after`, and at most its status moved on. */
  ghost predicate Carried(before: seq<Pin>, after: seq<Pin>) {
    forall p {:trigger CarriedPin(p, after)} :: p in before ==> CarriedPin(p, after)
  }

  ghost predicate CarriedPin(p: Pin, after: seq<Pin>) {
    exists q :: q in after && MovedOn(p, q)
  }

  lemma CarriedByMoving(before: seq<Pin>, after: seq<Pin>, more: seq<Pin>)
    requires AllMovedOn(before, after)
    ensures Carried(before, after + more)
  {
    forall p | p in before
      ensures CarriedPin(p, after + more)
    {
      var i :| 0 <= i < |before| && before[i] == p;
      assert (after + more)[i] == after[i];
    }
  }

  lemma CarriedTwice(a: seq<Pin>, b: seq<Pin>, c: seq<Pin>)
    requires Carried(a, b) && Carried(b, c)
    ensures Carried(a, c)
  {
    forall p | p in a
      ensures CarriedPin(p, c)
    {
      assert CarriedPin(p, b);
      var q :| q in b && MovedOn(p, q);
      assert CarriedPin(q, c);
      var r :| r in c && MovedOn(q, r);
      assert MovedOn(p, r);
    }
  }

  lemma CarriedSelf(a: seq<Pin>)
    ensures Carried(a, a)
  {
    assert forall p :: MovedOn(p, p);
  }

  lemma MovingKeepsChain(before: seq<Pin>, after: seq<Pin>)
    requires AllMovedOn(before, after) && Chained(before)
    ensures Chained(after)
  {
    assert forall i :: 0 <= i < |after| ==> MovedOn(before[i], after[i]);
    forall i, j | 0 <= i < j < |after| && after[i].watchId == after[j].watchId
      ensures Follows(after[i], after[j])
    {
      assert Follows(before[i], before[j]);
    }
  }

  lemma {:induction false} KeepingKeepsChain(pins: seq<Pin>, keep: Pin -> bool)
    requires Chained(pins)
    ensures Chained(KeepPins(pins, keep))
  {
    KeepPinsKeeps(pins, keep);
    if pins != [] {
      var rest := KeepPins(pins[1..], keep);
      assert Chained(pins[1..]) by {
        forall i, j | 0 <= i < j < |pins[1..]| && pins[1..][i].watchId == pins[1..][j].watchId
          ensures Follows(pins[1..][i], pins[1..][j])
        {
          assert Follows(pins[i + 1], pins[j + 1]);
        }
      }
      KeepingKeepsChain(pins[1..], keep);
      KeepPinsKeeps(pins[1..], keep);
      forall j | 0 <= j < |rest| && pins[0].watchId == rest[j].watchId
        ensures Follows(pins[0], rest[j])
      {
        assert rest[j] in pins[1..];
        var m :| 0 <= m < |pins[1..]| && pins[1..][m] == rest[j];
        assert Follows(pins[0], pins[m + 1]);
      }
    }
  }

  lemma ActivateKeepsChain(k: Keyring, pin: Pin, now: Timestamp)
    requires Chained(k.pins) && Activate(k, pin, now).Some?
    ensures Chained(Activate(k, pin, now).value.pins) && Carried(k.pins, Activate(k, pin, now).value.pins)
  {
    var next := Activate(k, pin, now).value;
    if Find(k.pins, pin.Key()).None? {
      var retired := MapPins(k.pins, (p: Pin) => Retire(p, pin, now));
      assert AllMovedOn(k.pins, retired);
      MovingKeepsChain(k.pins, retired);
      CarriedByMoving(k.pins, retired, [pin]);
      RollbackFreeIsNewer(k, pin);
      forall i | 0 <= i < |retired|
        ensures retired[i].Key() != pin.Key()
        ensures retired[i].watchId == pin.watchId ==> Follows(retired[i], pin)
      {
        assert MovedOn(k.pins[i], retired[i]);
      }
    } else {
      CarriedSelf(k.pins);
    }
  }

  ghost predicate SessionChained(s: Session) {
    && Chained(s.mem.pins) && Chained(s.persisted.pins) && Chained(Contents(s.disk).pins)
    && Carried(s.persisted.pins, s.mem.pins)
  }

  /** Nobody else has written the file since the object last loaded or stored it. */
  predicate InSync(s: Session) { s.persisted == Contents(s.disk) }

  /** The pins of the file are all carried on. */
  ghost predicate FileCarried(s: Session, s': Session) { Carried(Contents(s.disk).pins, Contents(s'.disk).pins) }

  ghost predicate NextCarries(k: Keyring, next: Option<Keyring>) {
    next.Some? ==> Chained(next.value.pins) && Carried(k.pins, next.value.pins)
  }

  lemma UpdateCarries(s: Session, next: Option<Keyring>, ready: bool, accepted: bool)
    requires SessionChained(s) && NextCarries(Contents(s.disk), next)
    ensures SessionChained(UpdateTo(s, next, ready, accepted).0) && FileCarried(s, UpdateTo(s, next, ready, accepted).0)
  {
    CarriedSelf(Contents(s.disk).pins);
    if next.Some? { CarriedSelf(next.value.pins); }
  }

  /** Storing pins of memory or file whose statuses have moved on. */
  lemma StoreCarries(s: Session, k: Keyring, after: seq<Pin>)
    requires SessionChained(s) && Chained(k.pins) && AllMovedOn(k.pins, after)
    ensures SessionChained(Store(s, k.(pins := after)))
    ensures k == Contents(s.disk) || (k == s.mem && InSync(s)) ==> FileCarried(s, Store(s, k.(pins := after)))
  {
    MovingKeepsChain(k.pins, after);
    CarriedSelf(after);
    CarriedSelf(Contents(s.disk).pins);
    CarriedByMoving(k.pins, after, []);
    assert after + [] == after;
    if k == s.mem && InSync(s) { CarriedTwice(Contents(s.disk).pins, k.pins, after); }
  }

  lemma ReloadCarries(s: Session)
    requires SessionChained(s)
    ensures SessionChained(Reload(s))
  {
    CarriedSelf(Contents(s.disk).pins);
  }

  lemma ReconciledMovesOn(pins: seq<Pin>, snapshot: Snapshot)
    ensures AllMovedOn(pins, Reconciled(pins, snapshot))
  {
  }

  lemma ReconcileFromCarries(
    s: Session, snapshot: Snapshot, known: set<PinKey>, refreshed: bool, ready: bool, hostKeys: set<string>)
    requires SessionChained(s)
    ensures
      var s' := ReconcileFrom(s, snapshot, known, refreshed, ready, hostKeys).0;
      SessionChained(s') && FileCarried(s, s')
  {
    var latest := Contents(s.disk);
    ReconciledMovesOn(s.mem.pins, snapshot);
    ReconciledMovesOn(latest.pins, snapshot);
    StoreCarries(s, s.mem, Reconciled(s.mem.pins, snapshot));
    StoreCarries(s, latest, Reconciled(latest.pins, snapshot));
    ReloadCarries(s);
    CarriedSelf(latest.pins);
  }

  lemma ReconcileCarries(s: Session, snapshot: Snapshot, lockFree: bool, loads: bool, hostKeys: set<string>)
    requires SessionChained(s)
    ensures
      var s' := Reconcile(s, snapshot, lockFree, loads, hostKeys).0;
      SessionChained(s') && FileCarried(s, s')
  {
    ReloadCarries(s);
    CarriedSelf(Contents(s.disk).pins);
    ReconcileFromCarries(s, snapshot, Keys(s.mem.pins), false, lockFree && loads, hostKeys);
    ReconcileFromCarries(Reload(s), snapshot, Keys(s.mem.pins), true, lockFree, hostKeys);
  }

  lemma ChangeCarries(s: Session, op: Op)
    requires Updates(op) && SessionChained(s)
    ensures NextCarries(Contents(s.disk), Change(s, op))
  {
    var k := Contents(s.disk);
    CarriedSelf(k.pins);
    match op
    case PersistActive(pin, now, _) => if Activate(k, pin, now).Some? { ActivateKeepsChain(k, pin, now); }
    case StageActivation(_, _) =>
    case RevokeWatchGeneration(w, g, _) =>
      var next := RevokeGeneration(k, w, g);
      assert AllMovedOn(k.pins, next.pins);
      MovingKeepsChain(k.pins, next.pins);
      CarriedByMoving(k.pins, next.pins, []);
      assert next.pins + [] == next.pins;
  }

  /** The operations that take the mutation lock, and so never write over a file that they have not seen. */
  predicate Locks(op: Op) { Updates(op) || op.ReconcileRecipients? }

  /**
   An operation keeps the chains; but for pruning, it carries every stored pin on unless it overwrites unseen pins.
   */
  lemma ApplyCarries(s: Session, op: Op, hostKeys: set<string>)
    requires SessionChained(s)
    ensures SessionChained(Apply(s, op, hostKeys).0)
    ensures !op.PruneRetiring? && (Locks(op) || InSync(s)) ==> FileCarried(s, Apply(s, op, hostKeys).0)
  {
    CarriedSelf(Contents(s.disk).pins);
    if Updates(op) {
      ChangeCarries(s, op);
      UpdateIs(s, op, hostKeys);
      UpdateCarries(s, Change(s, op), op.lockFree && Loads(s, hostKeys), Accepted(Change(s, op), hostKeys));
    } else if op.ReconcileRecipients? {
      ReconcileCarries(s, op.snapshot, op.lockFree, Loads(s, hostKeys), hostKeys);
    } else if op.PruneRetiring? {
      KeepingKeepsChain(s.mem.pins, (p: Pin) => Retained(p, op.references, op.clock));
      CarriedSelf(Apply(s, op, hostKeys).0.mem.pins);
    } else {
      RevokingCarries(s, op, hostKeys);
    }
  }

  lemma RevokingCarries(s: Session, op: Op, hostKeys: set<string>)
    requires SessionChained(s) && (op.RevokeWatchPins? || op.RevokeCompromisedKey?)
    ensures SessionChained(Apply(s, op, hostKeys).0)
    ensures InSync(s) ==> FileCarried(s, Apply(s, op, hostKeys).0)
  {
    CarriedSelf(Contents(s.disk).pins);
    match op
    case RevokeWatchPins(w) => StoreCarries(s, s.mem, RevokeWatch(s.mem, w).pins);
    case RevokeCompromisedKey(keyId) => StoreCarries(s, s.mem, RevokeHostKey(s.mem, keyId).pins);
  }

  ghost predicate WorldChained(w: World) {
    Chained(Contents(w.disk).pins) && forall id :: id in w.objects ==> SessionChained(View(w, id))
  }

  /** The file and every object's memory are chained after every run. */
  lemma {:induction false} RunIsChained(events: seq<Event>, hostKeys: set<string>)
    ensures WorldChained(Run(events, hostKeys))
  {
    if events != [] {
      var w, e := Run(events[..|events| - 1], hostKeys), events[|events| - 1];
      RunIsChained(events[..|events| - 1], hostKeys);
      if e.Opens? {
        CarriedSelf(Contents(w.disk).pins);
      } else if e.id in w.objects {
        ApplyCarries(View(w, e.id), e.op, hostKeys);
      }
    }
  }

  /**
   From an empty keyring, in every run of any number of keyring objects whose operations succeed or throw: the stored
   pins of one Watch have different (generation, epoch) pairs, and of two of them the newer has no smaller binding
   sequence.
   */
  lemma StoredPinsFormAChain(events: seq<Event>, hostKeys: set<string>, p: Pin, q: Pin)
    requires
      var pins := Contents(Run(events, hostKeys).disk).pins;
      p in pins && q in pins && p != q && p.watchId == q.watchId
    ensures ComparePins(p, q) != 0
    ensures ComparePins(p, q) > 0 ==> Follows(q, p)
  {
    RunIsChained(events, hostKeys);
    ChainedPair(Contents(Run(events, hostKeys).disk).pins, p, q);
  }

  lemma ChainedPair(pins: seq<Pin>, p: Pin, q: Pin)
    requires Chained(pins) && p in pins && q in pins && p != q && p.watchId == q.watchId
    ensures ComparePins(p, q) != 0
    ensures ComparePins(p, q) > 0 ==> Follows(q, p)
  {
    var i :| 0 <= i < |pins| && pins[i] == p;
    var j :| 0 <= j < |pins| && pins[j] == q;
    if i < j { assert Follows(pins[i], pins[j]); } else { assert Follows(pins[j], pins[i]); }
  }

  /**
   One more operation, that takes the mutation lock or is of an object that nobody has overtaken: unless it prunes,
   every stored pin is still stored, unchanged but for a status that moves from active to retiring to revoked, so no
   Watch's newest pair ever drops.  Pruning drops a pin only when it is not active in memory and nothing retains it.
   */
  lemma StoredPinsMoveOn(events: seq<Event>, id: nat, op: Op, hostKeys: set<string>, p: Pin)
    requires p in Contents(Run(events, hostKeys).disk).pins && id in Run(events, hostKeys).objects
    requires Locks(op) || InSync(View(Run(events, hostKeys), id))
    ensures
      var w := Run(events, hostKeys);
      var after := Contents(Step(w, Does(id, op), hostKeys).disk).pins;
      || CarriedPin(p, after)
      || (op.PruneRetiring?
          && exists q :: q in w.objects[id].mem.pins && MovedOn(p, q) && !Retained(q, op.references, op.clock))
  {
    RunIsChained(events, hostKeys);
    var s := View(Run(events, hostKeys), id);
    if op.PruneRetiring? {
      assert CarriedPin(p, s.mem.pins);
      var q :| q in s.mem.pins && MovedOn(p, q);
      KeepPinsKeeps(s.mem.pins, (r: Pin) => Retained(r, op.references, op.clock));
      if Prune(s.mem, op.references, op.clock) == s.mem { assert MovedOn(p, p); }
    } else {
      ApplyCarries(s, op, hostKeys);
    }
  }

  /** A lone object is always in sync with its file. */
  lemma {:induction false} LoneObjectIsInSync(events: seq<Event>, id: nat, hostKeys: set<string>)
    requires forall i :: 0 <= i < |events| ==> events[i].id == id
    ensures var w := Run(events, hostKeys); w.objects.Keys <= {id} && (id in w.objects ==> InSync(View(w, id)))
    ensures id !in Run(events, hostKeys).objects ==> Run(events, hostKeys) == Start
  {
    if events != [] {
      LoneObjectIsInSync(events[..|events| - 1], id, hostKeys);
      var w, e := Run(events[..|events| - 1], hostKeys), events[|events| - 1];
      if e.Does? && id in w.objects { ApplyStaysInSync(View(w, id), e.op, hostKeys); }
    }
  }

  lemma ApplyStaysInSync(s: Session, op: Op, hostKeys: set<string>)
    requires InSync(s)
    ensures InSync(Apply(s, op, hostKeys).0)
  {
    if Updates(op) { UpdateIs(s, op, hostKeys); }
  }
}
