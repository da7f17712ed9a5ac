/** What single keyring operations do to pins and staged activations, in memory and in the file. */
module LinkKeyringCalls {
  import opened Wrappers
  import opened LinkKeyring
  import opened LinkKeyringValidity
  import opened LinkKeyringSession
  import opened LinkKeyringRuns

  // ----- What is stored, and when

  /** Memory is what was last loaded or stored, and is what the file says. */
  predicate Settled(s: Session) { s.mem == s.persisted == Contents(s.disk) }

  /** An operation that throws leaves the file alone. */
  lemma ThrowingStoresNothing(s: Session, op: Op, hostKeys: set<string>)
    requires !Apply(s, op, hostKeys).1
    ensures Apply(s, op, hostKeys).0.disk == s.disk
  {
    if Updates(op) { UpdateIs(s, op, hostKeys); }
  }

  /**
   An activation, a staging or the revocation of a generation is accepted exactly if its arguments are, the lock is
   free, the file loads, and the change can be made and is valid; memory and file are then the changed keyring.
   */
  lemma AcceptedIsStored(s: Session, op: Op, hostKeys: set<string>)
    requires Updates(op)
    ensures Apply(s, op, hostKeys).1
            <==> ArgumentsOk(op, hostKeys) && op.lockFree && Valid(Contents(s.disk), hostKeys)
                 && Change(s, op).Some? && Valid(Change(s, op).value, hostKeys)
    ensures Apply(s, op, hostKeys).1 ==>
              Settled(Apply(s, op, hostKeys).0) && Apply(s, op, hostKeys).0.mem == Change(s, op).value
  {
    UpdateIs(s, op, hostKeys);
  }

  // ----- Activation

  function Later(a: Timestamp, b: Timestamp): Timestamp { if a >= b then a else b }

  /** The pin once a newer one of its Watch is activated: an active one retires, not before its own activation. */
  function Superseded(p: Pin, watchId: string, now: Timestamp): Pin {
    if p.watchId == watchId && p.status.Active?
    then p.(status := Retiring, retiringAt := Some(Later(now, p.activatedAt)))
    else p
  }

  /** The staged activations left are those of other keys, in order. */
  predicate Unstaged(before: seq<Pending>, after: seq<Pending>, key: PinKey) {
    after == KeepPending(before, (a: Pending) => a.Key() != key)
  }

  /**
   An accepted activation of a new pin stores it last, and supersedes the pins of its Watch, each at its place; that of
   a stored pin changes no pin.  In both cases its staged activation is gone and no other.
   */
  lemma ActivationIs(s: Session, pin: Pin, now: Timestamp, lockFree: bool, hostKeys: set<string>)
    requires Apply(s, Op.PersistActive(pin, now, lockFree), hostKeys).1
    ensures
      var k, k' := Contents(s.disk), Contents(Apply(s, Op.PersistActive(pin, now, lockFree), hostKeys).0.disk);
      && Unstaged(k.pending, k'.pending, pin.Key())
      && (if pin in k.pins then k'.pins == k.pins
          else && |k'.pins| == |k.pins| + 1 && k'.pins[|k.pins|] == pin
               && forall i :: 0 <= i < |k.pins| ==> k'.pins[i] == Superseded(k.pins[i], pin.watchId, now))
  {
    var op, k := Op.PersistActive(pin, now, lockFree), Contents(s.disk);
    AcceptedIsStored(s, op, hostKeys);
    if Find(k.pins, pin.Key()).None? {
      RollbackFreeIsNewer(k, pin);
      assert pin !in k.pins;
      forall i | 0 <= i < |k.pins| ensures Retire(k.pins[i], pin, now) == Superseded(k.pins[i], pin.watchId, now) {
      }
    }
  }

  /** An accepted staging adds the activation last, or finds that very one. */
  lemma StagingIs(s: Session, a: Pending, lockFree: bool, hostKeys: set<string>)
    requires Apply(s, Op.StageActivation(a, lockFree), hostKeys).1
    ensures
      var k, k' := Contents(s.disk), Contents(Apply(s, Op.StageActivation(a, lockFree), hostKeys).0.disk);
      k'.pins == k.pins && k'.pending == if a in k.pending then k.pending else k.pending + [a]
  {
    AcceptedIsStored(s, Op.StageActivation(a, lockFree), hostKeys);
  }

  // ----- Revocation

  function RevokedPin(p: Pin): Pin { p.(status := Revoked, retiringAt := None) }

  /** `after` is `before` with exactly the pins revoked that `which` names, each at its place. */
  ghost predicate RevokedExactly(before: seq<Pin>, after: seq<Pin>, which: Pin -> bool) {
    |after| == |before|
    && forall i :: 0 <= i < |before| ==> after[i] == if which(before[i]) then RevokedPin(before[i]) else before[i]
  }

  /**
   An accepted revocation of a generation of a Watch revokes exactly its pins and drops exactly its staged activations,
   in memory and in the file.
   */
  lemma GenerationRevocationIs(s: Session, watchId: string, generation: int, lockFree: bool, hostKeys: set<string>)
    requires Apply(s, Op.RevokeWatchGeneration(watchId, generation, lockFree), hostKeys).1
    ensures
      var k, s' := Contents(s.disk), Apply(s, Op.RevokeWatchGeneration(watchId, generation, lockFree), hostKeys).0;
      && Settled(s')
      && RevokedExactly(k.pins, s'.mem.pins, (p: Pin) => p.watchId == watchId && p.generation == generation)
      && s'.mem.pending
         == KeepPending(k.pending, (a: Pending) => a.pin.watchId != watchId || a.generation != generation)
  {
    AcceptedIsStored(s, Op.RevokeWatchGeneration(watchId, generation, lockFree), hostKeys);
  }

  /** The valid call is accepted whenever the lock is free and the file loads. */
  lemma GenerationRevocationIsAccepted(s: Session, watchId: string, generation: int, hostKeys: set<string>)
    requires watchId != "" && generation >= 1 && Valid(Contents(s.disk), hostKeys)
    ensures Apply(s, Op.RevokeWatchGeneration(watchId, generation, true), hostKeys).1
  {
    AcceptedIsStored(s, Op.RevokeWatchGeneration(watchId, generation, true), hostKeys);
    RevokeGenerationKeepsValid(Contents(s.disk), watchId, generation, hostKeys);
  }

  /** In every run: directly after an accepted revocation, no pin of that generation on file is active or retiring. */
  lemma RevokedGenerationIsOff(events: seq<Event>, id: nat, watchId: string, generation: int, lockFree: bool,
                               hostKeys: set<string>, p: Pin)
    requires id in Run(events, hostKeys).objects
    requires Apply(View(Run(events, hostKeys), id), Op.RevokeWatchGeneration(watchId, generation, lockFree), hostKeys).1
    requires
      var after := Run(events + [Does(id, Op.RevokeWatchGeneration(watchId, generation, lockFree))], hostKeys);
      p in Contents(after.disk).pins && p.watchId == watchId && p.generation == generation
    ensures p.status.Revoked?
  {
    var e := Does(id, Op.RevokeWatchGeneration(watchId, generation, lockFree));
    var s := View(Run(events, hostKeys), id);
    assert (events + [e])[..|events + [e]| - 1] == events;
    GenerationRevocationIs(s, watchId, generation, lockFree, hostKeys);
    var k, after := Contents(s.disk), Contents(Run(events + [e], hostKeys).disk).pins;
    assert RevokedExactly(k.pins, after, (q: Pin) => q.watchId == watchId && q.generation == generation);
    var i :| 0 <= i < |after| && after[i] == p;
    assert after[i].watchId == k.pins[i].watchId && after[i].generation == k.pins[i].generation;
  }

  /** revokeWatch revokes exactly the Watch's pins in memory, and stores memory if that changes anything. */
  lemma WatchRevocationIs(s: Session, watchId: string, hostKeys: set<string>)
    ensures
      var s' := Apply(s, Op.RevokeWatchPins(watchId), hostKeys).0;
      && RevokedExactly(s.mem.pins, s'.mem.pins, (p: Pin) => p.watchId == watchId) && s'.mem.pending == s.mem.pending
      && (if s'.mem == s.mem then s' == s else Settled(s'))
  {
    var next := RevokeWatch(s.mem, watchId);
    assert RevokedExactly(s.mem.pins, next.pins, (p: Pin) => p.watchId == watchId);
  }

  /** revokeCompromisedEncryptionKey revokes exactly the key's pins in memory, which keep their retirement time. */
  lemma KeyRevocationIs(s: Session, keyId: string, hostKeys: set<string>)
    ensures
      var s' := Apply(s, Op.RevokeCompromisedKey(keyId), hostKeys).0;
      && |s'.mem.pins| == |s.mem.pins| && s'.mem.pending == s.mem.pending
      && (forall i :: 0 <= i < |s.mem.pins| ==>
            s'.mem.pins[i] == if s.mem.pins[i].hostBinding.keyId == keyId then s.mem.pins[i].(status := Revoked)
                              else s.mem.pins[i])
      && (if s'.mem == s.mem then s' == s else Settled(s'))
  {
    var next := RevokeHostKey(s.mem, keyId);
    assert forall i :: 0 <= i < |s.mem.pins| ==>
      next.pins[i] == if s.mem.pins[i].hostBinding.keyId == keyId
                      then s.mem.pins[i].(status := Revoked) else s.mem.pins[i];
  }

  // ----- Reconciling

  /** The relay lists a newer recipient of the pin's Watch; of several, the last listed counts. */
  ghost predicate HasNewerRecipient(p: Pin, recipients: seq<Recipient>) {
    exists i :: 0 <= i < |recipients| && recipients[i].watchId == p.watchId
                && (forall j :: i < j < |recipients| ==> recipients[j].watchId != p.watchId)
                && (recipients[i].generation > p.generation
                    || (recipients[i].generation == p.generation && recipients[i].epoch > p.epoch))
  }

  /** A pin stays if it is revoked already, listed, or retires behind a newer recipient; else it is revoked. */
  ghost predicate Stays(p: Pin, recipients: seq<Recipient>) {
    || p.status.Revoked?
    || (exists i :: 0 <= i < |recipients| && recipients[i].Key() == p.Key())
    || (p.status.Retiring? && HasNewerRecipient(p, recipients))
  }

  lemma {:induction false} LastForWatch(recipients: seq<Recipient>, watchId: string)
    ensures var r := ForWatch(recipients, watchId);
            if r.None? then forall i :: 0 <= i < |recipients| ==> recipients[i].watchId != watchId
            else exists i :: 0 <= i < |recipients| && recipients[i] == r.value
                             && (forall j :: i < j < |recipients| ==> recipients[j].watchId != watchId)
  {
    if recipients != [] && recipients[|recipients| - 1].watchId != watchId {
      var before := recipients[..|recipients| - 1];
      LastForWatch(before, watchId);
      if ForWatch(before, watchId).Some? {
        var i :| 0 <= i < |before| && before[i] == ForWatch(before, watchId).value
                 && (forall j :: i < j < |before| ==> before[j].watchId != watchId);
        assert recipients[i] == before[i];
        forall j | i < j < |recipients| ensures recipients[j].watchId != watchId {
          if j < |before| { assert before[j] == recipients[j]; }
        }
      } else {
        forall i | 0 <= i < |recipients| ensures recipients[i].watchId != watchId {
          if i < |before| { assert before[i] == recipients[i]; }
        }
      }
    }
  }

  lemma StaysIff(p: Pin, snapshot: Snapshot)
    ensures ReconciledPin(p, snapshot) == if Stays(p, snapshot.recipients) then p else RevokedPin(p)
  {
    LastForWatch(snapshot.recipients, p.watchId);
  }

  ghost predicate ReconciledExactly(before: seq<Pin>, after: seq<Pin>, recipients: seq<Recipient>) {
    |after| == |before|
    && forall i :: 0 <= i < |before| ==>
         after[i] == if Stays(before[i], recipients) then before[i] else RevokedPin(before[i])
  }

  lemma ReconciledIs(pins: seq<Pin>, snapshot: Snapshot)
    ensures ReconciledExactly(pins, Reconciled(pins, snapshot), snapshot.recipients)
  {
    forall i | 0 <= i < |pins|
      ensures Reconciled(pins, snapshot)[i]
              == if Stays(pins[i], snapshot.recipients) then pins[i] else RevokedPin(pins[i])
    {
      StaysIff(pins[i], snapshot);
    }
  }

  /**
   A reconcile that returns has revoked, of the pins in memory or of those on file, exactly the ones that do not stay,
   and staged activations are untouched.
   */
  lemma ReconcileIs(s: Session, snapshot: Snapshot, lockFree: bool, hostKeys: set<string>)
    requires Apply(s, Op.ReconcileRecipients(snapshot, lockFree), hostKeys).1
    ensures
      var s' := Apply(s, Op.ReconcileRecipients(snapshot, lockFree), hostKeys).0;
      && (|| (ReconciledExactly(s.mem.pins, s'.mem.pins, snapshot.recipients) && s'.mem.pending == s.mem.pending)
          || (ReconciledExactly(Contents(s.disk).pins, s'.mem.pins, snapshot.recipients)
              && s'.mem.pending == Contents(s.disk).pending))
      && (s'.disk != s.disk ==> Settled(s'))
  {
    ReconciledIs(s.mem.pins, snapshot);
    ReconciledIs(Contents(s.disk).pins, snapshot);
  }

  /** The recipient is active, and an active pin of the list has its key, Watch and binding and a known Host key. */
  ghost predicate Trusted(pins: seq<Pin>, r: Recipient, hostKeys: set<string>) {
    r.active && exists p :: p in pins && p.status.Active? && p.Key() == r.Key() && p.watchId == r.watchId
                            && p.watchBinding == r.watchBinding && p.hostBinding.keyId in hostKeys
  }

  ghost predicate AllTrusted(pins: seq<Pin>, snapshot: Snapshot, hostKeys: set<string>) {
    forall i :: 0 <= i < |snapshot.recipients| ==> Trusted(pins, snapshot.recipients[i], hostKeys)
  }

  lemma {:induction false} UsableIs(pins: seq<Pin>, p: Pin)
    requires DistinctKeys(pins) && p in pins && !p.status.Revoked?
    ensures Usable(pins, p.Key()) == Some(p)
  {
    if pins[0] != p {
      var i :| 0 <= i < |pins| && pins[i] == p;
      assert pins[0].Key() != pins[i].Key();
      assert pins[1..][i - 1] == p;
      UsableIs(pins[1..], p);
    }
  }

  lemma MaterialIff(pins: seq<Pin>, snapshot: Snapshot, hostKeys: set<string>)
    requires DistinctKeys(pins)
    ensures AllMaterial(pins, snapshot, hostKeys) <==> AllTrusted(pins, snapshot, hostKeys)
  {
    forall i | 0 <= i < |snapshot.recipients|
      ensures HasMaterial(pins, snapshot.recipients[i], hostKeys) <==> Trusted(pins, snapshot.recipients[i], hostKeys)
    {
      var r := snapshot.recipients[i];
      if Trusted(pins, r, hostKeys) {
        var p :| p in pins && p.status.Active? && p.Key() == r.Key() && p.watchId == r.watchId
                 && p.watchBinding == r.watchBinding && p.hostBinding.keyId in hostKeys;
        UsableIs(pins, p);
      }
    }
  }

  /** An active pin on file that memory did not know before, and that the snapshot does not list. */
  ghost predicate HasUnknown(s: Session, snapshot: Snapshot) {
    exists p :: p in Contents(s.disk).pins && p.status.Active? && (forall q :: q in s.mem.pins ==> q.Key() != p.Key())
                && (forall i :: 0 <= i < |snapshot.recipients| ==> snapshot.recipients[i].Key() != p.Key())
  }

  lemma UnknownIff(s: Session, snapshot: Snapshot)
    ensures Predates(Contents(s.disk).pins, snapshot, Keys(s.mem.pins)) <==> HasUnknown(s, snapshot)
  {
    var pins := Contents(s.disk).pins;
    if HasUnknown(s, snapshot) {
      var p :| p in pins && p.status.Active? && (forall q :: q in s.mem.pins ==> q.Key() != p.Key())
               && (forall i :: 0 <= i < |snapshot.recipients| ==> snapshot.recipients[i].Key() != p.Key());
      var i :| 0 <= i < |pins| && pins[i] == p;
      assert pins[i].Key() !in Keys(s.mem.pins) && !Listed(snapshot.recipients, pins[i].Key());
    }
    if Predates(pins, snapshot, Keys(s.mem.pins)) {
      var i :| 0 <= i < |pins| && pins[i].status.Active?
               && !Listed(snapshot.recipients, pins[i].Key()) && pins[i].Key() !in Keys(s.mem.pins);
      forall q | q in s.mem.pins ensures q.Key() != pins[i].Key() { assert q.Key() in Keys(s.mem.pins); }
      assert pins[i] in pins;
    }
  }

  ghost predicate AllStay(pins: seq<Pin>, snapshot: Snapshot) {
    forall i :: 0 <= i < |pins| ==> Stays(pins[i], snapshot.recipients)
  }

  lemma AllStayIff(pins: seq<Pin>, snapshot: Snapshot)
    ensures Reconciled(pins, snapshot) == pins <==> AllStay(pins, snapshot)
  {
    forall i | 0 <= i < |pins|
      ensures Reconciled(pins, snapshot)[i] == pins[i] <==> Stays(pins[i], snapshot.recipients)
    {
      StaysIff(pins[i], snapshot);
    }
  }

  /**
   When reconcileRecipients returns: the snapshot is for this Host, and every recipient is trusted - by memory, with the
   file as memory last saw it or trusted as well if there is something to revoke - or by the file, which is then read.
   What is read must hold no pin that memory did not know and the snapshot predates.
   */
  lemma ReconcileReturnsIff(s: Session, snapshot: Snapshot, lockFree: bool, hostKeys: set<string>)
    requires DistinctKeys(s.mem.pins) && DistinctKeys(Contents(s.disk).pins)
    ensures
      var file, loads := Contents(s.disk).pins, Valid(Contents(s.disk), hostKeys);
      var fileFits := AllTrusted(file, snapshot, hostKeys) && !HasUnknown(s, snapshot);
      Apply(s, Op.ReconcileRecipients(snapshot, lockFree), hostKeys).1
      <==> snapshot.forThisHost && snapshot.version >= 1
           && if AllTrusted(s.mem.pins, snapshot, hostKeys)
              then AllStay(s.mem.pins, snapshot) || (lockFree && loads && (s.persisted == Contents(s.disk) || fileFits))
              else loads && fileFits && (AllStay(file, snapshot) || lockFree)
  {
    MaterialIff(s.mem.pins, snapshot, hostKeys);
    MaterialIff(Contents(s.disk).pins, snapshot, hostKeys);
    UnknownIff(s, snapshot);
    AllStayIff(s.mem.pins, snapshot);
    AllStayIff(Contents(s.disk).pins, snapshot);
  }

  // ----- Pruning

  /** pruneRetiring keeps exactly the pins that are active or still asked for, in order, and stores if any is gone. */
  lemma PruningIs(s: Session, references: seq<map<PinKey, Timestamp>>, now: Timestamp, hostKeys: set<string>)
    ensures
      var s' := Apply(s, Op.PruneRetiring(references, now), hostKeys).0;
      && s'.mem.pending == s.mem.pending
      && s'.mem.pins == KeepPins(s.mem.pins, (p: Pin) => AskedFor(p, references, now))
      && (if s'.mem == s.mem then s' == s else Settled(s'))
  {
    SameFilter(s.mem.pins, references, now);
  }

  /** The pin is active, or some category asks for it up to now or longer. */
  predicate AskedFor(p: Pin, references: seq<map<PinKey, Timestamp>>, now: Timestamp) {
    p.status.Active?
    || exists c :: 0 <= c < |references| && p.Key() in references[c] && references[c][p.Key()] >= now
  }

  lemma {:induction false} SameFilter(pins: seq<Pin>, references: seq<map<PinKey, Timestamp>>, now: Timestamp)
    ensures KeepPins(pins, (p: Pin) => Retained(p, references, now))
            == KeepPins(pins, (p: Pin) => AskedFor(p, references, now))
  {
    if pins != [] {
      RetainUntilIsLatest(references, pins[0].Key());
      SameFilter(pins[1..], references, now);
    }
  }
}
