/** What the keyring operations keep, stated on keyring values. */
module LinkKeyringValidity {
  import opened Wrappers
  import opened LinkKeyring

  function Rank(s: Status): nat {
    match s case Active => 0 case Retiring => 1 case Revoked => 2
  }

  /** Same pin; only its status may have moved on, from active to retiring to revoked. */
  ghost predicate MovedOn(p: Pin, q: Pin) {
    q == p.(status := q.status, retiringAt := q.retiringAt) && Rank(p.status) <= Rank(q.status)
  }

  ghost predicate AllMovedOn(before: seq<Pin>, after: seq<Pin>) {
    |before| == |after| && forall i :: 0 <= i < |before| ==> MovedOn(before[i], after[i])
  }

  /** Moving statuses on never breaks the rules about one Watch's pins. */
  lemma MovingOnKeepsPins(before: seq<Pin>, after: seq<Pin>, hostKeys: set<string>)
    requires ValidPins(before, hostKeys) && AllMovedOn(before, after)
    requires forall i :: 0 <= i < |after| ==> ValidPin(after[i], hostKeys)
    ensures ValidPins(after, hostKeys)
  {
    assert forall i :: 0 <= i < |after| ==> MovedOn(before[i], after[i]);
  }

  /** Nothing about staged activations depends on a status. */
  lemma MovingOnKeepsPending(k: Keyring, after: seq<Pin>)
    requires AllMovedOn(k.pins, after)
    ensures PendingAhead(k) <==> PendingAhead(k.(pins := after))
  {
    var k' := k.(pins := after);
    assert forall i :: 0 <= i < |after| ==> MovedOn(k.pins[i], after[i]);
    assert forall a, i :: 0 <= a < |k.pending| && 0 <= i < |after| ==>
      Ahead(k.pending[a].pin, k.pins[i]) == Ahead(k'.pending[a].pin, k'.pins[i]);
  }

  /**
   revokeWatch, revokeCompromisedEncryptionKey and reconcileRecipients store their result without running
   validateState.  Over valid pins the result is valid exactly when the keyring they start from is:
   they never make one invalid, and never repair one whose staged activations do not fit its pins.
   */
  lemma RevokeWatchValidIff(k: Keyring, watchId: string, hostKeys: set<string>)
    requires ValidPins(k.pins, hostKeys)
    ensures Valid(RevokeWatch(k, watchId), hostKeys) <==> Valid(k, hostKeys)
    ensures AllMovedOn(k.pins, RevokeWatch(k, watchId).pins)
  {
    MovingOnKeepsPins(k.pins, RevokeWatch(k, watchId).pins, hostKeys);
    MovingOnKeepsPending(k, RevokeWatch(k, watchId).pins);
  }

  lemma RevokeHostKeyValidIff(k: Keyring, keyId: string, hostKeys: set<string>)
    requires ValidPins(k.pins, hostKeys)
    ensures Valid(RevokeHostKey(k, keyId), hostKeys) <==> Valid(k, hostKeys)
    ensures AllMovedOn(k.pins, RevokeHostKey(k, keyId).pins)
  {
    MovingOnKeepsPins(k.pins, RevokeHostKey(k, keyId).pins, hostKeys);
    MovingOnKeepsPending(k, RevokeHostKey(k, keyId).pins);
  }

  lemma ReconciledValidIff(k: Keyring, snapshot: Snapshot, hostKeys: set<string>)
    requires ValidPins(k.pins, hostKeys)
    ensures Valid(k.(pins := Reconciled(k.pins, snapshot)), hostKeys) <==> Valid(k, hostKeys)
    ensures AllMovedOn(k.pins, Reconciled(k.pins, snapshot))
  {
    MovingOnKeepsPins(k.pins, Reconciled(k.pins, snapshot), hostKeys);
    MovingOnKeepsPending(k, Reconciled(k.pins, snapshot));
  }

  /** pruneRetiring also stores without validateState; removing pins keeps a valid keyring valid. */
  lemma PruneKeepsValid(k: Keyring, references: seq<map<PinKey, Timestamp>>, now: Timestamp, hostKeys: set<string>)
    requires Valid(k, hostKeys)
    ensures Valid(Prune(k, references, now), hostKeys)
  {
    var pins := Prune(k, references, now).pins;
    KeepPinsKeeps(k.pins, (p: Pin) => Retained(p, references, now));
    forall i | 0 <= i < |pins|
      ensures pins[i] in k.pins
    {
      assert pins[i] in pins;
    }
    forall a, i | 0 <= a < |k.pending| && 0 <= i < |pins|
      ensures Ahead(k.pending[a].pin, pins[i])
    {
      var j :| 0 <= j < |k.pins| && k.pins[j] == pins[i];
    }
  }

  /** Pruning removes exactly the pins that are not active and that nothing retains any longer. */
  lemma PruneRemovesExactly(k: Keyring, references: seq<map<PinKey, Timestamp>>, now: Timestamp, p: Pin)
    ensures p in Prune(k, references, now).pins
            <==> p in k.pins && (p.status.Active? || exists c :: 0 <= c < |references| && p.Key() in references[c]
                                                              && references[c][p.Key()] >= now)
  {
    KeepPinsKeeps(k.pins, (q: Pin) => Retained(q, references, now));
    RetainUntilIsLatest(references, p.Key());
  }

  lemma {:induction false} RetainUntilIsLatest(references: seq<map<PinKey, Timestamp>>, key: PinKey)
    ensures
      var t := RetainUntil(references, key);
      && (t.Some? <==> exists c :: 0 <= c < |references| && key in references[c])
      && (t.Some? ==> exists c :: 0 <= c < |references| && key in references[c] && references[c][key] == t.value)
      && (t.Some? ==> forall c :: 0 <= c < |references| && key in references[c] ==> references[c][key] <= t.value)
  {
    if references != [] {
      RetainUntilIsLatest(references[1..], key);
      var rest := RetainUntil(references[1..], key);
      if rest.Some? {
        var c :| 0 <= c < |references[1..]| && key in references[1..][c] && references[1..][c][key] == rest.value;
        assert references[c + 1] == references[1..][c];
      }
      forall c | 0 <= c < |references| && key in references[c]
        ensures RetainUntil(references, key).Some? && references[c][key] <= RetainUntil(references, key).value
      {
        if c > 0 { assert references[c] == references[1..][c - 1]; }
      }
    }
  }

  /** The Host keys that a pin or a staged activation refers to. */
  function ReferencedHostKeys(k: Keyring): set<string> {
    (set p | p in k.pins :: p.hostBinding.keyId) + (set a | a in k.pending :: a.pin.hostBinding.keyId)
  }

  /** After pruning, only unreferenced Host identities are dropped: the keyring is as valid as before. */
  lemma IdentityPruneKeepsValid(k: Keyring, hostKeys: set<string>, kept: set<string>)
    requires kept <= hostKeys && hostKeys * ReferencedHostKeys(k) <= kept
    ensures Valid(k, kept) <==> Valid(k, hostKeys)
  {
    forall p | p in k.pins ensures p.hostBinding.keyId in kept <==> p.hostBinding.keyId in hostKeys {
      assert p.hostBinding.keyId in ReferencedHostKeys(k);
    }
    forall a | a in k.pending ensures a.pin.hostBinding.keyId in kept <==> a.pin.hostBinding.keyId in hostKeys {
      assert a.pin.hostBinding.keyId in ReferencedHostKeys(k);
    }
    assert forall i :: 0 <= i < |k.pins| ==> k.pins[i] in k.pins;
    assert forall i :: 0 <= i < |k.pending| ==> k.pending[i] in k.pending;
  }

  lemma RevokeGenerationKeepsValid(k: Keyring, watchId: string, generation: int, hostKeys: set<string>)
    requires Valid(k, hostKeys)
    ensures Valid(RevokeGeneration(k, watchId, generation), hostKeys)
    ensures AllMovedOn(k.pins, RevokeGeneration(k, watchId, generation).pins)
  {
    var k' := RevokeGeneration(k, watchId, generation);
    MovingOnKeepsPins(k.pins, k'.pins, hostKeys);
    MovingOnKeepsPending(k, k'.pins);
    var keep := (a: Pending) => a.pin.watchId != watchId || a.generation != generation;
    KeptPendingStaysAhead(k.(pins := k'.pins), keep, hostKeys);
  }

  lemma KeptPendingStaysAhead(k: Keyring, keep: Pending -> bool, hostKeys: set<string>)
    requires PendingApart(k.pending, hostKeys)
    ensures PendingApart(KeepPending(k.pending, keep), hostKeys)
    ensures PendingAhead(k) ==> PendingAhead(k.(pending := KeepPending(k.pending, keep)))
  {
    var kept := KeepPending(k.pending, keep);
    KeepPendingKeeps(k.pending, keep, hostKeys);
    if PendingAhead(k) {
      forall a, i | 0 <= a < |kept| && 0 <= i < |k.pins|
        ensures Ahead(kept[a].pin, k.pins[i])
      {
        assert kept[a] in kept;
        var b :| 0 <= b < |k.pending| && k.pending[b] == kept[a];
      }
    }
  }

  // ----- persistActive and stageActivation

  /** No other staged activation of the Watch is left behind by the new pin. */
  ghost predicate LeavesStagedAhead(k: Keyring, pin: Pin) {
    forall a :: 0 <= a < |k.pending| && k.pending[a].Key() != pin.Key() && k.pending[a].pin.watchId == pin.watchId ==>
      ComparePins(k.pending[a].pin, pin) > 0
  }

  ghost predicate SequencesNotBelow(pins: seq<Pin>, pin: Pin) {
    forall i :: 0 <= i < |pins| && pins[i].watchId == pin.watchId ==>
      pins[i].watchBinding.sequence <= pin.watchBinding.sequence
      && pins[i].hostBinding.sequence <= pin.hostBinding.sequence
  }

  /** The new pin is newer than every stored pin of its Watch. */
  ghost predicate NewerThanWatch(pins: seq<Pin>, pin: Pin) {
    forall i :: 0 <= i < |pins| && pins[i].watchId == pin.watchId ==> ComparePins(pin, pins[i]) > 0
  }

  /** The pins after a new pin is appended: earlier ones moved on, every active one of that Watch retired. */
  lemma ActivateNew(k: Keyring, pin: Pin, now: Timestamp, hostKeys: set<string>)
    requires ValidPins(k.pins, hostKeys) && ValidPin(pin, hostKeys) && pin.status.Active?
    requires Find(k.pins, pin.Key()).None? && NewerThanWatch(k.pins, pin)
    ensures
      var retired := MapPins(k.pins, (p: Pin) => Retire(p, pin, now));
      && AllMovedOn(k.pins, retired) && ValidPins(retired, hostKeys)
      && ValidPins(retired + [pin], hostKeys)
  {
    var retired := MapPins(k.pins, (p: Pin) => Retire(p, pin, now));
    assert AllMovedOn(k.pins, retired);
    assert forall i :: 0 <= i < |retired| ==> ValidPin(retired[i], hostKeys);
    MovingOnKeepsPins(k.pins, retired, hostKeys);
    assert forall i :: 0 <= i < |retired| ==> MovedOn(k.pins[i], retired[i]);
    assert forall i :: 0 <= i < |retired| && retired[i].watchId == pin.watchId ==>
      !retired[i].status.Active? && ComparePins(pin, retired[i]) > 0;
  }

  lemma RollbackFreeIsNewer(k: Keyring, pin: Pin)
    requires Find(k.pins, pin.Key()).None?
    ensures (forall i :: 0 <= i < |k.pins| ==> !RollsBack(k.pins[i], pin))
            <==> NewerThanWatch(k.pins, pin) && SequencesNotBelow(k.pins, pin)
  {
    forall i | 0 <= i < |k.pins|
      ensures k.pins[i].Key() != pin.Key()
    {
    }
    forall i | 0 <= i < |k.pins| && k.pins[i].watchId == pin.watchId
      ensures RollsBack(k.pins[i], pin)
              <==> !(ComparePins(pin, k.pins[i]) > 0
                     && k.pins[i].watchBinding.sequence <= pin.watchBinding.sequence
                     && k.pins[i].hostBinding.sequence <= pin.hostBinding.sequence)
    {
    }
  }

  lemma OthersStayAhead(k: Keyring, pin: Pin, now: Timestamp, hostKeys: set<string>)
    requires Valid(k, hostKeys) && Find(k.pins, pin.Key()).None? && NewerThanWatch(k.pins, pin)
    requires ValidPin(pin, hostKeys) && pin.status.Active?
    ensures
      var others := KeepPending(k.pending, (a: Pending) => a.Key() != pin.Key());
      var retired := MapPins(k.pins, (p: Pin) => Retire(p, pin, now));
      && PendingApart(others, hostKeys)
      && (PendingAhead(Keyring(retired + [pin], others)) <==> LeavesStagedAhead(k, pin))
  {
    var keep := (a: Pending) => a.Key() != pin.Key();
    var others := KeepPending(k.pending, keep);
    var retired := MapPins(k.pins, (p: Pin) => Retire(p, pin, now));
    var k' := Keyring(retired + [pin], others);
    ActivateNew(k, pin, now, hostKeys);
    MovingOnKeepsPending(k, retired);
    KeptPendingStaysAhead(k.(pins := retired), keep, hostKeys);
    KeepPendingKeeps(k.pending, keep, hostKeys);
    if LeavesStagedAhead(k, pin) {
      forall a, i | 0 <= a < |others| && 0 <= i < |retired + [pin]|
        ensures Ahead(others[a].pin, (retired + [pin])[i])
      {
        assert others[a] in others;
        var b :| 0 <= b < |k.pending| && k.pending[b] == others[a];
        if i < |retired| { assert (retired + [pin])[i] == retired[i]; }
      }
    }
    if PendingAhead(k') {
      forall a | 0 <= a < |k.pending| && keep(k.pending[a]) && k.pending[a].pin.watchId == pin.watchId
        ensures ComparePins(k.pending[a].pin, pin) > 0
      {
        assert k.pending[a] in k.pending;
        var b :| 0 <= b < |others| && others[b] == k.pending[a];
        assert Ahead(others[b].pin, k'.pins[|retired|]);
      }
    }
  }

  /**
   Exactly when persistActive accepts a new pin: it is newer than every stored pin of its Watch, no
   binding sequence goes back, and no other staged activation of that Watch would be left behind.
   */
  lemma ActivateAcceptsIff(k: Keyring, pin: Pin, now: Timestamp, hostKeys: set<string>)
    requires Valid(k, hostKeys) && ValidPin(pin, hostKeys) && pin.status.Active?
    requires Find(k.pins, pin.Key()).None?
    ensures
      var next := Activate(k, pin, now);
      (next.Some? && Valid(next.value, hostKeys))
      <==> NewerThanWatch(k.pins, pin) && SequencesNotBelow(k.pins, pin) && LeavesStagedAhead(k, pin)
  {
    RollbackFreeIsNewer(k, pin);
    if NewerThanWatch(k.pins, pin) {
      ActivateNew(k, pin, now, hostKeys);
      OthersStayAhead(k, pin, now, hostKeys);
    }
  }

  /** A pin that is stored already is accepted again, changing nothing, when it is identical and rolls nothing back. */
  lemma ActivateAgain(k: Keyring, pin: Pin, now: Timestamp, hostKeys: set<string>)
    requires Valid(k, hostKeys) && pin in k.pins
    requires forall i :: 0 <= i < |k.pins| ==> !RollsBack(k.pins[i], pin)
    ensures Activate(k, pin, now) == Some(k)
  {
    var i :| 0 <= i < |k.pins| && k.pins[i] == pin;
    var stored := Find(k.pins, pin.Key());
    var j :| 0 <= j < |k.pins| && k.pins[j] == stored.value;
    assert k.pins[i].Key() == k.pins[j].Key();
    forall a | 0 <= a < |k.pending|
      ensures k.pending[a].Key() != pin.Key()
    {
      assert Ahead(k.pending[a].pin, k.pins[i]);
    }
    KeepAllPending(k.pending, (a: Pending) => a.Key() != pin.Key());
  }

  lemma {:induction false} KeepAllPending(pending: seq<Pending>, keep: Pending -> bool)
    requires forall a :: 0 <= a < |pending| ==> keep(pending[a])
    ensures KeepPending(pending, keep) == pending
  {
    if pending != [] {
      assert forall a :: 0 <= a < |pending[1..]| ==> keep(pending[1..][a]);
      KeepAllPending(pending[1..], keep);
    }
  }

  /**
   A staged activation is always accepted, unless a binding sequence is below a stored one.  The staged
   entry is dropped and no other, the pin is stored active, and it is the only active pin of its Watch:
   every earlier pin of that Watch that was active retires, and every other pin is as it was.
   */
  lemma StagedActivationIsAccepted(k: Keyring, a: Pending, now: Timestamp, hostKeys: set<string>)
    requires Valid(k, hostKeys) && a in k.pending
    ensures
      var next := Activate(k, a.pin, now);
      (next.Some? && Valid(next.value, hostKeys)) <==> SequencesNotBelow(k.pins, a.pin)
    ensures SequencesNotBelow(k.pins, a.pin) ==>
      var next := Activate(k, a.pin, now).value;
      && a.pin in next.pins
      && (forall p :: p in next.pins && p.watchId == a.pin.watchId && p.status.Active? ==> p == a.pin)
      && (forall b :: b in next.pending <==> b in k.pending && b != a)
      && |next.pins| == |k.pins| + 1
      && (forall i :: 0 <= i < |k.pins| ==>
            next.pins[i] == if k.pins[i].watchId == a.pin.watchId && k.pins[i].status.Active?
                            then k.pins[i].(status := Retiring, retiringAt := next.pins[i].retiringAt)
                            else k.pins[i])
  {
    var s :| 0 <= s < |k.pending| && k.pending[s] == a;
    forall i | 0 <= i < |k.pins|
      ensures k.pins[i].Key() != a.pin.Key()
      ensures k.pins[i].watchId == a.pin.watchId ==> ComparePins(a.pin, k.pins[i]) > 0
    {
      assert Ahead(k.pending[s].pin, k.pins[i]);
    }
    assert Find(k.pins, a.pin.Key()).None?;
    assert LeavesStagedAhead(k, a.pin);
    ActivateAcceptsIff(k, a.pin, now, hostKeys);
    KeepPendingKeeps(k.pending, (b: Pending) => b.Key() != a.pin.Key(), hostKeys);
    assert forall b :: b in k.pending && b != a ==> b.Key() != a.pin.Key();
    if SequencesNotBelow(k.pins, a.pin) {
      var next := Activate(k, a.pin, now).value;
      var retired := MapPins(k.pins, (p: Pin) => Retire(p, a.pin, now));
      assert next.pins == retired + [a.pin];
      assert next.pins[|retired|] == a.pin;
      forall i | 0 <= i < |next.pins|
        ensures next.pins[i].watchId == a.pin.watchId && next.pins[i].status.Active? ==> i == |retired|
      {
        assert i < |retired| ==> next.pins[i] == Retire(k.pins[i], a.pin, now);
      }
    }
  }

  /** Exactly when stageActivation accepts: its Watch has no other staged entry and no pin as new or newer. */
  lemma StageAcceptsIff(k: Keyring, a: Pending, hostKeys: set<string>)
    requires Valid(k, hostKeys) && ValidPending(a, hostKeys) && FindPending(k.pending, a.Key()).None?
    ensures
      Valid(Stage(k, a).value, hostKeys)
      <==> (forall i :: 0 <= i < |k.pins| ==> Ahead(a.pin, k.pins[i]))
           && (forall b :: 0 <= b < |k.pending| ==> k.pending[b].pin.watchId != a.pin.watchId)
  {
    var k' := Stage(k, a).value;
    var n := |k.pending|;
    assert k'.pending[n] == a;
    if Valid(k', hostKeys) {
      forall i | 0 <= i < |k.pins| ensures Ahead(a.pin, k.pins[i]) {
        assert Ahead(k'.pending[n].pin, k'.pins[i]);
      }
      forall b | 0 <= b < n ensures k.pending[b].pin.watchId != a.pin.watchId {
        assert k'.pending[b].pin.watchId != k'.pending[n].pin.watchId;
      }
    }
  }
}
