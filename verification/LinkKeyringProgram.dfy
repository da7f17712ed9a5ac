/**
 The keyring object in its own form: fields reassigned by methods, a file it shares with other keyring
 objects, and the loops of validateState.  Each method does exactly what Apply says.
 */
module LinkKeyringProgram {
  import opened Wrappers
  import opened LinkKeyring
  import opened LinkKeyringValidity
  import opened LinkKeyringSession

  // ----- validateState

  ghost predicate OneWatch(group: seq<Pin>) {
    forall i, j :: 0 <= i < |group| && 0 <= j < |group| ==> group[i].watchId == group[j].watchId
  }

  lemma CompareTransitive(p: Pin, q: Pin, r: Pin)
    requires ComparePins(p, q) >= 0 && ComparePins(q, r) >= 0
    ensures ComparePins(p, r) >= 0
    ensures ComparePins(p, q) > 0 || ComparePins(q, r) > 0 ==> ComparePins(p, r) > 0
  {
  }

  /** pins.reduce(latestPin) */
  method Latest(group: seq<Pin>) returns (m: nat)
    requires group != []
    ensures m < |group| && forall j :: 0 <= j < |group| ==> ComparePins(group[m], group[j]) >= 0
  {
    m := 0;
    for i := 0 to |group|
      invariant m < |group| && forall j :: 0 <= j < i ==> ComparePins(group[m], group[j]) >= 0
    {
      if ComparePins(group[m], group[i]) < 0 {
        forall j | 0 <= j < i
          ensures ComparePins(group[i], group[j]) >= 0
        {
          CompareTransitive(group[i], group[m], group[j]);
        }
        m := i;
      }
    }
  }

  method ActiveOf(group: seq<Pin>) returns (active: seq<nat>)
    ensures forall a :: 0 <= a < |active| ==> active[a] < |group| && group[active[a]].status.Active?
    ensures forall a, b :: 0 <= a < b < |active| ==> active[a] < active[b]
    ensures forall j :: 0 <= j < |group| && group[j].status.Active? ==> j in active
  {
    active := [];
    for i := 0 to |group|
      invariant forall a :: 0 <= a < |active| ==> active[a] < i && group[active[a]].status.Active?
      invariant forall a, b :: 0 <= a < b < |active| ==> active[a] < active[b]
      invariant forall j :: 0 <= j < i && group[j].status.Active? ==> j in active
    {
      if group[i].status.Active? { active := active + [i]; }
    }
  }

  /** The checks on the pins of one Watch, against its newest pin. */
  method CheckWatch(group: seq<Pin>, pending: Option<Pin>) returns (ok: bool)
    requires group != [] && OneWatch(group)
    ensures ok <==> ActiveIsNewest(group)
                    && (pending.Some? ==> forall i :: 0 <= i < |group| ==> ComparePins(pending.value, group[i]) > 0)
  {
    var active := ActiveOf(group);
    if |active| > 1 {
      assert active[0] < active[1];
      return false;
    }
    var m := Latest(group);
    if |active| == 1 && ComparePins(group[active[0]], group[m]) != 0 { return false; }
    if pending.Some? && ComparePins(pending.value, group[m]) <= 0 { return false; }
    forall j | 0 <= j < |group|
      ensures |active| == 1 ==> ComparePins(group[active[0]], group[j]) >= 0
      ensures pending.Some? ==> ComparePins(pending.value, group[j]) > 0
    {
      if |active| == 1 { CompareTransitive(group[active[0]], group[m], group[j]); }
      if pending.Some? { CompareTransitive(pending.value, group[m], group[j]); }
    }
    return true;
  }

  predicate OfWatch(p: Pin, watchId: string) { p.watchId == watchId }

  function Group(pins: seq<Pin>, watchId: string): seq<Pin> {
    KeepPins(pins, (p: Pin) => OfWatch(p, watchId))
  }

  lemma {:induction false} KeepPinsAppend(pins: seq<Pin>, p: Pin, keep: Pin -> bool)
    ensures KeepPins(pins + [p], keep) == KeepPins(pins, keep) + if keep(p) then [p] else []
  {
    if pins == [] {
      assert [p][1..] == [];
    } else {
      var head, rest := if keep(pins[0]) then [pins[0]] else [], KeepPins(pins[1..], keep);
      var last := if keep(p) then [p] else [];
      KeepPinsAppend(pins[1..], p, keep);
      assert (pins + [p])[0] == pins[0] && (pins + [p])[1..] == pins[1..] + [p];
      assert head + (rest + last) == (head + rest) + last;
    }
  }

  lemma GroupsDecide(pins: seq<Pin>)
    requires DistinctKeys(pins)
    ensures ActiveIsNewest(pins) <==> forall i :: 0 <= i < |pins| ==> ActiveIsNewest(Group(pins, pins[i].watchId))
  {
    if ActiveIsNewest(pins) {
      forall i | 0 <= i < |pins|
        ensures ActiveIsNewest(Group(pins, pins[i].watchId))
      {
        KeepPinsKeeps(pins, (p: Pin) => OfWatch(p, pins[i].watchId));
      }
    }
    if forall i :: 0 <= i < |pins| ==> ActiveIsNewest(Group(pins, pins[i].watchId)) {
      forall i, j | 0 <= i < |pins| && 0 <= j < |pins| && i != j
                    && pins[i].watchId == pins[j].watchId && pins[i].status.Active?
        ensures !pins[j].status.Active? && ComparePins(pins[i], pins[j]) >= 0
      {
        KeepPinsKeeps(pins, (p: Pin) => OfWatch(p, pins[i].watchId));
        var group := Group(pins, pins[i].watchId);
        assert pins[i] in group && pins[j] in group;
        var a :| 0 <= a < |group| && group[a] == pins[i];
        var b :| 0 <= b < |group| && group[b] == pins[j];
        assert pins[i].Key() != pins[j].Key();
      }
    }
  }

  method CheckPins(pins: seq<Pin>, hostKeys: set<string>) returns (ok: bool, tuples: set<PinKey>)
    ensures ok <==> (forall i :: 0 <= i < |pins| ==> ValidPin(pins[i], hostKeys)) && DistinctKeys(pins)
    ensures ok ==> tuples == Keys(pins)
  {
    tuples := {};
    for i := 0 to |pins|
      invariant forall j :: 0 <= j < i ==> ValidPin(pins[j], hostKeys)
      invariant DistinctKeys(pins[..i])
      invariant forall key :: key in tuples <==> exists j :: 0 <= j < i && pins[j].Key() == key
    {
      if !ValidPin(pins[i], hostKeys) { return false, tuples; }
      if pins[i].Key() in tuples { return false, tuples; }
      tuples := tuples + {pins[i].Key()};
    }
    assert pins[..|pins|] == pins;
    assert forall key :: key in Keys(pins) <==> exists j :: 0 <= j < |pins| && pins[j].Key() == key;
    ok := true;
  }

  /** A staged key is not among `tuples`. */
  ghost predicate PendingOutside(pending: seq<Pending>, tuples: set<PinKey>) {
    forall i :: 0 <= i < |pending| ==> pending[i].pin.Key() !in tuples
  }

  method CheckPending(pending: seq<Pending>, tuples: set<PinKey>, hostKeys: set<string>) returns (ok: bool)
    ensures ok <==> PendingApart(pending, hostKeys) && PendingOutside(pending, tuples)
  {
    var pendingTuples: set<PinKey> := {};
    var pendingWatches: set<string> := {};
    for i := 0 to |pending|
      invariant PendingApart(pending[..i], hostKeys) && PendingOutside(pending[..i], tuples)
      invariant forall key :: key in pendingTuples <==> exists j :: 0 <= j < i && pending[j].pin.Key() == key
      invariant forall w :: w in pendingWatches <==> exists j :: 0 <= j < i && pending[j].pin.watchId == w
    {
      if !ValidPending(pending[i], hostKeys) { return false; }
      var key := pending[i].pin.Key();
      if key in tuples || key in pendingTuples || pending[i].pin.watchId in pendingWatches { return false; }
      pendingTuples := pendingTuples + {key};
      pendingWatches := pendingWatches + {pending[i].pin.watchId};
    }
    assert pending[..|pending|] == pending;
    ok := true;
  }

  /** The pins of every Watch, in their order. */
  method GroupByWatch(pins: seq<Pin>) returns (byWatch: map<string, seq<Pin>>)
    ensures forall w :: w in byWatch <==> exists i :: 0 <= i < |pins| && pins[i].watchId == w
    ensures forall w :: w in byWatch ==> byWatch[w] == Group(pins, w) && byWatch[w] != []
  {
    byWatch := map[];
    for i := 0 to |pins|
      invariant forall w :: w in byWatch <==> exists j :: 0 <= j < i && pins[j].watchId == w
      invariant forall w :: w in byWatch ==> byWatch[w] == Group(pins[..i], w) && byWatch[w] != []
      invariant forall w :: w !in byWatch ==> Group(pins[..i], w) == []
    {
      var w := pins[i].watchId;
      assert pins[..i + 1] == pins[..i] + [pins[i]];
      forall v
        ensures Group(pins[..i + 1], v) == Group(pins[..i], v) + if v == w then [pins[i]] else []
      {
        KeepPinsAppend(pins[..i], pins[i], (p: Pin) => OfWatch(p, v));
      }
      byWatch := byWatch[w := (if w in byWatch then byWatch[w] else []) + [pins[i]]];
    }
    assert pins[..|pins|] == pins;
  }

  /** The first staged activation of the Watch, as Array.find gives it. */
  function StagedFor(pending: seq<Pending>, watchId: string): (r: Option<Pin>)
    ensures r.Some? ==> exists a :: 0 <= a < |pending| && pending[a].pin == r.value && r.value.watchId == watchId
    ensures r.None? ==> forall a :: 0 <= a < |pending| ==> pending[a].pin.watchId != watchId
  {
    if pending == [] then None
    else if pending[0].pin.watchId == watchId then Some(pending[0].pin)
    else StagedFor(pending[1..], watchId)
  }

  ghost predicate WatchOk(k: Keyring, w: string) {
    var staged := StagedFor(k.pending, w);
    && ActiveIsNewest(Group(k.pins, w))
    && (staged.Some? ==> forall p :: p in Group(k.pins, w) ==> ComparePins(staged.value, p) > 0)
  }

  lemma WatchesDecide(k: Keyring, hostKeys: set<string>)
    requires DistinctKeys(k.pins) && (forall i :: 0 <= i < |k.pins| ==> ValidPin(k.pins[i], hostKeys))
    requires PendingApart(k.pending, hostKeys) && PendingOutside(k.pending, Keys(k.pins))
    ensures Valid(k, hostKeys) <==> forall i :: 0 <= i < |k.pins| ==> WatchOk(k, k.pins[i].watchId)
  {
    GroupsDecide(k.pins);
    forall i | 0 <= i < |k.pins|
      ensures k.pins[i] in Group(k.pins, k.pins[i].watchId)
    {
      KeepPinsKeeps(k.pins, (p: Pin) => OfWatch(p, k.pins[i].watchId));
    }
    if forall i :: 0 <= i < |k.pins| ==> WatchOk(k, k.pins[i].watchId) {
      forall a, i | 0 <= a < |k.pending| && 0 <= i < |k.pins|
        ensures Ahead(k.pending[a].pin, k.pins[i])
      {
        assert k.pins[i] in k.pins && k.pins[i].Key() in Keys(k.pins);
        var staged := StagedFor(k.pending, k.pins[i].watchId);
        if staged.Some? && k.pending[a].pin.watchId == k.pins[i].watchId {
          var b :| 0 <= b < |k.pending| && k.pending[b].pin == staged.value;
          assert a == b;
          assert WatchOk(k, k.pins[i].watchId);
        }
      }
    }
    if Valid(k, hostKeys) {
      forall i | 0 <= i < |k.pins|
        ensures WatchOk(k, k.pins[i].watchId)
      {
        var w := k.pins[i].watchId;
        var staged := StagedFor(k.pending, w);
        KeepPinsKeeps(k.pins, (p: Pin) => OfWatch(p, w));
        if staged.Some? {
          var b :| 0 <= b < |k.pending| && k.pending[b].pin == staged.value;
          forall p | p in Group(k.pins, w)
            ensures ComparePins(staged.value, p) > 0
          {
            var j :| 0 <= j < |k.pins| && k.pins[j] == p;
            assert Ahead(k.pending[b].pin, k.pins[j]);
          }
        }
      }
    }
  }

  lemma ValidPendingOutside(k: Keyring, hostKeys: set<string>)
    ensures Valid(k, hostKeys) ==> PendingOutside(k.pending, Keys(k.pins))
  {
    if Valid(k, hostKeys) {
      forall a | 0 <= a < |k.pending|
        ensures k.pending[a].pin.Key() !in Keys(k.pins)
      {
        assert forall i :: 0 <= i < |k.pins| ==> Ahead(k.pending[a].pin, k.pins[i]);
      }
    }
  }

  /** validateState: it passes exactly the valid keyrings. */
  method ValidateState(k: Keyring, hostKeys: set<string>) returns (ok: bool)
    ensures ok <==> Valid(k, hostKeys)
  {
    var tuples;
    ok, tuples := CheckPins(k.pins, hostKeys);
    if !ok { return; }
    ok := CheckPending(k.pending, tuples, hostKeys);
    if !ok {
      ValidPendingOutside(k, hostKeys);
      return;
    }
    WatchesDecide(k, hostKeys);
    var byWatch := GroupByWatch(k.pins);
    var todo := byWatch.Keys;
    while todo != {}
      invariant todo <= byWatch.Keys
      invariant forall w :: w in byWatch.Keys - todo ==> WatchOk(k, w)
      decreases todo
    {
      var w :| w in todo;
      var group := byWatch[w];
      KeepPinsKeeps(k.pins, (p: Pin) => OfWatch(p, w));
      forall i | 0 <= i < |group| ensures group[i].watchId == w { assert group[i] in group; }
      var staged := StagedFor(k.pending, w);
      ok := CheckWatch(group, staged);
      assert ok <==> WatchOk(k, w);
      if !ok {
        var i :| 0 <= i < |k.pins| && k.pins[i].watchId == w;
        return;
      }
      todo := todo - {w};
    }
    ok := true;
  }

  // ----- The keyring object

  /** The file at one path; several keyring objects may share it. */
  class KeyringFile {
    var state: Option<Keyring>

    constructor ()
      ensures state == None
    {
      state := None;
    }
  }

  class LocalLinkKeyring {
    var pins: seq<Pin>
    var pendingActivations: seq<Pending>
    var persistedState: Keyring
    const file: KeyringFile
    const hostKeys: set<string>

    ghost function View(): Session
      reads this, file
    {
      Session(Keyring(pins, pendingActivations), persistedState, file.state)
    }

    /** Opening an empty path, or a file that loads. */
    constructor (file: KeyringFile, hostKeys: set<string>)
      requires Valid(Contents(file.state), hostKeys)
      ensures this.file == file && this.hostKeys == hostKeys
      ensures View() == Reload(Session(Empty, Empty, old(file.state)))
    {
      this.file := file;
      this.hostKeys := hostKeys;
      var state := if file.state.Some? then file.state.value else Empty;
      pins, pendingActivations, persistedState := state.pins, state.pending, state;
    }

    method Load() returns (state: Option<Keyring>)
      ensures state == if Loads(View(), hostKeys) then Some(Contents(file.state)) else None
    {
      var stored := if file.state.Some? then file.state.value else Empty;
      var ok := ValidateState(stored, hostKeys);
      return if ok then Some(stored) else None;
    }

    method SetMemory(k: Keyring)
      modifies this
      ensures View() == old(View()).(mem := k)
    {
      pins, pendingActivations := k.pins, k.pending;
    }

    method RefreshPersisted() returns (ok: bool)
      modifies this
      ensures ok == Loads(old(View()), hostKeys)
      ensures View() == if ok then Reload(old(View())) else old(View())
    {
      var latest := Load();
      if latest.None? { return false; }
      SetMemory(latest.value);
      persistedState := latest.value;
      return true;
    }

    method Persist()
      modifies this, file
      ensures View() == Store(old(View()), old(View()).mem)
    {
      file.state := Some(Keyring(pins, pendingActivations));
      persistedState := Keyring(pins, pendingActivations);
    }

    /** Reload, change, validate and store under the mutation lock; a throw leaves what was done so far. */
    method UpdatePersisted(change: Keyring -> Option<Keyring>, lockFree: bool) returns (ok: bool)
      modifies this, file
      ensures (View(), ok) == Update(old(View()), change, lockFree, hostKeys)
    {
      if !lockFree { return false; }
      ok := RefreshPersisted();
      if !ok { return; }
      var before := persistedState;
      var next := change(before);
      if next.None? { return false; }
      SetMemory(next.value);
      ok := ValidateState(next.value, hostKeys);
      if ok && before != next.value { Persist(); }
    }

    method PersistActive(pin: Pin, now: Timestamp, lockFree: bool) returns (ok: bool)
      modifies this, file
      ensures (View(), ok) == Apply(old(View()), Op.PersistActive(pin, now, lockFree), hostKeys)
    {
      if !ValidPin(pin, hostKeys) || !pin.status.Active? { return false; }
      ok := UpdatePersisted((k: Keyring) => Activate(k, pin, now), lockFree);
    }

    method StageActivation(activation: Pending, lockFree: bool) returns (ok: bool)
      modifies this, file
      ensures (View(), ok) == Apply(old(View()), Op.StageActivation(activation, lockFree), hostKeys)
    {
      if !ValidPending(activation, hostKeys) { return false; }
      ok := UpdatePersisted((k: Keyring) => Stage(k, activation), lockFree);
    }

    method RevokeWatchGeneration(watchId: string, generation: int, lockFree: bool) returns (ok: bool)
      modifies this, file
      ensures (View(), ok) == Apply(old(View()), Op.RevokeWatchGeneration(watchId, generation, lockFree), hostKeys)
    {
      if watchId == "" || generation < 1 { return false; }
      ok := UpdatePersisted((k: Keyring) => Some(RevokeGeneration(k, watchId, generation)), lockFree);
    }

    method RevokeWatchPins(watchId: string)
      modifies this, file
      ensures (View(), true) == Apply(old(View()), Op.RevokeWatchPins(watchId), hostKeys)
    {
      var before := pins;
      pins := RevokeWatch(Keyring(pins, pendingActivations), watchId).pins;
      if before != pins { Persist(); }
    }

    method RevokeCompromisedEncryptionKey(keyId: string) returns (count: nat)
      modifies this, file
      ensures (View(), true) == Apply(old(View()), Op.RevokeCompromisedKey(keyId), hostKeys)
      ensures count == |KeepPins(old(pins), (p: Pin) => !p.status.Revoked? && p.hostBinding.keyId == keyId)|
    {
      var hit := (p: Pin) => !p.status.Revoked? && p.hostBinding.keyId == keyId;
      var before := KeepPins(pins, hit);
      KeepPinsKeeps(pins, hit);
      ghost var was := pins;
      pins := RevokeHostKey(Keyring(pins, pendingActivations), keyId).pins;
      assert forall i :: 0 <= i < |was| ==> (pins[i] == was[i] <==> !hit(was[i]));
      if |before| > 0 {
        assert before[0] in was;
        Persist();
      } else {
        forall i | 0 <= i < |was| ensures pins[i] == was[i] {
          assert was[i] in was && was[i] !in before;
        }
        assert pins == was;
      }
      count := |before|;
    }

    /** Filters in place, collecting what it removes; the file is written only when something was removed. */
    method PruneRetiring(references: seq<map<PinKey, Timestamp>>, now: Timestamp) returns (removed: seq<Pin>)
      modifies this, file
      ensures (View(), true) == Apply(old(View()), Op.PruneRetiring(references, now), hostKeys)
      ensures removed == KeepPins(old(pins), (p: Pin) => !Retained(p, references, now))
    {
      removed := [];
      var kept: seq<Pin> := [];
      for i := 0 to |pins|
        invariant pins == old(pins) && View() == old(View())
        invariant kept == KeepPins(pins[..i], (p: Pin) => Retained(p, references, now))
        invariant removed == KeepPins(pins[..i], (p: Pin) => !Retained(p, references, now))
        invariant removed == [] <==> kept == pins[..i]
        invariant |kept| + |removed| == i
      {
        assert pins[..i + 1] == pins[..i] + [pins[i]];
        KeepPinsAppend(pins[..i], pins[i], (p: Pin) => Retained(p, references, now));
        KeepPinsAppend(pins[..i], pins[i], (p: Pin) => !Retained(p, references, now));
        if Retained(pins[i], references, now) { kept := kept + [pins[i]]; } else { removed := removed + [pins[i]]; }
      }
      assert pins[..|pins|] == pins;
      pins := kept;
      if removed != [] { Persist(); }
    }

    /** reconcileRecipients; `ok` is false when it throws. */
    method ReconcileRecipients(snapshot: Snapshot, lockFree: bool) returns (ok: bool)
      modifies this, file
      ensures (View(), ok) == Apply(old(View()), Op.ReconcileRecipients(snapshot, lockFree), hostKeys)
    {
      if !snapshot.forThisHost || snapshot.version < 1 { return false; }
      var knownBeforeRefresh := Keys(pins);
      var refreshed := false;
      if !AllMaterial(pins, snapshot, hostKeys) {
        refreshed := RefreshPersisted();
        if !refreshed || !AllMaterial(pins, snapshot, hostKeys) { return false; }
      }
      if refreshed && Predates(pins, snapshot, knownBeforeRefresh) { return false; }
      var reconciled := Reconciled(pins, snapshot);
      if reconciled == pins { return true; }
      if !lockFree { return false; }
      var latest := Load();
      if latest.None? { return false; }
      if latest.value != persistedState {
        SetMemory(latest.value);
        persistedState := latest.value;
        if !AllMaterial(pins, snapshot, hostKeys) || Predates(pins, snapshot, knownBeforeRefresh) { return false; }
        pins := Reconciled(pins, snapshot);
      } else {
        pins := reconciled;
      }
      Persist();
      return true;
    }
  }
}
