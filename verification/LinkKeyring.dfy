/**
 The local keyring of end-to-end link pins: versioned pins that move from active to retiring to revoked,
 and activations that are staged until the relay confirms them.
 */
module LinkKeyring {
  import opened Wrappers

  /** Canonical timestamps have one fixed-width form, so their string order is their order in time. */
  type Timestamp = nat

  datatype Status = Active | Retiring | Revoked

  /** An encryption key binding; `rest` is everything else its owner signed. */
  datatype Binding = Binding(keyId: string, sequence: int, rest: string)

  datatype PinKey = PinKey(linkId: string, generation: int, epoch: int)

  /** `authentic`: the checks of ids, binding digests and transcript digest, which no operation here touches. */
  datatype Pin = Pin(
    status: Status, linkId: string, watchId: string, generation: int, epoch: int,
    hostBinding: Binding, watchBinding: Binding, peerProof: string,
    activatedAt: Timestamp, retiringAt: Option<Timestamp>, authentic: bool)
  {
    function Key(): PinKey { PinKey(linkId, generation, epoch) }
  }

  datatype Pending = Pending(
    linkId: string, generation: int, epoch: int, peerProof: string, activatedAt: Timestamp, pin: Pin)
  {
    function Key(): PinKey { PinKey(linkId, generation, epoch) }
  }

  datatype Keyring = Keyring(pins: seq<Pin>, pending: seq<Pending>)

  const Empty := Keyring([], [])

  datatype Recipient = Recipient(
    linkId: string, watchId: string, generation: int, epoch: int, active: bool, watchBinding: Binding)
  {
    function Key(): PinKey { PinKey(linkId, generation, epoch) }
  }

  datatype Snapshot = Snapshot(forThisHost: bool, version: int, recipients: seq<Recipient>)

  function Compare(g1: int, e1: int, g2: int, e2: int): int {
    if g1 == g2 then e1 - e2 else g1 - g2
  }

  function ComparePins(p: Pin, q: Pin): int { Compare(p.generation, p.epoch, q.generation, q.epoch) }

  // ----- What a stored keyring must satisfy

  predicate ValidPin(p: Pin, hostKeys: set<string>) {
    && p.authentic && p.generation >= 1 && p.epoch >= 1
    && p.hostBinding.keyId in hostKeys
    && match p.status
       case Active => p.retiringAt.None?
       case Retiring => p.retiringAt.Some? && p.retiringAt.value >= p.activatedAt
       case Revoked => p.retiringAt.Some? ==> p.retiringAt.value >= p.activatedAt
  }

  predicate ValidPending(a: Pending, hostKeys: set<string>) {
    && ValidPin(a.pin, hostKeys) && a.pin.status.Active?
    && a.Key() == a.pin.Key() && a.peerProof == a.pin.peerProof && a.activatedAt == a.pin.activatedAt
  }

  ghost predicate DistinctKeys(pins: seq<Pin>) {
    forall i, j :: 0 <= i < j < |pins| ==> pins[i].Key() != pins[j].Key()
  }

  /** An active pin is at least as new as every pin of its Watch, and is its only active pin. */
  ghost predicate ActiveIsNewest(pins: seq<Pin>) {
    forall i, j :: 0 <= i < |pins| && 0 <= j < |pins| && i != j
                   && pins[i].watchId == pins[j].watchId && pins[i].status.Active? ==>
      !pins[j].status.Active? && ComparePins(pins[i], pins[j]) >= 0
  }

  ghost predicate ValidPins(pins: seq<Pin>, hostKeys: set<string>) {
    && (forall i :: 0 <= i < |pins| ==> ValidPin(pins[i], hostKeys))
    && DistinctKeys(pins)
    && ActiveIsNewest(pins)
  }

  /** Staged activations are valid and name different links and different Watches. */
  ghost predicate PendingApart(pending: seq<Pending>, hostKeys: set<string>) {
    && (forall i :: 0 <= i < |pending| ==> ValidPending(pending[i], hostKeys))
    && (forall i, j :: 0 <= i < j < |pending| ==>
          pending[i].pin.Key() != pending[j].pin.Key() && pending[i].pin.watchId != pending[j].pin.watchId)
  }

  /** A staged activation is not stored yet, and is newer than every stored pin of its Watch. */
  ghost predicate PendingAhead(k: Keyring) {
    forall a, i :: 0 <= a < |k.pending| && 0 <= i < |k.pins| ==> Ahead(k.pending[a].pin, k.pins[i])
  }

  predicate Ahead(pin: Pin, stored: Pin) {
    pin.Key() != stored.Key() && (pin.watchId == stored.watchId ==> ComparePins(pin, stored) > 0)
  }

  ghost predicate Valid(k: Keyring, hostKeys: set<string>) {
    ValidPins(k.pins, hostKeys) && PendingApart(k.pending, hostKeys) && PendingAhead(k)
  }

  // ----- The operations on a keyring value

  /** The pin with its status changed to revoked; the retirement boundary goes when `forget` says so. */
  function Revoke(p: Pin, forget: bool): Pin {
    p.(status := Revoked, retiringAt := if forget then None else p.retiringAt)
  }

  /** Applies `f` to every pin, as Array.map does. */
  function MapPins(pins: seq<Pin>, f: Pin -> Pin): (r: seq<Pin>)
    ensures |r| == |pins| && forall i :: 0 <= i < |pins| ==> r[i] == f(pins[i])
  {
    seq(|pins|, i requires 0 <= i < |pins| => f(pins[i]))
  }

  function KeepPins(pins: seq<Pin>, keep: Pin -> bool): (r: seq<Pin>) {
    if pins == [] then []
    else (if keep(pins[0]) then [pins[0]] else []) + KeepPins(pins[1..], keep)
  }

  function KeepPending(pending: seq<Pending>, keep: Pending -> bool): (r: seq<Pending>) {
    if pending == [] then []
    else (if keep(pending[0]) then [pending[0]] else []) + KeepPending(pending[1..], keep)
  }

  function RevokeWatch(k: Keyring, watchId: string): Keyring {
    k.(pins := MapPins(k.pins, (p: Pin) => if p.watchId == watchId then Revoke(p, true) else p))
  }

  function RevokeHostKey(k: Keyring, keyId: string): Keyring {
    k.(pins := MapPins(k.pins, (p: Pin) =>
      if !p.status.Revoked? && p.hostBinding.keyId == keyId then Revoke(p, false) else p))
  }

  function RevokeGeneration(k: Keyring, watchId: string, generation: int): Keyring {
    Keyring(
      MapPins(k.pins, (p: Pin) => if p.watchId == watchId && p.generation == generation then Revoke(p, true) else p),
      KeepPending(k.pending, (a: Pending) => a.pin.watchId != watchId || a.generation != generation))
  }

  /** The latest time any category of references asks the pin `key` to be kept through. */
  function RetainUntil(references: seq<map<PinKey, Timestamp>>, key: PinKey): Option<Timestamp> {
    if references == [] then None
    else
      var rest := RetainUntil(references[1..], key);
      if key !in references[0] then rest
      else if rest.Some? && rest.value > references[0][key] then rest
      else Some(references[0][key])
  }

  predicate Retained(p: Pin, references: seq<map<PinKey, Timestamp>>, now: Timestamp) {
    p.status.Active? || var t := RetainUntil(references, p.Key()); t.Some? && t.value >= now
  }

  function Prune(k: Keyring, references: seq<map<PinKey, Timestamp>>, now: Timestamp): Keyring {
    k.(pins := KeepPins(k.pins, (p: Pin) => Retained(p, references, now)))
  }

  /** The pins the relay no longer lists are revoked, unless they retire behind a newer listed pin. */
  function Reconciled(pins: seq<Pin>, snapshot: Snapshot): seq<Pin> {
    MapPins(pins, (p: Pin) => ReconciledPin(p, snapshot))
  }

  function ReconciledPin(p: Pin, snapshot: Snapshot): Pin {
    if p.status.Revoked? || Listed(snapshot.recipients, p.Key()) then p
    else
      var successor := ForWatch(snapshot.recipients, p.watchId);
      if p.status.Retiring? && successor.Some?
         && Compare(successor.value.generation, successor.value.epoch, p.generation, p.epoch) > 0 then p
      else Revoke(p, true)
  }

  predicate Listed(recipients: seq<Recipient>, key: PinKey) {
    exists i :: 0 <= i < |recipients| && recipients[i].Key() == key
  }

  /** The last recipient listed for the Watch, as a Map built from the list keeps it. */
  function ForWatch(recipients: seq<Recipient>, watchId: string): (r: Option<Recipient>)
    ensures r.Some? ==> r.value in recipients && r.value.watchId == watchId
  {
    if recipients == [] then None
    else if recipients[|recipients| - 1].watchId == watchId then Some(recipients[|recipients| - 1])
    else ForWatch(recipients[..|recipients| - 1], watchId)
  }

  /** persistActive rejects a pin that goes back in generation, epoch or binding sequence. */
  predicate RollsBack(stored: Pin, pin: Pin) {
    && stored.watchId == pin.watchId
    && (|| stored.generation > pin.generation
        || (stored.generation == pin.generation
            && (stored.epoch > pin.epoch || (stored.epoch == pin.epoch && stored.linkId != pin.linkId)))
        || stored.watchBinding.sequence > pin.watchBinding.sequence
        || stored.hostBinding.sequence > pin.hostBinding.sequence)
  }

  function Retire(stored: Pin, pin: Pin, now: Timestamp): Pin {
    if stored.watchId == pin.watchId && stored.status.Active? && ComparePins(pin, stored) > 0
    then stored.(status := Retiring,
                 retiringAt := Some(if now >= stored.activatedAt then now else stored.activatedAt))
    else stored
  }

  /** The first pin with the key, as Array.find gives it. */
  function Find(pins: seq<Pin>, key: PinKey): (r: Option<Pin>)
    ensures r.Some? ==> r.value in pins && r.value.Key() == key
    ensures r.None? ==> forall i :: 0 <= i < |pins| ==> pins[i].Key() != key
  {
    if pins == [] then None
    else if pins[0].Key() == key then Some(pins[0])
    else Find(pins[1..], key)
  }

  function FindPending(pending: seq<Pending>, key: PinKey): (r: Option<Pending>)
    ensures r.Some? ==> r.value in pending && r.value.Key() == key
    ensures r.None? ==> forall i :: 0 <= i < |pending| ==> pending[i].Key() != key
  {
    if pending == [] then None
    else if pending[0].Key() == key then Some(pending[0])
    else FindPending(pending[1..], key)
  }

  /** The change persistActive makes, or None when it throws before changing anything. */
  function Activate(k: Keyring, pin: Pin, now: Timestamp): Option<Keyring> {
    var others := KeepPending(k.pending, (a: Pending) => a.Key() != pin.Key());
    if exists i :: 0 <= i < |k.pins| && RollsBack(k.pins[i], pin) then None
    else
      var stored := Find(k.pins, pin.Key());
      if stored.None? then Some(Keyring(MapPins(k.pins, (p: Pin) => Retire(p, pin, now)) + [pin], others))
      else if stored.value == pin then Some(k.(pending := others))
      else None
  }

  /** The change stageActivation makes, or None when it throws before changing anything. */
  function Stage(k: Keyring, activation: Pending): Option<Keyring> {
    var existing := FindPending(k.pending, activation.Key());
    if existing.None? then Some(k.(pending := k.pending + [activation]))
    else if existing.value == activation then Some(k)
    else None
  }

  // ----- Filtering

  lemma {:induction false} KeepPinsKeeps(pins: seq<Pin>, keep: Pin -> bool)
    ensures forall p :: p in KeepPins(pins, keep) <==> p in pins && keep(p)
    ensures DistinctKeys(pins) ==> DistinctKeys(KeepPins(pins, keep))
    ensures ActiveIsNewest(pins) ==> ActiveIsNewest(KeepPins(pins, keep))
  {
    if pins != [] {
      var rest := KeepPins(pins[1..], keep);
      KeepPinsKeeps(pins[1..], keep);
      if DistinctKeys(pins) {
        forall i | 0 <= i < |rest|
          ensures rest[i].Key() != pins[0].Key()
        {
          assert rest[i] in pins[1..];
        }
      }
      if ActiveIsNewest(pins) {
        assert ActiveIsNewest(pins[1..]);
        forall i | 0 <= i < |rest| && rest[i].watchId == pins[0].watchId
          ensures rest[i].status.Active? ==> !pins[0].status.Active? && ComparePins(rest[i], pins[0]) >= 0
          ensures pins[0].status.Active? ==> !rest[i].status.Active? && ComparePins(pins[0], rest[i]) >= 0
        {
          assert rest[i] in pins[1..];
        }
      }
    }
  }

  lemma {:induction false} KeepPendingKeeps(pending: seq<Pending>, keep: Pending -> bool, hostKeys: set<string>)
    ensures forall a :: a in KeepPending(pending, keep) <==> a in pending && keep(a)
    ensures PendingApart(pending, hostKeys) ==> PendingApart(KeepPending(pending, keep), hostKeys)
  {
    if pending != [] {
      var rest := KeepPending(pending[1..], keep);
      KeepPendingKeeps(pending[1..], keep, hostKeys);
      if PendingApart(pending, hostKeys) {
        assert PendingApart(pending[1..], hostKeys);
        forall i | 0 <= i < |rest|
          ensures rest[i].pin.Key() != pending[0].pin.Key() && rest[i].pin.watchId != pending[0].pin.watchId
        {
          assert rest[i] in pending[1..];
        }
      }
    }
  }
}
