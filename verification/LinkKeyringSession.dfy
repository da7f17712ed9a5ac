/**
 The operations of a keyring object over its file: what is in memory, what the object last loaded or stored,
 and what is on disk.  An operation that throws may leave the three different.
 */
module LinkKeyringSession {
  import opened Wrappers
  import opened LinkKeyring

  datatype Session = Session(mem: Keyring, persisted: Keyring, disk: Option<Keyring>)

  function Contents(disk: Option<Keyring>): Keyring {
    if disk.Some? then disk.value else Empty
  }

  const Fresh := Session(Empty, Empty, None)

  /** `lockFree`: whether the mutation lock can be taken; taking it throws otherwise. */
  datatype Op =
    | PersistActive(pin: Pin, now: Timestamp, lockFree: bool)
    | StageActivation(activation: Pending, lockFree: bool)
    | RevokeWatchGeneration(watchId: string, generation: int, lockFree: bool)
    | ReconcileRecipients(snapshot: Snapshot, lockFree: bool)
    | PruneRetiring(references: seq<map<PinKey, Timestamp>>, clock: Timestamp)
    | RevokeWatchPins(watchId: string)
    | RevokeCompromisedKey(keyId: string)

  function Store(s: Session, k: Keyring): Session { Session(k, k, Some(k)) }

  function Reload(s: Session): Session { Session(Contents(s.disk), Contents(s.disk), s.disk) }

  /** Whether the file loads: loading validates it. */
  ghost predicate Loads(s: Session, hostKeys: set<string>) { Valid(Contents(s.disk), hostKeys) }

  ghost predicate Accepted(next: Option<Keyring>, hostKeys: set<string>) {
    next.Some? && Valid(next.value, hostKeys)
  }

  /** updatePersisted: reload, change, validate, store.  A change that fails validation stays in memory. */
  ghost function Update(s: Session, change: Keyring -> Option<Keyring>, lockFree: bool, hostKeys: set<string>)
    : (Session, bool)
  {
    var next := change(Contents(s.disk));
    UpdateTo(s, next, lockFree && Loads(s, hostKeys), Accepted(next, hostKeys))
  }

  function UpdateTo(s: Session, next: Option<Keyring>, ready: bool, accepted: bool): (Session, bool) {
    if !ready then (s, false)
    else if next.None? then (Reload(s), false)
    else if !accepted then (Reload(s).(mem := next.value), false)
    else if next.value == Contents(s.disk) then (Reload(s), true)
    else (Store(s, next.value), true)
  }

  /** The first pin that is not revoked and has the key. */
  function Usable(pins: seq<Pin>, key: PinKey): (r: Option<Pin>)
    ensures r.Some? ==> r.value in pins && r.value.Key() == key && !r.value.status.Revoked?
  {
    if pins == [] then None
    else if !pins[0].status.Revoked? && pins[0].Key() == key then Some(pins[0])
    else Usable(pins[1..], key)
  }

  predicate HasMaterial(pins: seq<Pin>, r: Recipient, hostKeys: set<string>) {
    var pin := Usable(pins, r.Key());
    && pin.Some? && pin.value.status.Active? && r.active && pin.value.hostBinding.keyId in hostKeys
    && pin.value.watchId == r.watchId && pin.value.watchBinding == r.watchBinding
  }

  predicate AllMaterial(pins: seq<Pin>, snapshot: Snapshot, hostKeys: set<string>) {
    forall i :: 0 <= i < |snapshot.recipients| ==> HasMaterial(pins, snapshot.recipients[i], hostKeys)
  }

  function Keys(pins: seq<Pin>): set<PinKey> { set p | p in pins :: p.Key() }

  /** An active pin the snapshot does not list and that was not known when it was requested. */
  predicate Predates(pins: seq<Pin>, snapshot: Snapshot, known: set<PinKey>) {
    exists i :: 0 <= i < |pins| && pins[i].status.Active?
                && !Listed(snapshot.recipients, pins[i].Key()) && pins[i].Key() !in known
  }

  function Reconcile(s: Session, snapshot: Snapshot, lockFree: bool, loads: bool, hostKeys: set<string>)
    : (Session, bool)
  {
    var known := Keys(s.mem.pins);
    if !snapshot.forThisHost || snapshot.version < 1 then (s, false)
    else if AllMaterial(s.mem.pins, snapshot, hostKeys) then
      ReconcileFrom(s, snapshot, known, false, lockFree && loads, hostKeys)
    else if !loads then (s, false)
    else if !AllMaterial(Contents(s.disk).pins, snapshot, hostKeys) then (Reload(s), false)
    else ReconcileFrom(Reload(s), snapshot, known, true, lockFree, hostKeys)
  }

  /** The part after the recipients' material is found, from memory (`refreshed` after a reload). */
  function ReconcileFrom(
    s: Session, snapshot: Snapshot, known: set<PinKey>, refreshed: bool, ready: bool, hostKeys: set<string>)
    : (Session, bool)
  {
    var latest := Contents(s.disk);
    if refreshed && Predates(s.mem.pins, snapshot, known) then (s, false)
    else if Reconciled(s.mem.pins, snapshot) == s.mem.pins then (s, true)
    else if !ready then (s, false)
    else if latest == s.persisted then
      (Store(s, s.mem.(pins := Reconciled(s.mem.pins, snapshot))), true)
    else if !AllMaterial(latest.pins, snapshot, hostKeys) || Predates(latest.pins, snapshot, known)
    then (Reload(s), false)
    else (Store(s, latest.(pins := Reconciled(latest.pins, snapshot))), true)
  }

  ghost function Apply(s: Session, op: Op, hostKeys: set<string>): (Session, bool) {
    match op
    case PersistActive(pin, now, lockFree) =>
      if !ValidPin(pin, hostKeys) || !pin.status.Active? then (s, false)
      else Update(s, (k: Keyring) => Activate(k, pin, now), lockFree, hostKeys)
    case StageActivation(a, lockFree) =>
      if !ValidPending(a, hostKeys) then (s, false)
      else Update(s, (k: Keyring) => Stage(k, a), lockFree, hostKeys)
    case RevokeWatchGeneration(w, g, lockFree) =>
      if w == "" || g < 1 then (s, false)
      else Update(s, (k: Keyring) => Some(RevokeGeneration(k, w, g)), lockFree, hostKeys)
    case ReconcileRecipients(snapshot, lockFree) => Reconcile(s, snapshot, lockFree, Loads(s, hostKeys), hostKeys)
    case PruneRetiring(references, clock) =>
      var next := Prune(s.mem, references, clock);
      if next == s.mem then (s, true) else (Store(s, next), true)
    case RevokeWatchPins(w) =>
      var next := RevokeWatch(s.mem, w);
      if next == s.mem then (s, true) else (Store(s, next), true)
    case RevokeCompromisedKey(keyId) =>
      var next := RevokeHostKey(s.mem, keyId);
      if next == s.mem then (s, true) else (Store(s, next), true)
  }

  /** The operations that store memory without validating it. */
  predicate Unvalidated(op: Op) {
    op.ReconcileRecipients? || op.PruneRetiring? || op.RevokeWatchPins? || op.RevokeCompromisedKey?
  }
}
