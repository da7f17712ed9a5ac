/**
 Command authority: the relay's recipient snapshot, the keyring reconciled with it, and the accepted
 recipient-set version.
 */
module CommandAuthority {
  import opened Wrappers
  import opened LinkKeyring
  import opened LinkKeyringValidity
  import opened LinkKeyringSession
  import opened LinkKeyringRuns

  /** After a successful reconcile the active pins are those listed, and a retiring pin has an active successor. */
  ghost predicate Agrees(pins: seq<Pin>, snapshot: Snapshot) {
    && (forall p :: p in pins && p.status.Active? ==> Listed(snapshot.recipients, p.Key()))
    && (forall r :: r in snapshot.recipients ==> HasActive(pins, r.Key()))
    && (forall p :: p in pins && p.status.Retiring? ==> HasActiveSuccessor(pins, p))
  }

  ghost predicate HasActive(pins: seq<Pin>, key: PinKey) {
    exists p :: p in pins && p.status.Active? && p.Key() == key
  }

  ghost predicate HasActiveSuccessor(pins: seq<Pin>, p: Pin) {
    exists q :: q in pins && q.status.Active? && q.watchId == p.watchId && ComparePins(q, p) > 0
  }

  /** Every listed recipient's pin stays as it is. */
  lemma MaterialSurvives(pins: seq<Pin>, snapshot: Snapshot, hostKeys: set<string>, r: Recipient)
    requires AllMaterial(pins, snapshot, hostKeys) && r in snapshot.recipients
    ensures
      var p := Usable(pins, r.Key());
      && p.Some? && p.value in Reconciled(pins, snapshot)
      && p.value.status.Active? && p.value.Key() == r.Key() && p.value.watchId == r.watchId
      && p.value.watchBinding == r.watchBinding
  {
    var i :| 0 <= i < |snapshot.recipients| && snapshot.recipients[i] == r;
    assert HasMaterial(pins, snapshot.recipients[i], hostKeys);
    var p := Usable(pins, r.Key()).value;
    var j :| 0 <= j < |pins| && pins[j] == p;
    assert Listed(snapshot.recipients, p.Key());
    assert Reconciled(pins, snapshot)[j] == p;
  }

  lemma SamePin(pins: seq<Pin>, snapshot: Snapshot, hostKeys: set<string>, p: Pin, r: Recipient)
    requires DistinctKeys(pins) && AllMaterial(pins, snapshot, hostKeys)
    requires p in Reconciled(pins, snapshot) && r in snapshot.recipients && r.Key() == p.Key()
    ensures p == Usable(pins, r.Key()).value
  {
    MaterialSurvives(pins, snapshot, hostKeys, r);
    var q := Usable(pins, r.Key()).value;
    var after := Reconciled(pins, snapshot);
    var i :| 0 <= i < |after| && after[i] == p;
    var j :| 0 <= j < |after| && after[j] == q;
    ReconciledMovesOn(pins, snapshot);
    assert MovedOn(pins[i], after[i]) && MovedOn(pins[j], after[j]);
    assert pins[i].Key() == pins[j].Key();
  }

  lemma ListedIsActive(pins: seq<Pin>, snapshot: Snapshot, hostKeys: set<string>, p: Pin)
    requires DistinctKeys(pins) && AllMaterial(pins, snapshot, hostKeys)
    requires p in Reconciled(pins, snapshot) && Listed(snapshot.recipients, p.Key())
    ensures p.status.Active?
  {
    var m :| 0 <= m < |snapshot.recipients| && snapshot.recipients[m].Key() == p.Key();
    MaterialSurvives(pins, snapshot, hostKeys, snapshot.recipients[m]);
    SamePin(pins, snapshot, hostKeys, p, snapshot.recipients[m]);
  }

  lemma ReconciledAgrees(pins: seq<Pin>, snapshot: Snapshot, hostKeys: set<string>)
    requires DistinctKeys(pins) && AllMaterial(pins, snapshot, hostKeys)
    ensures Agrees(Reconciled(pins, snapshot), snapshot)
  {
    var after := Reconciled(pins, snapshot);
    forall r | r in snapshot.recipients
      ensures HasActive(after, r.Key())
    {
      MaterialSurvives(pins, snapshot, hostKeys, r);
    }
    forall p | p in after && !p.status.Revoked?
      ensures p.status.Active? ==> Listed(snapshot.recipients, p.Key())
      ensures p.status.Retiring? ==> HasActiveSuccessor(after, p)
    {
      var i :| 0 <= i < |after| && after[i] == p;
      assert after[i] == ReconciledPin(pins[i], snapshot);
      if Listed(snapshot.recipients, p.Key()) { ListedIsActive(pins, snapshot, hostKeys, p); }
      if p.status.Retiring? {
        var r := ForWatch(snapshot.recipients, p.watchId).value;
        MaterialSurvives(pins, snapshot, hostKeys, r);
        var q := Usable(pins, r.Key()).value;
        assert q in after && ComparePins(q, p) > 0;
      }
    }
  }

  /**
   reconcileRecipients that does not throw, in any run of keyring objects on one file: the active pin keys are exactly
   the snapshot's recipient keys, and every pin still retiring has a strictly newer active successor of its Watch.
   */
  lemma ReconcileOutcome(events: seq<Event>, id: nat, snapshot: Snapshot, lockFree: bool, hostKeys: set<string>)
    requires id in Run(events, hostKeys).objects
    requires Apply(View(Run(events, hostKeys), id), ReconcileRecipients(snapshot, lockFree), hostKeys).1
    ensures
      var s' := Apply(View(Run(events, hostKeys), id), ReconcileRecipients(snapshot, lockFree), hostKeys).0;
      Agrees(s'.mem.pins, snapshot)
  {
    var s := View(Run(events, hostKeys), id);
    RunIsChained(events, hostKeys);
    ReconcileAgrees(s, snapshot, lockFree, Loads(s, hostKeys), hostKeys);
  }

  lemma ReconcileAgrees(s: Session, snapshot: Snapshot, lockFree: bool, loads: bool, hostKeys: set<string>)
    requires DistinctKeys(s.mem.pins) && DistinctKeys(Contents(s.disk).pins)
    requires Reconcile(s, snapshot, lockFree, loads, hostKeys).1
    ensures Agrees(Reconcile(s, snapshot, lockFree, loads, hostKeys).0.mem.pins, snapshot)
  {
    var latest := Contents(s.disk).pins;
    if AllMaterial(s.mem.pins, snapshot, hostKeys) { ReconciledAgrees(s.mem.pins, snapshot, hostKeys); }
    if AllMaterial(latest, snapshot, hostKeys) { ReconciledAgrees(latest, snapshot, hostKeys); }
  }

  // ----- refreshCommandAuthority

  datatype Descriptor = Descriptor(key: PinKey, watchId: string, watchKeyId: string)

  function ActiveDescriptors(pins: seq<Pin>): (r: seq<Descriptor>)
    ensures forall d :: d in r <==> exists p :: p in pins && p.status.Active? && Describe(p) == d
  {
    if pins == [] then []
    else (if pins[0].status.Active? then [Describe(pins[0])] else []) + ActiveDescriptors(pins[1..])
  }

  function Describe(p: Pin): Descriptor { Descriptor(p.Key(), p.watchId, p.watchBinding.keyId) }

  function DescribeRecipient(r: Recipient): Descriptor { Descriptor(r.Key(), r.watchId, r.watchBinding.keyId) }

  function RecipientDescriptors(snapshot: Snapshot): (r: seq<Descriptor>)
    ensures |r| == |snapshot.recipients|
    ensures forall i :: 0 <= i < |r| ==> r[i] == DescribeRecipient(snapshot.recipients[i])
  {
    seq(|snapshot.recipients|, i requires 0 <= i < |snapshot.recipients| => DescribeRecipient(snapshot.recipients[i]))
  }

  /** The set of recipients a snapshot names. */
  ghost function Named(snapshot: Snapshot): set<Descriptor> {
    set d | d in RecipientDescriptors(snapshot)
  }

  ghost function ActiveSet(pins: seq<Pin>): set<Descriptor> {
    set d | d in ActiveDescriptors(pins)
  }

  datatype Authority = Authority(keyring: Session, version: Option<int>)

  /** Comparing sorted lists is comparing multisets. */
  ghost predicate Refused(a: Authority, snapshot: Snapshot) {
    && a.version.Some?
    && (|| snapshot.version < a.version.value
        || (snapshot.version == a.version.value
            && multiset(ActiveDescriptors(a.keyring.mem.pins)) != multiset(RecipientDescriptors(snapshot))))
  }

  ghost function Refresh(a: Authority, snapshot: Snapshot, lockFree: bool, hostKeys: set<string>): (Authority, bool) {
    if Refused(a, snapshot) then (a, false)
    else Adopt(a, snapshot, Reconcile(a.keyring, snapshot, lockFree, Loads(a.keyring, hostKeys), hostKeys))
  }

  /** The version is written only after a reconcile that did not throw. */
  function Adopt(a: Authority, snapshot: Snapshot, r: (Session, bool)): (Authority, bool) {
    if r.1 then (Authority(r.0, Some(snapshot.version)), true) else (a.(keyring := r.0), false)
  }

  /**
   A refresh returns exactly if the snapshot does not go back behind the accepted version, names the active recipients
   where it repeats it, and is reconciled.  Only then is its version accepted; a refused snapshot is not looked at.
   */
  lemma RefreshReturnsIff(a: Authority, snapshot: Snapshot, lockFree: bool, hostKeys: set<string>)
    ensures
      var returned := Apply(a.keyring, ReconcileRecipients(snapshot, lockFree), hostKeys);
      var fits := a.version.Some? ==>
                    snapshot.version > a.version.value
                    || (snapshot.version == a.version.value
                        && multiset(ActiveDescriptors(a.keyring.mem.pins)) == multiset(RecipientDescriptors(snapshot)));
      Refresh(a, snapshot, lockFree, hostKeys)
      == if !fits then (a, false)
         else (Authority(returned.0, if returned.1 then Some(snapshot.version) else a.version), returned.1)
  {
  }

  /** The object and its file agree: nothing else wrote the file, and no rejected change is in memory. */
  ghost predicate Settled(s: Session) {
    s.mem == s.persisted && s.mem == Contents(s.disk) && DistinctKeys(s.mem.pins)
  }

  lemma ReconcileNames(s: Session, snapshot: Snapshot, lockFree: bool, loads: bool, hostKeys: set<string>)
    requires DistinctKeys(s.mem.pins) && DistinctKeys(Contents(s.disk).pins)
    requires Reconcile(s, snapshot, lockFree, loads, hostKeys).1
    ensures ActiveSet(Reconcile(s, snapshot, lockFree, loads, hostKeys).0.mem.pins) == Named(snapshot)
  {
    var latest := Contents(s.disk).pins;
    if AllMaterial(s.mem.pins, snapshot, hostKeys) { DescriptorsAgree(s.mem.pins, snapshot, hostKeys); }
    if AllMaterial(latest, snapshot, hostKeys) { DescriptorsAgree(latest, snapshot, hostKeys); }
  }

  lemma SettledReconcile(s: Session, snapshot: Snapshot, lockFree: bool, loads: bool, hostKeys: set<string>)
    requires Settled(s)
    ensures
      var r := Reconcile(s, snapshot, lockFree, loads, hostKeys);
      && Settled(r.0)
      && (!r.1 ==> r.0 == s)
      && (r.1 ==> ActiveSet(r.0.mem.pins) == Named(snapshot))
  {
    var r := Reconcile(s, snapshot, lockFree, loads, hostKeys);
    assert Reload(s) == s;
    var after := Reconciled(s.mem.pins, snapshot);
    ReconciledMovesOn(s.mem.pins, snapshot);
    assert DistinctKeys(after) by {
      assert forall i :: 0 <= i < |after| ==> MovedOn(s.mem.pins[i], after[i]);
    }
    if r.1 {
      ReconcileAgrees(s, snapshot, lockFree, loads, hostKeys);
      assert r.0.mem.pins == after && AllMaterial(s.mem.pins, snapshot, hostKeys);
      DescriptorsAgree(s.mem.pins, snapshot, hostKeys);
    }
  }

  lemma DescriptorsAgree(pins: seq<Pin>, snapshot: Snapshot, hostKeys: set<string>)
    requires DistinctKeys(pins) && AllMaterial(pins, snapshot, hostKeys)
    ensures ActiveSet(Reconciled(pins, snapshot)) == Named(snapshot)
  {
    var after := Reconciled(pins, snapshot);
    ReconciledAgrees(pins, snapshot, hostKeys);
    forall d | d in ActiveSet(after)
      ensures d in Named(snapshot)
    {
      var p :| p in after && p.status.Active? && Describe(p) == d;
      var m :| 0 <= m < |snapshot.recipients| && snapshot.recipients[m].Key() == p.Key();
      SamePin(pins, snapshot, hostKeys, p, snapshot.recipients[m]);
      assert RecipientDescriptors(snapshot)[m] == d;
    }
    forall d | d in Named(snapshot)
      ensures d in ActiveSet(after)
    {
      var m :| 0 <= m < |snapshot.recipients| && RecipientDescriptors(snapshot)[m] == d;
      MaterialSurvives(pins, snapshot, hostKeys, snapshot.recipients[m]);
      assert Describe(Usable(pins, snapshot.recipients[m].Key()).value) == d;
    }
  }

  ghost function RefreshAll(a: Authority, snapshots: seq<(Snapshot, bool)>, hostKeys: set<string>): Authority {
    if snapshots == [] then a
    else
      var last := snapshots[|snapshots| - 1];
      Refresh(RefreshAll(a, snapshots[..|snapshots| - 1], hostKeys), last.0, last.1, hostKeys).0
  }

  /** What one refresh keeps: the version never falls, and while it stays the active recipients stay. */
  ghost predicate Kept(a: Authority, snapshot: Snapshot, r: (Authority, bool)) {
    && Settled(r.0.keyring)
    && (a.version.Some? ==> r.0.version.Some? && r.0.version.value >= a.version.value)
    && (a.version.Some? && r.0.version == a.version ==>
        ActiveSet(r.0.keyring.mem.pins) == ActiveSet(a.keyring.mem.pins))
    && (r.1 ==> r.0.version == Some(snapshot.version) && ActiveSet(r.0.keyring.mem.pins) == Named(snapshot))
  }

  lemma SameMultisetSameSet(a: seq<Descriptor>, b: seq<Descriptor>)
    requires multiset(a) == multiset(b)
    ensures (set d | d in a) == (set d | d in b)
  {
    assert forall d :: d in a <==> d in multiset(a);
    assert forall d :: d in b <==> d in multiset(b);
  }

  lemma AdoptKeeps(a: Authority, snapshot: Snapshot, r: (Session, bool))
    requires Settled(a.keyring) && !Refused(a, snapshot)
    requires Settled(r.0) && (if r.1 then ActiveSet(r.0.mem.pins) == Named(snapshot) else r.0 == a.keyring)
    ensures Kept(a, snapshot, Adopt(a, snapshot, r))
  {
    if a.version == Some(snapshot.version) {
      SameMultisetSameSet(ActiveDescriptors(a.keyring.mem.pins), RecipientDescriptors(snapshot));
    }
  }

  lemma RefreshKeeps(a: Authority, snapshot: Snapshot, lockFree: bool, hostKeys: set<string>)
    requires Settled(a.keyring)
    ensures Kept(a, snapshot, Refresh(a, snapshot, lockFree, hostKeys))
  {
    SettledReconcile(a.keyring, snapshot, lockFree, Loads(a.keyring, hostKeys), hostKeys);
    if !Refused(a, snapshot) {
      AdoptKeeps(a, snapshot, Reconcile(a.keyring, snapshot, lockFree, Loads(a.keyring, hostKeys), hostKeys));
    }
  }

  lemma {:induction false} RefreshAllSettled(a: Authority, snapshots: seq<(Snapshot, bool)>, hostKeys: set<string>)
    requires Settled(a.keyring)
    ensures Settled(RefreshAll(a, snapshots, hostKeys).keyring)
  {
    if snapshots != [] {
      var before := snapshots[..|snapshots| - 1];
      RefreshAllSettled(a, before, hostKeys);
      RefreshKeeps(RefreshAll(a, before, hostKeys), snapshots[|snapshots| - 1].0, snapshots[|snapshots| - 1].1,
                   hostKeys);
    }
  }

  /** The version has not fallen, and the active set is the same while it has not risen. */
  ghost predicate Follows(x: Authority, y: Authority) {
    x.version.Some? ==>
      && y.version.Some? && x.version.value <= y.version.value
      && (x.version == y.version ==> ActiveSet(x.keyring.mem.pins) == ActiveSet(y.keyring.mem.pins))
  }

  lemma RefreshFollows(a: Authority, snapshots: seq<(Snapshot, bool)>, j: nat, hostKeys: set<string>)
    requires Settled(a.keyring) && j < |snapshots|
    ensures Follows(RefreshAll(a, snapshots[..j], hostKeys), RefreshAll(a, snapshots[..j + 1], hostKeys))
  {
    assert snapshots[..j + 1][..j] == snapshots[..j];
    RefreshAllSettled(a, snapshots[..j], hostKeys);
    RefreshKeeps(RefreshAll(a, snapshots[..j], hostKeys), snapshots[j].0, snapshots[j].1, hostKeys);
  }

  /** From refresh `i` on, the version only rises, and as long as it has not risen the active set is the same. */
  lemma {:induction false} VersionFixesSet(a: Authority, snapshots: seq<(Snapshot, bool)>, i: nat, j: nat,
                                           hostKeys: set<string>)
    requires Settled(a.keyring) && i <= j <= |snapshots|
    requires RefreshAll(a, snapshots[..i], hostKeys).version.Some?
    ensures
      var x, y := RefreshAll(a, snapshots[..i], hostKeys), RefreshAll(a, snapshots[..j], hostKeys);
      && y.version.Some? && x.version.value <= y.version.value
      && (x.version == y.version ==> ActiveSet(x.keyring.mem.pins) == ActiveSet(y.keyring.mem.pins))
    decreases j
  {
    if i < j {
      VersionFixesSet(a, snapshots, i, j - 1, hostKeys);
      RefreshFollows(a, snapshots, j - 1, hostKeys);
    }
  }

  ghost predicate AcceptedAt(a: Authority, snapshots: seq<(Snapshot, bool)>, i: nat, hostKeys: set<string>)
    requires i < |snapshots|
  {
    Refresh(RefreshAll(a, snapshots[..i], hostKeys), snapshots[i].0, snapshots[i].1, hostKeys).1
  }

  /**
   In any run of refreshes, accepted or refused, the accepted version never falls, and one version never
   names two recipient sets.
   */
  lemma OneVersionOneRecipientSet(a: Authority, snapshots: seq<(Snapshot, bool)>, i: nat, j: nat, hostKeys: set<string>)
    requires Settled(a.keyring) && i < j < |snapshots|
    requires AcceptedAt(a, snapshots, i, hostKeys) && AcceptedAt(a, snapshots, j, hostKeys)
    ensures snapshots[i].0.version <= snapshots[j].0.version
    ensures snapshots[i].0.version == snapshots[j].0.version ==> Named(snapshots[i].0) == Named(snapshots[j].0)
  {
    AcceptedIs(a, snapshots, i, hostKeys);
    AcceptedIs(a, snapshots, j, hostKeys);
    FixedSet(a, snapshots, i, j, hostKeys);
  }

  /** The authority after refresh `i` is as its snapshot says. */
  ghost predicate Adopted(a: Authority, snapshots: seq<(Snapshot, bool)>, i: nat, hostKeys: set<string>)
    requires i < |snapshots|
  {
    var b := RefreshAll(a, snapshots[..i + 1], hostKeys);
    b.version == Some(snapshots[i].0.version) && ActiveSet(b.keyring.mem.pins) == Named(snapshots[i].0)
  }

  lemma FixedSet(a: Authority, snapshots: seq<(Snapshot, bool)>, i: nat, j: nat, hostKeys: set<string>)
    requires Settled(a.keyring) && i < j < |snapshots| && Adopted(a, snapshots, i, hostKeys)
        && Adopted(a, snapshots, j, hostKeys)
    ensures snapshots[i].0.version <= snapshots[j].0.version
    ensures snapshots[i].0.version == snapshots[j].0.version ==> Named(snapshots[i].0) == Named(snapshots[j].0)
  {
    VersionFixesSet(a, snapshots, i + 1, j + 1, hostKeys);
  }

  lemma AcceptedIs(a: Authority, snapshots: seq<(Snapshot, bool)>, i: nat, hostKeys: set<string>)
    requires Settled(a.keyring) && i < |snapshots| && AcceptedAt(a, snapshots, i, hostKeys)
    ensures Adopted(a, snapshots, i, hostKeys)
  {
    assert snapshots[..i + 1][..i] == snapshots[..i];
    RefreshAllSettled(a, snapshots[..i], hostKeys);
    RefreshKeeps(RefreshAll(a, snapshots[..i], hostKeys), snapshots[i].0, snapshots[i].1, hostKeys);
  }

  // ----- Other keyring operations between two refreshes

  datatype Action =
    | Refreshes(snapshot: Snapshot, lockFree: bool)
    | Operates(op: Op)

  ghost function Act(a: Authority, action: Action, hostKeys: set<string>): Authority {
    match action
    case Refreshes(snapshot, lockFree) => Refresh(a, snapshot, lockFree, hostKeys).0
    case Operates(op) => a.(keyring := Apply(a.keyring, op, hostKeys).0)
  }

  ghost function ActAll(a: Authority, actions: seq<Action>, hostKeys: set<string>): Authority {
    if actions == [] then a else Act(ActAll(a, actions[..|actions| - 1], hostKeys), actions[|actions| - 1], hostKeys)
  }

  lemma {:induction false} ActionsKeep(a: Authority, actions: seq<Action>, hostKeys: set<string>)
    requires SessionChained(a.keyring)
    ensures var b := ActAll(a, actions, hostKeys);
            SessionChained(b.keyring) && (a.version.Some? ==> b.version.Some? && b.version.value >= a.version.value)
  {
    if actions != [] {
      var before, action := ActAll(a, actions[..|actions| - 1], hostKeys), actions[|actions| - 1];
      ActionsKeep(a, actions[..|actions| - 1], hostKeys);
      match action
      case Operates(op) => ApplyCarries(before.keyring, op, hostKeys);
      case Refreshes(snapshot, lockFree) =>
        ApplyCarries(before.keyring, ReconcileRecipients(snapshot, lockFree), hostKeys);
    }
  }

  /** An accepted refresh makes the active set the named one; at the accepted version it names the active set. */
  lemma AcceptedNames(a: Authority, snapshot: Snapshot, lockFree: bool, hostKeys: set<string>)
    requires SessionChained(a.keyring) && Refresh(a, snapshot, lockFree, hostKeys).1
    ensures var b := Refresh(a, snapshot, lockFree, hostKeys).0;
            SessionChained(b.keyring) && b.version == Some(snapshot.version)
                && ActiveSet(b.keyring.mem.pins) == Named(snapshot)
    ensures a.version == Some(snapshot.version) ==> Named(snapshot) == ActiveSet(a.keyring.mem.pins)
    ensures a.version.Some? ==> snapshot.version >= a.version.value
  {
    ApplyCarries(a.keyring, ReconcileRecipients(snapshot, lockFree), hostKeys);
    ReconcileNames(a.keyring, snapshot, lockFree, Loads(a.keyring, hostKeys), hostKeys);
    if a.version == Some(snapshot.version) {
      SameMultisetSameSet(ActiveDescriptors(a.keyring.mem.pins), RecipientDescriptors(snapshot));
    }
  }

  /**
   The condition is exact when other operations, and other refreshes, run between two accepted refreshes of one
   version: they name the same recipients if and only if what ran between left the active recipients as they were.
   */
  lemma SameVersionNamesActiveSet(a: Authority, first: Snapshot, lockFree1: bool, between: seq<Action>,
                                  second: Snapshot, lockFree2: bool, hostKeys: set<string>)
    requires SessionChained(a.keyring) && first.version == second.version
    requires Refresh(a, first, lockFree1, hostKeys).1
    requires Refresh(ActAll(Refresh(a, first, lockFree1, hostKeys).0, between, hostKeys), second, lockFree2, hostKeys).1
    ensures
      var accepted := Refresh(a, first, lockFree1, hostKeys).0;
      Named(first) == Named(second)
      <==> ActiveSet(ActAll(accepted, between, hostKeys).keyring.mem.pins) == ActiveSet(accepted.keyring.mem.pins)
  {
    var accepted := Refresh(a, first, lockFree1, hostKeys).0;
    AcceptedNames(a, first, lockFree1, hostKeys);
    ActionsKeep(accepted, between, hostKeys);
    AcceptedNames(ActAll(accepted, between, hostKeys), second, lockFree2, hostKeys);
  }

  lemma ActOne(a: Authority, action: Action, hostKeys: set<string>)
    ensures ActAll(a, [action], hostKeys) == Act(a, action, hostKeys)
  {
    assert [action][..0] == [];
  }

  function SampleRecipient(): Recipient {
    Recipient("link", "watch", 1, 1, true, SampleBinding)
  }

  /**
   A run in which it was not: one version is accepted for a Watch and, when that Watch has been revoked in the
   meantime, for nobody.
   */
  lemma RevokedVersionNamesTwoSets(version: int)
    requires version >= 1
    ensures
      var hostKeys := {"host-key"};
      var first, second := Snapshot(true, version, [SampleRecipient()]), Snapshot(true, version, []);
      var start := Authority(Apply(Fresh, PersistActive(SamplePin(1), 0, true), hostKeys).0, None);
      var accepted := Refresh(start, first, true, hostKeys);
      var between := ActAll(accepted.0, [Operates(RevokeWatchPins("watch"))], hostKeys);
      && accepted.1 && Refresh(between, second, true, hostKeys).1
      && Named(first) == {DescribeRecipient(SampleRecipient())} && Named(second) == {}
  {
    var hostKeys := {"host-key"};
    var first, second := Snapshot(true, version, [SampleRecipient()]), Snapshot(true, version, []);
    var k, revoked := Keyring([SamplePin(1)], []), Keyring([Revoke(SamplePin(1), true)], []);
    SampleIsStored(1);
    FirstIsAccepted(version, k);
    var accepted := Authority(Store(Fresh, k), Some(version));
    SampleIsRevoked(accepted);
    SecondIsAccepted(version, Authority(Store(accepted.keyring, revoked), Some(version)));
    assert RecipientDescriptors(second) == [] && RecipientDescriptors(first) == [DescribeRecipient(SampleRecipient())];
  }

  lemma SampleIsRevoked(a: Authority)
    requires a.keyring == Store(Fresh, Keyring([SamplePin(1)], []))
    ensures ActAll(a, [Operates(RevokeWatchPins("watch"))], {"host-key"})
            == a.(keyring := Store(a.keyring, Keyring([Revoke(SamplePin(1), true)], [])))
  {
    ActOne(a, Operates(RevokeWatchPins("watch")), {"host-key"});
    var k, revoked := a.keyring.mem, Keyring([Revoke(SamplePin(1), true)], []);
    assert RevokeWatch(k, "watch").pins == revoked.pins && revoked.pins[0] != k.pins[0];
  }

  lemma FirstIsAccepted(version: int, k: Keyring)
    requires version >= 1 && k == Keyring([SamplePin(1)], [])
    ensures var s := Store(Fresh, k);
            Refresh(Authority(s, None), Snapshot(true, version, [SampleRecipient()]), true, {"host-key"})
            == (Authority(s, Some(version)), true)
  {
    var first := Snapshot(true, version, [SampleRecipient()]);
    assert HasMaterial(k.pins, SampleRecipient(), {"host-key"});
    assert first.recipients[0].Key() == SamplePin(1).Key();
    assert Reconciled(k.pins, first) == k.pins;
  }

  lemma SecondIsAccepted(version: int, a: Authority)
    requires version >= 1 && a.version == Some(version) && a.keyring.mem == Keyring([Revoke(SamplePin(1), true)], [])
    ensures Refresh(a, Snapshot(true, version, []), true, {"host-key"}).1
  {
    var second, pins := Snapshot(true, version, []), a.keyring.mem.pins;
    assert ActiveDescriptors(pins) == [] by { assert pins[1..] == [] && ActiveDescriptors([]) == []; }
    assert RecipientDescriptors(second) == [];
    assert Reconciled(pins, second) == pins;
  }
}
