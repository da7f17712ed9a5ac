/** What holds of the encrypted spool and its file over every run of operations, and of a quarantine. */
module LocalSpoolRuns {
  import opened Wrappers
  import opened Unicode
  import opened LocalSpool

  function Run(st: Spool, hostId: string, ops: seq<Operation>): Spool {
    if ops == [] then st else Next(Run(st, hostId, ops[..|ops| - 1]), hostId, ops[|ops| - 1])
  }

  // ----- Every operation keeps ids unique and the file under the spool's key

  /** What an operation writes has unique ids, and is what it does to the map. */
  lemma WrittenIs(st: Spool, hostId: string, op: Operation)
    requires UniqueIds(st.items) && Written(st, hostId, op).Some?
    ensures var next, open := Written(st, hostId, op).value, OpenerOf(Aad, KeyFor(st, op.outside).value);
            UniqueIds(next) && Contents(next, open) == Changed(Contents(st.items, open), st.items, op)
  {
    var key := KeyFor(st, op.outside).value;
    match op
    case Enqueue(input, o) => AddedOne(st.items, input, key, hostId, o.first);
    case Replace(remove, additions, o) => Replaced(st.items, remove, additions, key, hostId, o.first);
    case RecoverUnreadable(_) => ReadableIs(st.items, OpenerOf(Aad, key));
  }

  /** The map after an operation that takes effect. */
  function Changed(held: map<string, Payload>, items: seq<Item>, op: Operation): map<string, Payload> {
    match op
    case Enqueue(input, _) => if HasId(items, input.id) then held else held[input.id := input.payload]
    case Replace(remove, additions, _) => (held - remove) + Payloads(additions)
    case _ => held
  }

  lemma AddedOne(items: seq<Item>, input: Input, key: Key, hostId: string, first: nat)
    requires UniqueIds(items) && !HasId(items, input.id)
    ensures var next, open := items + [SealerOf(Aad, key, hostId, first)(input, 0)], OpenerOf(Aad, key);
            UniqueIds(next) && Contents(next, open) == Contents(items, open)[input.id := input.payload]
  {
    SealerFits(Aad, key, hostId, first);
    var sealed := SealerOf(Aad, key, hostId, first)(input, 0);
    AppendUnique(items, sealed);
    ContentsAppend(items, sealed, OpenerOf(Aad, key));
  }

  lemma Replaced(items: seq<Item>, remove: set<string>, additions: seq<Input>, key: Key, hostId: string, first: nat)
    requires UniqueIds(items)
    ensures var kept, open := Kept(items, remove), OpenerOf(Aad, key);
            var next := Added(kept, additions, SealerOf(Aad, key, hostId, first));
            && (next.Some? <==> FreeIds(kept, additions))
            && (next.Some? ==> UniqueIds(next.value)
                               && Contents(next.value, open) == (Contents(items, open) - remove) + Payloads(additions))
  {
    var seal, open := SealerOf(Aad, key, hostId, first), OpenerOf(Aad, key);
    SealerFits(Aad, key, hostId, first);
    KeptIds(items, remove);
    KeptIs(items, remove, open);
    AddedIff(Kept(items, remove), additions, seal, open);
    if Added(Kept(items, remove), additions, seal).Some? { AddedIs(Kept(items, remove), additions, seal, open); }
  }

  lemma StoredKeeps(st: Spool, next: seq<Item>, o: Outside, marks: bool)
    requires SpoolOk(st) && UniqueIds(next) && KeyFor(st, o).Some?
    ensures SpoolOk(Stored(st, next, o, marks))
  {
  }

  lemma NextKeeps(st: Spool, hostId: string, op: Operation)
    requires SpoolOk(st)
    ensures SpoolOk(Next(st, hostId, op))
  {
    var next := Written(st, hostId, op);
    if next.Some? {
      WrittenIs(st, hostId, op);
      StoredKeeps(st, next.value, op.outside, !op.RecoverUnreadable?);
    }
  }

  lemma {:induction false} RunKeeps(st: Spool, hostId: string, ops: seq<Operation>)
    requires SpoolOk(st)
    ensures SpoolOk(Run(st, hostId, ops))
  {
    if ops != [] {
      RunKeeps(st, hostId, ops[..|ops| - 1]);
      NextKeeps(Run(st, hostId, ops[..|ops| - 1]), hostId, ops[|ops| - 1]);
    }
  }

  // ----- The map that the spool is

  lemma HeldWithKey(st: Spool, o: Outside)
    requires SpoolOk(st)
    ensures Held(WithKey(st, o)) == Held(st)
    ensures KeyFor(st, o).Some? ==> Held(st) == Contents(st.items, OpenerOf(Aad, KeyFor(st, o).value))
  {
  }

  lemma StoredIs(st: Spool, next: seq<Item>, o: Outside, marks: bool)
    requires SpoolOk(st) && KeyFor(st, o).Some?
    ensures var st' := Stored(st, next, o, marks);
            if Persists(st, next, o)
            then Synced(st') && st'.items == next && Held(st') == Contents(next, OpenerOf(Aad, KeyFor(st, o).value))
            else st'.items == st.items && Held(st') == Held(st)
  {
    HeldWithKey(st, o);
  }

  /** An operation that returns changes the map as it says, and one that throws leaves it alone. */
  lemma OutcomeIs(st: Spool, hostId: string, op: Operation)
    requires SpoolOk(st) && !op.Reopen?
    ensures Held(Next(st, hostId, op)) == if Succeeds(st, hostId, op) then Changed(Held(st), st.items, op) else Held(st)
    ensures !Succeeds(st, hostId, op) ==> Next(st, hostId, op).items == st.items
    ensures Succeeds(st, hostId, op) && Written(st, hostId, op).Some? ==>
              Synced(Next(st, hostId, op)) && Next(st, hostId, op).items == Written(st, hostId, op).value
  {
    HeldWithKey(st, op.outside);
    var next := Written(st, hostId, op);
    if next.Some? {
      WrittenIs(st, hostId, op);
      StoredIs(st, next.value, op.outside, !op.RecoverUnreadable?);
      WritingSucceedsIff(st, hostId, op);
    } else {
      WritingNothing(st, hostId, op);
    }
  }

  lemma WritingSucceedsIff(st: Spool, hostId: string, op: Operation)
    requires Written(st, hostId, op).Some?
    ensures Succeeds(st, hostId, op) <==> Persists(st, Written(st, hostId, op).value, op.outside)
    ensures Next(st, hostId, op) == Stored(st, Written(st, hostId, op).value, op.outside, !op.RecoverUnreadable?)
  {
  }

  lemma WritingNothing(st: Spool, hostId: string, op: Operation)
    requires !op.Reopen? && Written(st, hostId, op).None?
    ensures Next(st, hostId, op) == st || Next(st, hostId, op) == WithKey(st, op.outside)
    ensures Succeeds(st, hostId, op) ==> !op.Replace? && (op.Enqueue? ==> HasId(st.items, op.input.id))
  {
  }

  /** Exactly when an operation comes to a write: it has its key, and its ids are free or something does not open. */
  lemma WritesIff(st: Spool, hostId: string, op: Operation)
    requires SpoolOk(st) && !op.Reopen?
    ensures Written(st, hostId, op).Some? <==>
              KeyFor(st, op.outside).Some?
              && match op
                 case Enqueue(input, _) => !HasId(st.items, input.id)
                 case Replace(remove, additions, _) => FreeIds(Kept(st.items, remove), additions)
                 case RecoverUnreadable(_) => !AllOpen(st)
                 case OpenItem(_, _) => false
  {
    var key := KeyFor(st, op.outside);
    if key.Some? {
      HeldWithKey(st, op.outside);
      if op.Replace? { Replaced(st.items, op.remove, op.additions, key.value, hostId, op.outside.first); }
      if op.RecoverUnreadable? { AllReadableIff(st.items, OpenerOf(Aad, key.value)); }
    }
  }

  /** Every item opens. */
  ghost predicate AllOpen(st: Spool) { forall i :: 0 <= i < |st.items| ==> st.items[i].meta.id in Held(st) }

  lemma AllReadableIff(items: seq<Item>, open: Opener)
    requires UniqueIds(items)
    ensures |Readable(items, open)| == |items|
        <==> forall i :: 0 <= i < |items| ==> items[i].meta.id in Contents(items, open)
  {
    OpensIffHeld(items, open);
    ReadableIs(items, open);
    ReadableAll(items, open);
    AllKept(items, open);
  }

  lemma OpensIffHeld(items: seq<Item>, open: Opener)
    requires UniqueIds(items)
    ensures forall i :: 0 <= i < |items| ==> (open(items[i]).Some? <==> items[i].meta.id in Contents(items, open))
  {
    forall i | 0 <= i < |items| ensures open(items[i]).Some? <==> items[i].meta.id in Contents(items, open) {
      if open(items[i]).Some? { ContentsAt(items, open, i); } else { ClosedAt(items, open, i); }
    }
  }

  lemma {:induction false} AllKept(items: seq<Item>, open: Opener)
    ensures (forall i :: 0 <= i < |items| ==> open(items[i]).Some?) ==> Readable(items, open) == items
  {
    if items != [] {
      AllKept(items[..|items| - 1], open);
      assert items == items[..|items| - 1] + [items[|items| - 1]];
    }
  }

  /** An item is opened exactly when it is stored and the spool holds something for its id, given the key. */
  lemma OpensIff(st: Spool, hostId: string, item: Item, o: Outside)
    requires SpoolOk(st)
    ensures Succeeds(st, hostId, OpenItem(item, o))
        <==> item in st.items && KeyFor(st, o).Some? && item.meta.id in Held(st)
    ensures Succeeds(st, hostId, OpenItem(item, o)) ==>
              Open(Aad, KeyFor(st, o).value, item) == Some(Held(st)[item.meta.id])
  {
    if item in st.items && KeyFor(st, o).Some? {
      HeldWithKey(st, o);
      var i :| 0 <= i < |st.items| && st.items[i] == item;
      var open := OpenerOf(Aad, KeyFor(st, o).value);
      assert open(item) == Open(Aad, KeyFor(st, o).value, item);
      if open(item).Some? { ContentsAt(st.items, open, i); } else { ClosedAt(st.items, open, i); }
    }
  }

  /** What enqueue does with an id that is not there yet. */
  lemma EnqueueIs(st: Spool, hostId: string, input: Input, o: Outside)
    requires !HasId(st.items, input.id)
    ensures var op, key := Enqueue(input, o), KeyFor(st, o);
            if key.None? then Next(st, hostId, op) == WithKey(st, o) && !Succeeds(st, hostId, op)
            else var sealed := SealerOf(Aad, key.value, hostId, o.first)(input, 0);
                 && sealed.meta.id == input.id
                 && Next(st, hostId, op) == Stored(st, st.items + [sealed], o, true)
                 && (Succeeds(st, hostId, op) <==> Persists(st, st.items + [sealed], o))
  {
    if KeyFor(st, o).Some? { SealedId(KeyFor(st, o).value, hostId, input, o.first); }
  }

  lemma SealedId(key: Key, hostId: string, input: Input, first: nat)
    ensures SealerOf(Aad, key, hostId, first)(input, 0).meta.id == input.id
  {
    SealerFits(Aad, key, hostId, first);
  }

  /** What replace does, by whether it has its key and whether the ids are free. */
  lemma ReplaceIs(st: Spool, hostId: string, remove: set<string>, additions: seq<Input>, o: Outside)
    ensures var op, key := Replace(remove, additions, o), KeyFor(st, o);
            if key.None? then Next(st, hostId, op) == WithKey(st, o) && !Succeeds(st, hostId, op)
            else var next := Added(Kept(st.items, remove), additions, SealerOf(Aad, key.value, hostId, o.first));
                 if next.None? then Next(st, hostId, op) == WithKey(st, o) && !Succeeds(st, hostId, op)
                 else Next(st, hostId, op) == Stored(st, next.value, o, true)
                      && (Succeeds(st, hostId, op) <==> Persists(st, next.value, o))
  {
  }

  /** What recoverUnreadable does, by whether it has its key and whether something does not open. */
  lemma RecoverIs(st: Spool, hostId: string, o: Outside)
    ensures var op, key := RecoverUnreadable(o), KeyFor(st, o);
            var readable := if key.Some? then Readable(st.items, OpenerOf(Aad, key.value)) else [];
            if key.None? then Next(st, hostId, op) == WithKey(st, o) && !Succeeds(st, hostId, op)
            else if |readable| == |st.items| then Next(st, hostId, op) == WithKey(st, o) && Succeeds(st, hostId, op)
            else Next(st, hostId, op) == Stored(st, readable, o, false)
                 && (Succeeds(st, hostId, op) <==> Persists(st, readable, o))
  {
  }

  // ----- Memory and file

  /** Exactly when memory is what the file says, after any operation from any state. */
  lemma SyncedIff(st: Spool, hostId: string, op: Operation)
    requires SpoolOk(st) && !op.Reopen?
    ensures var next, st' := Written(st, hostId, op), Next(st, hostId, op);
            Synced(st') <==>
              if next.None? then Synced(st)
              else Succeeds(st, hostId, op) || (if op.outside.io.Fails? then Synced(st) else next.value == st.items)
  {
    var next := Written(st, hostId, op);
    if next.Some? {
      WritingSucceedsIff(st, hostId, op);
      StoredSyncedIff(st, next.value, op.outside, !op.RecoverUnreadable?);
    } else {
      WritingNothing(st, hostId, op);
    }
  }

  lemma StoredSyncedIff(st: Spool, next: seq<Item>, o: Outside, marks: bool)
    requires SpoolOk(st) && KeyFor(st, o).Some?
    ensures Synced(Stored(st, next, o, marks))
            <==> Persists(st, next, o) || (if o.io.Fails? then Synced(st) else next == st.items)
  {
  }

  /**
   Memory and file fall apart exactly where a write of other items installs its target, reports a failure, and
   the file then cannot be read back.
   */
  lemma DivergesIff(st: Spool, hostId: string, op: Operation)
    requires SpoolOk(st) && Synced(st) && !op.Reopen?
    ensures !Synced(Next(st, hostId, op)) <==>
              Written(st, hostId, op).Some? && op.outside.io == FailsAfterEffect(false)
                  && Written(st, hostId, op).value != st.items
  {
    SyncedIff(st, hostId, op);
    if Written(st, hostId, op).Some? { WritingSucceedsIff(st, hostId, op); }
  }

  /**
   Then the failed operation has taken effect in the file and not in memory.  A new process finds the effect;
   the next operation of the old one that writes undoes it, file and memory then agreeing again.
   */
  lemma InstalledThenUndone(st: Spool, hostId: string, op: Operation, later: Operation)
    requires SpoolOk(st) && !op.Reopen? && Written(st, hostId, op).Some? && op.outside.io == FailsAfterEffect(false)
    requires !later.Reopen? && Written(Next(st, hostId, op), hostId, later).Some?
    requires Succeeds(Next(st, hostId, op), hostId, later)
    ensures var failed := Next(st, hostId, op); var after := Next(failed, hostId, later);
            && !Succeeds(st, hostId, op) && Held(failed) == Held(st)
               && FileHeld(failed) == Changed(Held(st), st.items, op)
            && Held(Next(failed, hostId, Reopen)) == FileHeld(failed)
            && Synced(after) && Held(after) == FileHeld(after) == Changed(Held(st), st.items, later)
  {
    var failed := Next(st, hostId, op);
    WritingSucceedsIff(st, hostId, op);
    NextKeeps(st, hostId, op);
    HeldWithKey(st, op.outside);
    WrittenIs(st, hostId, op);
    StoredIs(st, Written(st, hostId, op).value, op.outside, !op.RecoverUnreadable?);
    NextKeeps(failed, hostId, later);
    OutcomeIs(failed, hostId, later);
    SyncedHeld(Next(failed, hostId, later));
  }

  lemma SyncedHeld(st: Spool)
    requires SpoolOk(st) && Synced(st)
    ensures Held(st) == FileHeld(st)
  {
  }

  /** From any state, an operation that writes and returns makes memory and file agree. */
  lemma ReturnedWriteSyncs(st: Spool, hostId: string, op: Operation)
    requires SpoolOk(st) && !op.Reopen? && Written(st, hostId, op).Some? && Succeeds(st, hostId, op)
    ensures var st' := Next(st, hostId, op);
            Synced(st') && FileHeld(st') == Held(st') == Changed(Held(st), st.items, op)
  {
    OutcomeIs(st, hostId, op);
    NextKeeps(st, hostId, op);
    SyncedHeld(Next(st, hostId, op));
  }

  /** A run in which they fall apart: a first payload that is in the file and not in memory. */
  lemma FirstPayloadIsLost(hostId: string, input: Input, key: Key, nonce: nat)
    ensures var start := Loaded(None, None);
            var st := Run(start, hostId, [Enqueue(input, Outside(false, key, nonce, FailsAfterEffect(false)))]);
            SpoolOk(start) && Held(st) == map[] && FileHeld(st) == map[input.id := input.payload] && !Synced(st)
  {
    var start := Loaded(None, None);
    var op := Enqueue(input, Outside(false, key, nonce, FailsAfterEffect(false)));
    assert [op][..0] == [];
    assert Run(start, hostId, [op]) == Next(start, hostId, op);
    WrittenIs(start, hostId, op);
    HeldWithKey(start, op.outside);
    WritingSucceedsIff(start, hostId, op);
    StoredIs(start, Written(start, hostId, op).value, op.outside, true);
  }

  // ----- Quarantine

  lemma {:induction false} ItemOfIs(items: seq<Item>, id: string)
    ensures ItemOf(items, id).None? <==> !HasId(items, id)
    ensures ItemOf(items, id).Some? ==> ItemOf(items, id).value in items && ItemOf(items, id).value.meta.id == id
  {
    if items != [] && items[0].meta.id != id {
      ItemOfIs(items[1..], id);
      if HasId(items, id) {
        var i :| 0 <= i < |items| && items[i].meta.id == id;
        assert items[1..][i - 1].meta.id == id;
      }
    }
  }

  /** What an item's bytes are, given the key. */
  lemma RawBytesIff(st: Spool, id: string, o: Outside)
    requires SpoolOk(st) && HasId(st.items, id)
    ensures ItemOf(st.items, id).Some?
    ensures RawBytes(st, ItemOf(st.items, id).value, o)
            == if KeyFor(st, o).Some? && id in Held(st) then Some(BytesOf(Held(st)[id])) else None
  {
    ItemOfIs(st.items, id);
    ReadIff(st, ItemOf(st.items, id).value, o);
  }

  lemma ReadIff(st: Spool, item: Item, o: Outside)
    requires SpoolOk(st) && item in st.items
    ensures PayloadOf(st, item, o)
            == if KeyFor(st, o).Some? && item.meta.id in Held(st) then Some(Held(st)[item.meta.id]) else None
  {
    OpensIff(st, "", item, o);
  }

  lemma OpeningKeeps(st: Spool, hostId: string, item: Item, o: Outside)
    requires SpoolOk(st)
    ensures var st' := Next(st, hostId, OpenItem(item, o));
            SpoolOk(st') && st'.items == st.items && st'.disk == st.disk && Held(st') == Held(st)
    ensures item in st.items ==> Next(st, hostId, OpenItem(item, o)) == WithKey(st, o)
  {
    HeldWithKey(st, o);
  }

  /** The inflight upload, if there is one, is read and is the one proven uncommitted. */
  ghost predicate InflightReady(st: Spool, r: Request, o: Outside) {
    var id := InflightId(r.eventId);
    HasId(st.items, id) ==> KeyFor(st, o).Some? && id in Held(st) && r.proven == Some(BytesOf(Held(st)[id]))
  }

  lemma InflightReadyIff(st: Spool, hostId: string, r: Request, o: Outside)
    requires SpoolOk(st)
    ensures InflightProven(st, r, o) <==> InflightReady(st, r, o)
    ensures var st' := AfterInflight(st, hostId, r, o);
            SpoolOk(st') && st'.items == st.items && st'.disk == st.disk && Held(st') == Held(st)
  {
    var id := InflightId(r.eventId);
    ItemOfIs(st.items, id);
    if HasId(st.items, id) {
      RawBytesIff(st, id, o);
      OpeningKeeps(st, hostId, ItemOf(st.items, id).value, o);
    }
  }

  /** The state when the source has been read. */
  function AfterReads(st: Spool, hostId: string, r: Request, a: Outside, b: Outside): Spool {
    WithKey(AfterInflight(st, hostId, r, a), b)
  }

  /** All that a quarantine needs but the write: both reads, the proof of the inflight upload, a key, and a free id. */
  ghost predicate CanQuarantine(st: Spool, hostId: string, r: Request, a: Outside, b: Outside, c: Outside) {
    && r.eventId in Held(st) && InflightReady(st, r, a)
    && KeyFor(AfterInflight(st, hostId, r, a), b).Some? && KeyFor(AfterReads(st, hostId, r, a, b), c).Some?
    && !HasId(Kept(st.items, {r.eventId, InflightId(r.eventId)}), DeadLetterId(r.eventId))
  }

  lemma {:induction false} HeldIsStored(items: seq<Item>, open: Opener, id: string)
    requires id in Contents(items, open)
    ensures HasId(items, id)
  {
    ContentsIds(items, open);
  }

  /** The two reads succeed exactly when they can, and read what the spool holds. */
  lemma ReadsIs(st: Spool, hostId: string, r: Request, a: Outside, b: Outside)
    requires SpoolOk(st) && HasId(st.items, r.eventId)
    ensures ItemOf(st.items, r.eventId).Some?
    ensures var source, st1 := ItemOf(st.items, r.eventId).value, AfterInflight(st, hostId, r, a);
            && Next(st1, hostId, OpenItem(source, b)) == AfterReads(st, hostId, r, a, b)
            && RawBytes(st1, source, b)
               == if KeyFor(st1, b).Some? && r.eventId in Held(st) then Some(BytesOf(Held(st)[r.eventId])) else None
    ensures var st2 := AfterReads(st, hostId, r, a, b);
            SpoolOk(st2) && st2.items == st.items && st2.disk == st.disk && Held(st2) == Held(st)
  {
    InflightReadyIff(st, hostId, r, a);
    var st1 := AfterInflight(st, hostId, r, a);
    RawBytesIff(st1, r.eventId, b);
    ItemOfIs(st.items, r.eventId);
    OpeningKeeps(st1, hostId, ItemOf(st.items, r.eventId).value, b);
  }

  lemma PayloadsOfOne(input: Input)
    ensures Payloads([input]) == map[input.id := input.payload]
  {
    assert [input][..0] == [];
  }

  lemma SwapWritesIff(st: Spool, hostId: string, r: Request, raw: seq<Byte>, o: Outside)
    requires SpoolOk(st)
    ensures Written(st, hostId, Swap(r, raw, o)).Some? <==>
              KeyFor(st, o).Some? && !HasId(Kept(st.items, {r.eventId, InflightId(r.eventId)}), DeadLetterId(r.eventId))
  {
    WritesIff(st, hostId, Swap(r, raw, o));
  }

  /** What a swap writes no longer has the source. */
  lemma SwapTakesOut(kept: seq<Item>, input: Input, id: string, key: Key, hostId: string, first: nat)
    requires !HasId(kept, id) && input.id != id && Added(kept, [input], SealerOf(Aad, key, hostId, first)).Some?
    ensures !HasId(Added(kept, [input], SealerOf(Aad, key, hostId, first)).value, id)
  {
    SealerFits(Aad, key, hostId, first);
    AddedIff(kept, [input], SealerOf(Aad, key, hostId, first), OpenerOf(Aad, key));
  }

  /** So it never writes what is there already. */
  lemma SwapWritesOther(st: Spool, hostId: string, r: Request, raw: seq<Byte>, o: Outside)
    requires SpoolOk(st) && HasId(st.items, r.eventId) && Written(st, hostId, Swap(r, raw, o)).Some?
    ensures Written(st, hostId, Swap(r, raw, o)).value != st.items
  {
    var kept := Kept(st.items, {r.eventId, InflightId(r.eventId)});
    KeptIds(st.items, {r.eventId, InflightId(r.eventId)});
    assert |DeadLetterId(r.eventId)| != |r.eventId|;
    SwapTakesOut(kept, LetterInput(r, raw), r.eventId, KeyFor(st, o).value, hostId, o.first);
  }

  /** The swap, from a state in which the source is stored. */
  lemma SwapIs(st: Spool, hostId: string, r: Request, raw: seq<Byte>, o: Outside)
    requires SpoolOk(st) && HasId(st.items, r.eventId)
    ensures var op := Swap(r, raw, o); var st' := Next(st, hostId, op);
            && SpoolOk(st')
            && (if Succeeds(st, hostId, op)
                then Synced(st') && Held(st') == (Held(st) - {r.eventId, InflightId(r.eventId)})[
                       DeadLetterId(r.eventId) := LetterInput(r, raw).payload]
                else st'.items == st.items && Held(st') == Held(st))
            && (Synced(st) ==> (!Synced(st') <==> Written(st, hostId, op).Some? && o.io == FailsAfterEffect(false)))
            && (Synced(st) ==> (Succeeds(st, hostId, op) <==>
                                  Written(st, hostId, op).Some? && (o.io.Works? || o.io == FailsAfterEffect(true))))
  {
    var op := Swap(r, raw, o);
    NextKeeps(st, hostId, op);
    OutcomeIs(st, hostId, op);
    PayloadsOfOne(LetterInput(r, raw));
    if Written(st, hostId, op).Some? {
      WritingSucceedsIff(st, hostId, op);
      SwapWritesOther(st, hostId, r, raw, o);
    }
    if Synced(st) { DivergesIff(st, hostId, op); }
  }

  /**
   A quarantine is done exactly when it can be and its one write is; the source and the proven inflight upload are
   then one dead letter with their bytes, and everything else is untouched.  Otherwise memory is as it was.
   */
  lemma QuarantineIff(st: Spool, hostId: string, r: Request, a: Outside, b: Outside, c: Outside)
    requires SpoolOk(st)
    ensures var (st', q) := Quarantined(st, hostId, r, a, b, c);
            && SpoolOk(st')
            && (q.Absent? <==> !HasId(st.items, r.eventId))
            && (q.Done? <==> CanQuarantine(st, hostId, r, a, b, c)
                             && Succeeds(AfterReads(st, hostId, r, a, b), hostId,
                                         Swap(r, BytesOf(Held(st)[r.eventId]), c)))
            && (if q.Done?
                then Synced(st') && Held(st') == (Held(st) - {r.eventId, InflightId(r.eventId)})[
                       DeadLetterId(r.eventId) := LetterInput(r, BytesOf(Held(st)[r.eventId])).payload]
                else st'.items == st.items && Held(st') == Held(st))
  {
    ItemOfIs(st.items, r.eventId);
    if st.keyId.Some? && r.eventId in Held(st) { HeldIsStored(st.items, OpenerOf(Aad, st.keyId.value), r.eventId); }
    if HasId(st.items, r.eventId) {
      InflightReadyIff(st, hostId, r, a);
      ReadsIs(st, hostId, r, a, b);
      if InflightReady(st, r, a) && KeyFor(AfterInflight(st, hostId, r, a), b).Some? && r.eventId in Held(st) {
        SwapIs(AfterReads(st, hostId, r, a, b), hostId, r, BytesOf(Held(st)[r.eventId]), c);
        SwapWritesIff(AfterReads(st, hostId, r, a, b), hostId, r, BytesOf(Held(st)[r.eventId]), c);
        SwapNeedsWrite(AfterReads(st, hostId, r, a, b), hostId, r, BytesOf(Held(st)[r.eventId]), c);
      }
    }
  }

  lemma SwapNeedsWrite(st: Spool, hostId: string, r: Request, raw: seq<Byte>, o: Outside)
    ensures Succeeds(st, hostId, Swap(r, raw, o)) ==> Written(st, hostId, Swap(r, raw, o)).Some?
  {
  }

  /**
   From a spool whose memory is its file: a quarantine that can be done is, exactly when its write installs the
   target and this is seen; and it leaves memory and file apart exactly when the write installs it unseen.
   */
  lemma QuarantineSyncedIff(st: Spool, hostId: string, r: Request, a: Outside, b: Outside, c: Outside)
    requires SpoolOk(st) && Synced(st)
    ensures var (st', q) := Quarantined(st, hostId, r, a, b, c); var can := CanQuarantine(st, hostId, r, a, b, c);
            && (q.Done? <==> can && (c.io.Works? || c.io == FailsAfterEffect(true)))
            && (!Synced(st') <==> can && c.io == FailsAfterEffect(false))
  {
    QuarantineIff(st, hostId, r, a, b, c);
    if HasId(st.items, r.eventId) {
      InflightReadyIff(st, hostId, r, a);
      ReadsIs(st, hostId, r, a, b);
      if InflightReady(st, r, a) && KeyFor(AfterInflight(st, hostId, r, a), b).Some? && r.eventId in Held(st) {
        SwapIs(AfterReads(st, hostId, r, a, b), hostId, r, BytesOf(Held(st)[r.eventId]), c);
        SwapWritesIff(AfterReads(st, hostId, r, a, b), hostId, r, BytesOf(Held(st)[r.eventId]), c);
      }
    } else if st.keyId.Some? && r.eventId in Held(st) {
      HeldIsStored(st.items, OpenerOf(Aad, st.keyId.value), r.eventId);
    }
  }
}
