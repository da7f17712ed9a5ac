/** The spool class over its file and key store, and the quarantine that swaps items of it for one dead letter. */
module LocalSpoolProgram {
  import opened Wrappers
  import opened Unicode
  import opened LocalSpool
  import opened LocalSpoolRuns

  class LocalEncryptedSpool {
    const hostId: string
    var items: seq<Item>
    var keyId: Option<Key>
    var hasPersistedItems: bool
    /** The file, and the key in the key store. */
    var disk: Option<SpoolFile>
    var storeKey: Option<Key>

    ghost function View(): Spool
      reads this
    {
      Spool(items, keyId, hasPersistedItems, disk, storeKey)
    }

    /** Opens a spool on the file that an earlier one left. */
    constructor (hostId: string, file: Option<SpoolFile>, key: Option<Key>)
      ensures View() == Loaded(file, key) && this.hostId == hostId
    {
      this.hostId, disk, storeKey := hostId, file, key;
      items := if file.None? then [] else file.value.items;
      keyId := if file.None? then None else Some(file.value.keyId);
      hasPersistedItems := file.Some?;
    }

    /** loadVerifiedKey; None where it throws. */
    method LoadVerifiedKey(o: Outside) returns (key: Option<Key>)
      modifies this`keyId, this`storeKey
      ensures key == KeyFor(old(View()), o) && View() == WithKey(old(View()), o)
    {
      if o.keyFails { return None; }
      if storeKey.None? {
        if hasPersistedItems { return None; }
        storeKey := Some(o.created);
      }
      if keyId.Some? && keyId != storeKey { return None; }
      keyId := storeKey;
      key := storeKey;
    }

    /** persist: a write that reports a failure counts as done exactly when the file is read back as the target. */
    method Persist(next: seq<Item>, io: Io) returns (ok: bool)
      requires keyId.Some?
      modifies this`disk
      ensures disk == DiskAfter(old(disk), SpoolFile(keyId.value, next), io)
      ensures ok <==> WriteSucceeds(old(disk), SpoolFile(keyId.value, next), io)
    {
      var target := SpoolFile(keyId.value, next);
      if !io.Fails? { disk := Some(target); }
      if io.Works? { return true; }
      ok := io.reopens && disk == Some(target);
    }

    /** A write of the next items, which memory follows once persist returns. */
    method PersistItems(next: seq<Item>, io: Io, marks: bool) returns (ok: bool)
      requires keyId.Some?
      modifies this`disk, this`items, this`hasPersistedItems
      ensures ok <==> WriteSucceeds(old(disk), SpoolFile(keyId.value, next), io)
      ensures View() == old(View()).(
                          disk := DiskAfter(old(disk), SpoolFile(keyId.value, next), io),
                          items := if ok then next else old(items),
                          hasPersistedItems := old(hasPersistedItems) || (ok && marks && next != []))
    {
      ok := Persist(next, io);
      if ok {
        items := next;
        if marks && next != [] { hasPersistedItems := true; }
      }
    }

    /** The first item with the id, as Array.find finds it. */
    method Find(id: string) returns (item: Option<Item>)
      ensures item == ItemOf(items, id)
    {
      assert items[0..] == items;
      for i := 0 to |items|
        invariant ItemOf(items, id) == ItemOf(items[i..], id)
      {
        if items[i].meta.id == id { return Some(items[i]); }
        assert items[i..][1..] == items[i + 1..];
      }
      return None;
    }

    /** enqueue: an id that is there keeps what it holds; None where it throws. */
    method EnqueueItem(input: Input, o: Outside) returns (item: Option<Item>)
      requires SpoolOk(View())
      modifies this
      ensures View() == Next(old(View()), hostId, Enqueue(input, o))
      ensures item.Some? <==> Succeeds(old(View()), hostId, Enqueue(input, o))
      ensures item.Some? ==> item.value in items && item.value.meta.id == input.id
      ensures item.Some? && old(HasId(items, input.id)) ==> Matches(item.value.meta, input)
    {
      var existing := Find(input.id);
      ItemOfIs(items, input.id);
      if existing.Some? {
        OneItem(items, existing.value, input);
        var m := existing.value.meta;
        if m.sessionId != input.sessionId || m.eventId != input.eventId || m.kind != input.kind { return None; }
        return existing;
      }
      item := EnqueueNew(input, o);
    }

    method EnqueueNew(input: Input, o: Outside) returns (item: Option<Item>)
      requires !HasId(items, input.id)
      modifies this
      ensures View() == Next(old(View()), hostId, Enqueue(input, o))
      ensures item.Some? <==> Succeeds(old(View()), hostId, Enqueue(input, o))
      ensures item.Some? ==> item.value in items && item.value.meta.id == input.id
    {
      EnqueueIs(View(), hostId, input, o);
      var key := LoadVerifiedKey(o);
      if key.None? { return None; }
      var sealed := SealerOf(Aad, key.value, hostId, o.first)(input, 0);
      var ok := PersistItems(items + [sealed], o.io, true);
      return if ok then Some(sealed) else None;
    }

    /** The additions sealed one after the other; None where an id is taken. */
    method SealAll(kept: seq<Item>, additions: seq<Input>, key: Key, first: nat) returns (next: Option<seq<Item>>)
      ensures next == Added(kept, additions, SealerOf(Aad, key, hostId, first))
    {
      var seal := SealerOf(Aad, key, hostId, first);
      var items := kept;
      for i := 0 to |additions|
        invariant Added(kept, additions[..i], seal) == Some(items)
      {
        assert additions[..i + 1][..i] == additions[..i];
        if HasId(items, additions[i].id) {
          AddedPrefix(kept, additions, i + 1, seal);
          return None;
        }
        items := items + [seal(additions[i], i + 1)];
      }
      assert additions[..|additions|] == additions;
      return Some(items);
    }

    /** replace: removes ids and adds items in one write; false where it throws. */
    method ReplaceItems(remove: set<string>, additions: seq<Input>, o: Outside) returns (ok: bool)
      modifies this
      ensures View() == Next(old(View()), hostId, Replace(remove, additions, o))
      ensures ok <==> Succeeds(old(View()), hostId, Replace(remove, additions, o))
    {
      ReplaceIs(View(), hostId, remove, additions, o);
      var kept := Kept(items, remove);
      var key := LoadVerifiedKey(o);
      if key.None? { return false; }
      var next := SealAll(kept, additions, key.value, o.first);
      if next.None? { return false; }
      ok := PersistItems(next.value, o.io, true);
    }

    /** open: None where it throws. */
    method OpenStored(item: Item, o: Outside) returns (payload: Option<Payload>)
      requires SpoolOk(View())
      modifies this`keyId, this`storeKey
      ensures View() == Next(old(View()), hostId, OpenItem(item, o))
      ensures payload.Some? <==> Succeeds(old(View()), hostId, OpenItem(item, o))
      ensures payload.Some? ==> payload == Open(Aad, KeyFor(old(View()), o).value, item)
    {
      var stored := Find(item.meta.id);
      ItemOfIs(items, item.meta.id);
      FoundIs(items, item, stored);
      if stored != Some(item) { return None; }
      var key := LoadVerifiedKey(o);
      if key.None? { return None; }
      payload := Open(Aad, key.value, item);
    }

    /** The bytes that open returns for a stored item; None where it throws. */
    method ReadRaw(item: Item, o: Outside) returns (raw: Option<seq<Byte>>)
      requires SpoolOk(View())
      modifies this`keyId, this`storeKey
      ensures View() == Next(old(View()), hostId, OpenItem(item, o)) && raw == RawBytes(old(View()), item, o)
    {
      var payload := OpenStored(item, o);
      return if payload.Some? then Some(BytesOf(payload.value)) else None;
    }

    /** The loop of recoverUnreadable: the items that open, and the number of those that do not. */
    method SplitReadable(key: Key) returns (readable: seq<Item>, unreadable: nat)
      ensures readable == Readable(items, OpenerOf(Aad, key)) && |readable| + unreadable == |items|
    {
      var open := OpenerOf(Aad, key);
      readable, unreadable := [], 0;
      for i := 0 to |items|
        invariant readable == Readable(items[..i], open) && unreadable + |readable| == i
      {
        assert items[..i + 1][..i] == items[..i];
        if open(items[i]).Some? { readable := readable + [items[i]]; } else { unreadable := unreadable + 1; }
      }
      assert items[..|items|] == items;
    }

    /** recoverUnreadable: the number of items dropped, or None where it throws. */
    method DropUnreadable(o: Outside) returns (dropped: Option<nat>)
      modifies this
      ensures View() == Next(old(View()), hostId, RecoverUnreadable(o))
      ensures dropped.Some? <==> Succeeds(old(View()), hostId, RecoverUnreadable(o))
      ensures dropped.Some? ==> |items| + dropped.value == |old(items)|
    {
      RecoverIs(View(), hostId, o);
      var key := LoadVerifiedKey(o);
      if key.None? { return None; }
      var readable, unreadable := SplitReadable(key.value);
      if unreadable > 0 {
        var ok := PersistItems(readable, o.io, false);
        if !ok { return None; }
      }
      dropped := Some(unreadable);
    }
  }

  /** The first of the items with an id is the only one. */
  lemma OneItem(items: seq<Item>, item: Item, input: Input)
    requires UniqueIds(items) && item in items && item.meta.id == input.id
    ensures Matches(item.meta, input) <==> exists x :: x in items && x.meta.id == input.id && Matches(x.meta, input)
  {
    forall x | x in items && x.meta.id == input.id ensures x == item {
      var i :| 0 <= i < |items| && items[i] == x;
      var j :| 0 <= j < |items| && items[j] == item;
    }
  }

  /** The event part of the state store. */
  class PendingEvents {
    const spool: LocalEncryptedSpool

    constructor (spool: LocalEncryptedSpool)
      ensures this.spool == spool
    {
      this.spool := spool;
    }

    /** The inflight upload, if there is one, is read and compared with the proof. */
    method ProveInflight(r: Request, o: Outside) returns (ok: bool)
      requires SpoolOk(spool.View())
      modifies spool
      ensures spool.View() == AfterInflight(old(spool.View()), spool.hostId, r, o)
      ensures ok <==> InflightProven(old(spool.View()), r, o)
    {
      var inflight := spool.Find(InflightId(r.eventId));
      ItemOfIs(spool.items, InflightId(r.eventId));
      if inflight.None? { return true; }
      if r.proven.None? { return false; }
      var current := spool.ReadRaw(inflight.value, o);
      ok := current == r.proven;
    }

    /** The source is read and, with the inflight upload, swapped for the dead letter. */
    method SwapSource(r: Request, source: Item, b: Outside, c: Outside) returns (q: Quarantine)
      requires SpoolOk(spool.View())
      modifies spool
      ensures (spool.View(), q) == Swapped(old(spool.View()), spool.hostId, r, source, b, c)
    {
      var raw := spool.ReadRaw(source, b);
      if raw.None? { return Throws; }
      var ok := spool.ReplaceItems({r.eventId, InflightId(r.eventId)}, [LetterInput(r, raw.value)], c);
      return if ok then Done else Throws;
    }

    /**
     quarantinePendingEventRaw: the source, and the inflight upload that was proven uncommitted, become one dead
     letter in one write.
     */
    method QuarantinePendingEventRaw(r: Request, a: Outside, b: Outside, c: Outside) returns (q: Quarantine)
      requires SpoolOk(spool.View())
      modifies spool
      ensures (spool.View(), q) == Quarantined(old(spool.View()), spool.hostId, r, a, b, c)
    {
      var source := spool.Find(r.eventId);
      if source.None? { return Absent; }
      InflightReadyIff(spool.View(), spool.hostId, r, a);
      var ok := ProveInflight(r, a);
      if !ok { return Throws; }
      q := SwapSource(r, source.value, b, c);
    }
  }
}
