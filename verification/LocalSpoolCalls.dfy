/** The spool's key over runs, and what single operations do with an id that is there. */
module LocalSpoolCalls {
  import opened Wrappers
  import opened LocalSpool
  import opened LocalSpoolRuns

  // ----- The key

  /** Without a key nothing has happened yet; with one, memory and file are of it. */
  ghost predicate KeyOk(st: Spool) {
    if st.storeKey.None? then st == Loaded(None, None)
    else && (st.keyId.Some? ==> st.keyId == st.storeKey)
         && (st.disk.Some? ==> st.disk.value.keyId == st.storeKey.value)
  }

  lemma NextKeepsKey(st: Spool, hostId: string, op: Operation)
    requires KeyOk(st)
    ensures KeyOk(Next(st, hostId, op))
    ensures st.storeKey.Some? ==> Next(st, hostId, op).storeKey == st.storeKey
  {
    if !op.Reopen? {
      WithKeyKeepsKey(st, op.outside);
      if Written(st, hostId, op).Some? {
        WritingSucceedsIff(st, hostId, op);
        StoredKeepsKey(st, Written(st, hostId, op).value, op.outside, !op.RecoverUnreadable?);
      } else {
        WritingNothing(st, hostId, op);
      }
    }
  }

  lemma WithKeyKeepsKey(st: Spool, o: Outside)
    requires KeyOk(st)
    ensures KeyOk(WithKey(st, o)) && (st.storeKey.Some? ==> WithKey(st, o).storeKey == st.storeKey)
  {
  }

  lemma StoredKeepsKey(st: Spool, next: seq<Item>, o: Outside, marks: bool)
    requires KeyOk(st) && KeyFor(st, o).Some?
    ensures KeyOk(Stored(st, next, o, marks)) && Stored(st, next, o, marks).storeKey == KeyFor(st, o)
    ensures st.storeKey.Some? ==> KeyFor(st, o) == st.storeKey
  {
  }

  /**
   In every run of a spool that began without a file: an operation has its key exactly when the key store answers, and
   the key that one operation made or had is that of all later ones.
   */
  lemma {:induction false} KeyIsThere(hostId: string, storeKey: Option<Key>, before: seq<Operation>, o: Outside)
    ensures var st := Run(Loaded(None, storeKey), hostId, before);
            && KeyOk(st)
            && (KeyFor(st, o).Some? <==> !o.keyFails)
            && (st.storeKey.Some? && KeyFor(st, o).Some? ==> KeyFor(st, o) == st.storeKey)
  {
    if before != [] {
      KeyIsThere(hostId, storeKey, before[..|before| - 1], o);
      NextKeepsKey(Run(Loaded(None, storeKey), hostId, before[..|before| - 1]), hostId, before[|before| - 1]);
    }
  }

  /** An operation that reaches for the key and gets it leaves it in the key store. */
  lemma KeyIsKept(st: Spool, hostId: string, op: Operation)
    requires (op.Replace? || op.RecoverUnreadable?) && KeyFor(st, op.outside).Some?
    ensures Next(st, hostId, op).storeKey == KeyFor(st, op.outside)
  {
  }

  lemma {:induction false} KeyStays(st: Spool, hostId: string, ops: seq<Operation>)
    requires KeyOk(st) && st.storeKey.Some?
    ensures KeyOk(Run(st, hostId, ops)) && Run(st, hostId, ops).storeKey == st.storeKey
  {
    if ops != [] {
      KeyStays(st, hostId, ops[..|ops| - 1]);
      NextKeepsKey(Run(st, hostId, ops[..|ops| - 1]), hostId, ops[|ops| - 1]);
    }
  }

  /**
   In every run of a spool whose file is there and whose key is not: no new key is made, nothing changes in memory or in
   the file, and nothing but reopening it, or enqueueing once more what is there, returns.
   */
  lemma {:induction false} LostKeyIsFinal(file: SpoolFile, hostId: string, before: seq<Operation>, op: Operation)
    ensures Run(Loaded(Some(file), None), hostId, before) == Loaded(Some(file), None)
    ensures Succeeds(Loaded(Some(file), None), hostId, op) ==>
              op.Reopen? || (op.Enqueue? && HasId(file.items, op.input.id))
  {
    if before != [] { LostKeyIsFinal(file, hostId, before[..|before| - 1], op); }
  }

  /** Items have been on file exactly when they were before, or a returning enqueue or replacement wrote some. */
  lemma PersistedIff(st: Spool, hostId: string, op: Operation)
    requires !op.Reopen?
    ensures Next(st, hostId, op).hasPersistedItems
            <==> st.hasPersistedItems
                 || (!op.RecoverUnreadable? && Written(st, hostId, op).Some? && Written(st, hostId, op).value != []
                     && Succeeds(st, hostId, op))
  {
    if Written(st, hostId, op).Some? { WritingSucceedsIff(st, hostId, op); } else { WritingNothing(st, hostId, op); }
  }

  // ----- An id that is there

  /** Enqueueing an id that is there, or opening what is not stored, changes nothing and asks for no key. */
  lemma NothingToDo(st: Spool, hostId: string, op: Operation)
    requires (op.Enqueue? && HasId(st.items, op.input.id)) || (op.OpenItem? && op.item !in st.items)
    ensures Next(st, hostId, op) == st
  {
  }

  /** Of the item that has the id. */
  lemma TakenAgainIff(st: Spool, hostId: string, item: Item, again: Input, o: Outside)
    requires UniqueIds(st.items) && item in st.items && item.meta.id == again.id
    ensures Next(st, hostId, Enqueue(again, o)) == st
    ensures Succeeds(st, hostId, Enqueue(again, o))
            <==> again.sessionId == item.meta.sessionId && again.kind == item.meta.kind
                 && again.eventId == item.meta.eventId
  {
    assert HasId(st.items, again.id);
    forall x | x in st.items && x.meta.id == again.id ensures x == item {}
  }

  /** A returning enqueue of a free id stores its metadata under the id. */
  lemma EnqueuedMeta(st: Spool, hostId: string, input: Input, o: Outside) returns (item: Item)
    requires SpoolOk(st) && !HasId(st.items, input.id) && Succeeds(st, hostId, Enqueue(input, o))
    ensures var stored := Next(st, hostId, Enqueue(input, o));
            UniqueIds(stored.items) && item in stored.items && item.meta == MetaOf(input, hostId)
  {
    EnqueueIs(st, hostId, input, o);
    var seal := SealerOf(Aad, KeyFor(st, o).value, hostId, o.first);
    item := seal(input, 0);
    assert item == Seal(Aad, KeyFor(st, o).value, o.first + 0, MetaOf(input, hostId), input.payload);
    NextKeeps(st, hostId, Enqueue(input, o));
  }

  /**
   What was enqueued is taken again, whatever its payload, exactly for the same session, kind and Event id: an empty
   Event id is stored as none, so that the very same call then conflicts.
   */
  lemma EnqueuedAgainIff(st: Spool, hostId: string, input: Input, o: Outside, again: Input, later: Outside)
    requires SpoolOk(st) && !HasId(st.items, input.id) && Succeeds(st, hostId, Enqueue(input, o))
    requires again.id == input.id
    ensures var stored := Next(st, hostId, Enqueue(input, o));
            Next(stored, hostId, Enqueue(again, later)) == stored
    ensures Succeeds(Next(st, hostId, Enqueue(input, o)), hostId, Enqueue(again, later))
            <==> again.sessionId == input.sessionId && again.kind == input.kind && again.eventId != Some("")
                 && (again.eventId == input.eventId || (again.eventId == None && input.eventId == Some("")))
  {
    var item := EnqueuedMeta(st, hostId, input, o);
    TakenAgainIff(Next(st, hostId, Enqueue(input, o)), hostId, item, again, later);
  }
}
