/**
 The encrypted local spool: sealed items in memory and in one file, over an ideal AEAD that opens only what was
 sealed with the same key and associated data.
 */
module LocalSpool {
  import opened Wrappers
  import opened Unicode
  import opened FieldEncoding
  import opened Base64Url
  import JsonBytes

  datatype Kind =
    | EventSource
    | EventReservation
    | EventDeadLetter
    | SessionSource
    | EventUpload
    | SessionUpload
    | TerminalCancellation

  function KindName(k: Kind): string {
    match k
    case EventSource => "event-source-v3"
    case EventReservation => "event-reservation-v3"
    case EventDeadLetter => "event-dead-letter-v3"
    case SessionSource => "session-source-v3"
    case EventUpload => "event-upload-v3"
    case SessionUpload => "session-upload-v3"
    case TerminalCancellation => "terminal-cancellation-v3"
  }

  /** A plaintext: raw bytes, or the JSON text of a dead-letter record, standing for the record. */
  datatype Payload =
    | Raw(bytes: seq<Byte>)
    | DeadLetter(deadEventId: string, deadSessionId: string, reason: string, quarantinedAt: string,
                 source: string, inflight: Option<string>)

  /** A key; its verifier is one-to-one, so the key stands for it. */
  type Key = nat

  datatype Meta = Meta(id: string, hostId: string, sessionId: string, eventId: Option<string>, kind: Kind,
                       createdAt: string)

  datatype Box = Box(key: Key, nonce: nat, aad: seq<Byte>, payload: Payload)

  datatype Item = Item(meta: Meta, box: Box)

  function MetaFields(m: Meta): seq<string> {
    ["ariava-local-spool-v1", m.id, m.hostId, m.sessionId,
     if m.eventId.Some? then m.eventId.value else "", KindName(m.kind),
     "1", m.createdAt]
  }

  function Aad(m: Meta): seq<Byte> { Encoded(MetaFields(m)) }

  /** How metadata is written as associated data; the spool's way is Aad. */
  type Binder = Meta -> seq<Byte>

  function Seal(aad: Binder, key: Key, nonce: nat, m: Meta, payload: Payload): Item {
    Item(m, Box(key, nonce, aad(m), payload))
  }

  function Open(aad: Binder, key: Key, item: Item): Option<Payload> {
    if item.box.key == key && item.box.aad == aad(item.meta) then Some(item.box.payload) else None
  }

  lemma KindNamesDiffer(a: Kind, b: Kind)
    requires KindName(a) == KindName(b)
    ensures a == b
  {
    var x, y := KindName(a), KindName(b);
    assert |x| == |y| && x[0] == y[0] && (|x| > 6 ==> x[6] == y[6]);
  }

  /** A sealed box opens only under the metadata it was sealed for: no item can take the place of another. */
  lemma OpensOnlyAsSealed(key: Key, nonce: nat, m: Meta, payload: Payload, other: Meta)
    requires m.eventId != Some("") && other.eventId != Some("")
    ensures Open(Aad, key, Item(other, Seal(Aad, key, nonce, m, payload).box)).Some? <==> other == m
  {
    if Aad(m) == Aad(other) {
      EncodedInjective(MetaFields(m), MetaFields(other));
      var f, g := MetaFields(m), MetaFields(other);
      assert f[1] == g[1] && f[2] == g[2] && f[3] == g[3] && f[4] == g[4] && f[5] == g[5] && f[7] == g[7];
      KindNamesDiffer(m.kind, other.kind);
    }
  }

  /** How items open with a key, and are sealed with it for a host, the nth with the nth nonce from some first. */
  type Opener = Item -> Option<Payload>

  type Sealer = (Input, nat) -> Item

  datatype Input = Input(id: string, sessionId: string, eventId: Option<string>, kind: Kind, createdAt: string,
                         payload: Payload)

  /** An empty Event id is left out of the metadata. */
  function MetaOf(input: Input, hostId: string): Meta {
    var eventId := if input.eventId == Some("") then None else input.eventId;
    Meta(input.id, hostId, input.sessionId, eventId, input.kind, input.createdAt)
  }

  /** The metadata of two inputs is the same exactly when nothing but their payloads and an empty Event id differ. */
  lemma MetaTellsInput(a: Input, b: Input, host: string, other: string)
    ensures MetaOf(a, host) == MetaOf(b, other)
            <==> && host == other && a.id == b.id && a.sessionId == b.sessionId && a.kind == b.kind
                 && a.createdAt == b.createdAt
                 && (a.eventId == b.eventId || (a.eventId in {None, Some("")} && b.eventId in {None, Some("")}))
    ensures MetaOf(a, host).eventId != Some("")
  {
  }

  function OpenerOf(aad: Binder, key: Key): Opener { (item: Item) => Open(aad, key, item) }

  function SealerOf(aad: Binder, key: Key, hostId: string, first: nat): Sealer {
    (input: Input, n: nat) => Seal(aad, key, first + n, MetaOf(input, hostId), input.payload)
  }

  /** What is sealed keeps its id, and opens to what was sealed. */
  ghost predicate Fits(seal: Sealer, open: Opener) {
    forall input: Input, n: nat :: seal(input, n).meta.id == input.id && open(seal(input, n)) == Some(input.payload)
  }

  lemma SealerFits(aad: Binder, key: Key, hostId: string, first: nat)
    ensures Fits(SealerOf(aad, key, hostId, first), OpenerOf(aad, key))
  {
    var seal, open := SealerOf(aad, key, hostId, first), OpenerOf(aad, key);
    forall input: Input, n: nat
      ensures seal(input, n).meta.id == input.id && open(seal(input, n)) == Some(input.payload)
    {
      var item := Seal(aad, key, first + n, MetaOf(input, hostId), input.payload);
      assert seal(input, n) == item && open(item) == Open(aad, key, item);
    }
  }

  // ----- The map that the items stand for

  function Contents(items: seq<Item>, open: Opener): map<string, Payload> {
    if items == [] then map[]
    else
      var rest, last := Contents(items[..|items| - 1], open), items[|items| - 1];
      var payload := open(last);
      if payload.Some? then rest[last.meta.id := payload.value] else rest
  }

  predicate UniqueIds(items: seq<Item>) {
    forall i, j :: 0 <= i < j < |items| ==> items[i].meta.id != items[j].meta.id
  }

  predicate HasId(items: seq<Item>, id: string) { exists i :: 0 <= i < |items| && items[i].meta.id == id }

  lemma {:induction false} ContentsIds(items: seq<Item>, open: Opener)
    ensures forall id :: id in Contents(items, open) ==> HasId(items, id)
  {
    if items != [] {
      var n := |items| - 1;
      ContentsIds(items[..n], open);
      forall id | id in Contents(items, open) ensures HasId(items, id) {
        if id in Contents(items[..n], open) {
          var i :| 0 <= i < n && items[..n][i].meta.id == id;
          assert items[i].meta.id == id;
        } else {
          assert items[n].meta.id == id;
        }
      }
    }
  }

  /** Each stored item that opens is what the map holds for its id. */
  lemma {:induction false} ContentsAt(items: seq<Item>, open: Opener, i: nat)
    requires UniqueIds(items) && i < |items| && open(items[i]).Some?
    ensures items[i].meta.id in Contents(items, open) && Contents(items, open)[items[i].meta.id] == open(items[i]).value
  {
    var n := |items| - 1;
    if i < n {
      assert UniqueIds(items[..n]);
      ContentsAt(items[..n], open, i);
      assert items[..n][i] == items[i];
    }
  }

  lemma ContentsAppend(items: seq<Item>, item: Item, open: Opener)
    ensures Contents(items + [item], open)
            == if open(item).Some? then Contents(items, open)[item.meta.id := open(item).value]
                else Contents(items, open)
  {
    assert (items + [item])[..|items|] == items;
  }

  lemma {:induction false} ClosedAt(items: seq<Item>, open: Opener, i: nat)
    requires UniqueIds(items) && i < |items| && open(items[i]).None?
    ensures items[i].meta.id !in Contents(items, open)
  {
    var n := |items| - 1;
    assert UniqueIds(items[..n]);
    if i < n {
      ClosedAt(items[..n], open, i);
    } else {
      ContentsIds(items[..n], open);
      LastIsNew(items);
    }
  }

  lemma LastIsNew(items: seq<Item>)
    requires items != [] && UniqueIds(items)
    ensures !HasId(items[..|items| - 1], items[|items| - 1].meta.id)
  {
  }

  /** A search by id finds a stored item itself. */
  lemma FoundIs(items: seq<Item>, item: Item, found: Option<Item>)
    requires UniqueIds(items) && (found.None? ==> !HasId(items, item.meta.id))
    requires found.Some? ==> found.value in items && found.value.meta.id == item.meta.id
    ensures item in items ==> found == Some(item)
  {
    if item in items {
      var i :| 0 <= i < |items| && items[i] == item;
      assert HasId(items, item.meta.id);
      var k :| 0 <= k < |items| && items[k] == found.value;
    }
  }

  function Kept(items: seq<Item>, remove: set<string>): seq<Item> {
    if items == [] then []
    else
      var rest, last := Kept(items[..|items| - 1], remove), items[|items| - 1];
      if last.meta.id in remove then rest else rest + [last]
  }

  lemma {:induction false} KeptIds(items: seq<Item>, remove: set<string>)
    requires UniqueIds(items)
    ensures UniqueIds(Kept(items, remove))
    ensures forall id :: HasId(Kept(items, remove), id) ==> HasId(items, id) && id !in remove
  {
    if items != [] {
      var n := |items| - 1;
      assert UniqueIds(items[..n]);
      KeptIds(items[..n], remove);
      var rest, last := Kept(items[..n], remove), items[n];
      forall id | HasId(items[..n], id) ensures HasId(items, id) && id != last.meta.id {
        var i :| 0 <= i < n && items[..n][i].meta.id == id;
        assert items[i].meta.id == id;
      }
      if last.meta.id !in remove {
        AppendUnique(rest, last);
        forall id | HasId(rest + [last], id) ensures HasId(items, id) && id !in remove {
          var i :| 0 <= i < |rest| + 1 && (rest + [last])[i].meta.id == id;
          if i < |rest| { assert HasId(rest, id); } else { assert items[n].meta.id == id; }
        }
      }
    }
  }

  /** Removing items removes exactly their ids from the map. */
  lemma {:induction false} KeptIs(items: seq<Item>, remove: set<string>, open: Opener)
    ensures Contents(Kept(items, remove), open) == Contents(items, open) - remove
  {
    if items != [] {
      var n := |items| - 1;
      KeptIs(items[..n], remove, open);
      if items[n].meta.id !in remove { ContentsAppend(Kept(items[..n], remove), items[n], open); }
    }
  }

  lemma AppendUnique(items: seq<Item>, item: Item)
    requires UniqueIds(items) && !HasId(items, item.meta.id)
    ensures UniqueIds(items + [item])
  {
  }

  // ----- Additions

  /** The items with the inputs sealed and added in order; None where an id is already there. */
  function Added(items: seq<Item>, inputs: seq<Input>, seal: Sealer): Option<seq<Item>> {
    if inputs == [] then Some(items)
    else
      var before := Added(items, inputs[..|inputs| - 1], seal);
      var last := inputs[|inputs| - 1];
      if before.None? || HasId(before.value, last.id) then None
      else Some(before.value + [seal(last, |inputs|)])
  }

  /** No addition's id is taken, by an item or by another addition. */
  predicate FreeIds(items: seq<Item>, inputs: seq<Input>) {
    && (forall i :: 0 <= i < |inputs| ==> !HasId(items, inputs[i].id))
    && (forall i, j :: 0 <= i < j < |inputs| ==> inputs[i].id != inputs[j].id)
  }

  /** The additions are taken exactly when their ids are free. */
  lemma {:induction false} AddedIff(items: seq<Item>, inputs: seq<Input>, seal: Sealer, open: Opener)
    requires Fits(seal, open)
    ensures Added(items, inputs, seal).Some? <==> FreeIds(items, inputs)
    ensures Added(items, inputs, seal).Some? ==>
      forall id :: HasId(Added(items, inputs, seal).value, id)
                   <==> HasId(items, id) || exists i :: 0 <= i < |inputs| && inputs[i].id == id
  {
    if inputs != [] {
      var n := |inputs| - 1;
      AddedIff(items, inputs[..n], seal, open);
      var before := Added(items, inputs[..n], seal);
      if before.Some? {
        var item := seal(inputs[n], |inputs|);
        forall id ensures HasId(before.value + [item], id) <==> HasId(before.value, id) || inputs[n].id == id {
          HasIdAppend(before.value, item, id);
        }
        assert forall i :: 0 <= i < n ==> inputs[..n][i] == inputs[i];
      } else if FreeIds(items, inputs) {
        assert FreeIds(items, inputs[..n]);
      }
    }
  }

  lemma HasIdAppend(items: seq<Item>, item: Item, id: string)
    ensures HasId(items + [item], id) <==> HasId(items, id) || item.meta.id == id
  {
    if HasId(items, id) {
      var i :| 0 <= i < |items| && items[i].meta.id == id;
      assert (items + [item])[i].meta.id == id;
    }
    if item.meta.id == id { assert (items + [item])[|items|].meta.id == id; }
  }

  /** An addition that does not fit spoils all that follow. */
  lemma {:induction false} AddedPrefix(items: seq<Item>, inputs: seq<Input>, n: nat, seal: Sealer)
    requires n <= |inputs| && Added(items, inputs[..n], seal).None?
    ensures Added(items, inputs, seal).None?
    decreases |inputs| - n
  {
    if n == |inputs| {
      assert inputs[..n] == inputs;
    } else {
      assert inputs[..n + 1][..n] == inputs[..n];
      AddedPrefix(items, inputs, n + 1, seal);
    }
  }

  function Payloads(inputs: seq<Input>): map<string, Payload> {
    if inputs == [] then map[]
    else Payloads(inputs[..|inputs| - 1])[inputs[|inputs| - 1].id := inputs[|inputs| - 1].payload]
  }

  lemma {:induction false} AddedIs(items: seq<Item>, inputs: seq<Input>, seal: Sealer, open: Opener)
    requires UniqueIds(items) && Fits(seal, open) && Added(items, inputs, seal).Some?
    ensures var next := Added(items, inputs, seal).value;
            UniqueIds(next) && Contents(next, open) == Contents(items, open) + Payloads(inputs)
  {
    if inputs != [] {
      var n := |inputs| - 1;
      AddedIs(items, inputs[..n], seal, open);
      var before := Added(items, inputs[..n], seal).value;
      var item := seal(inputs[n], |inputs|);
      AppendUnique(before, item);
      ContentsAppend(before, item, open);
    }
  }

  function Readable(items: seq<Item>, open: Opener): seq<Item> {
    if items == [] then []
    else
      var rest, last := Readable(items[..|items| - 1], open), items[|items| - 1];
      if open(last).None? then rest else rest + [last]
  }

  /** Dropping what does not open changes nothing of what the spool holds. */
  lemma {:induction false} ReadableIs(items: seq<Item>, open: Opener)
    requires UniqueIds(items)
    ensures UniqueIds(Readable(items, open)) && Contents(Readable(items, open), open) == Contents(items, open)
    ensures forall i :: 0 <= i < |Readable(items, open)| ==> open(Readable(items, open)[i]).Some?
    ensures forall id :: HasId(Readable(items, open), id) ==> HasId(items, id)
    ensures |Readable(items, open)| <= |items|
  {
    if items != [] {
      var n := |items| - 1;
      assert UniqueIds(items[..n]);
      ReadableIs(items[..n], open);
      var rest, last := Readable(items[..n], open), items[n];
      forall id | HasId(items[..n], id) ensures HasId(items, id) && id != last.meta.id {
        var i :| 0 <= i < n && items[..n][i].meta.id == id;
        assert items[i].meta.id == id;
      }
      if open(last).Some? {
        ContentsAppend(rest, last, open);
        AppendUnique(rest, last);
        forall id | HasId(rest + [last], id) ensures HasId(items, id) {
          var i :| 0 <= i < |rest| + 1 && (rest + [last])[i].meta.id == id;
          if i < |rest| { assert HasId(rest, id); } else { assert items[n].meta.id == id; }
        }
      }
    }
  }

  /** When nothing is dropped, all items stay. */
  lemma {:induction false} ReadableAll(items: seq<Item>, open: Opener)
    ensures |Readable(items, open)| <= |items|
    ensures |Readable(items, open)| == |items| ==> Readable(items, open) == items
  {
    if items != [] {
      var n := |items| - 1;
      ReadableAll(items[..n], open);
      assert items == items[..n] + [items[n]];
    }
  }

  // ----- The spool over its file and its key store

  /** How a file write ends; after one that is reported as a failure, opening the file again may fail too. */
  datatype Io = Works | Fails(reopens: bool) | FailsAfterEffect(reopens: bool)

  /** What the outside world does during one operation: the key store, a new key, the first nonce, the write. */
  datatype Outside = Outside(keyFails: bool, created: Key, first: nat, io: Io)

  datatype SpoolFile = SpoolFile(keyId: Key, items: seq<Item>)

  /** `disk` is the file and `storeKey` the key in the key store; the rest is memory. */
  datatype Spool = Spool(
    items: seq<Item>, keyId: Option<Key>, hasPersistedItems: bool, disk: Option<SpoolFile>, storeKey: Option<Key>)

  /** `Reopen` is a new process that loads the file. */
  datatype Operation =
    | Enqueue(input: Input, outside: Outside)
    | Replace(remove: set<string>, additions: seq<Input>, outside: Outside)
    | OpenItem(item: Item, outside: Outside)
    | RecoverUnreadable(outside: Outside)
    | Reopen

  function Loaded(file: Option<SpoolFile>, storeKey: Option<Key>): Spool {
    if file.None? then Spool([], None, false, file, storeKey)
    else Spool(file.value.items, Some(file.value.keyId), true, file, storeKey)
  }

  /** loadVerifiedKey: the key store's key, or a new one; None where it throws. */
  function KeyFor(st: Spool, o: Outside): Option<Key> {
    var key := if st.storeKey.Some? then st.storeKey.value else o.created;
    if o.keyFails || (st.storeKey.None? && st.hasPersistedItems) || (st.keyId.Some? && st.keyId.value != key) then None
    else Some(key)
  }

  /** A new key stays in the store even where it does not match. */
  function WithKey(st: Spool, o: Outside): Spool {
    st.(storeKey := if !o.keyFails && st.storeKey.None? && !st.hasPersistedItems then Some(o.created) else st.storeKey,
        keyId := if KeyFor(st, o).Some? then KeyFor(st, o) else st.keyId)
  }

  function DiskAfter(disk: Option<SpoolFile>, target: SpoolFile, io: Io): Option<SpoolFile> {
    if io.Fails? then disk else Some(target)
  }

  /** persist returns: the write works, or the file turns out to be the target all the same. */
  predicate WriteSucceeds(disk: Option<SpoolFile>, target: SpoolFile, io: Io) {
    io.Works? || (io.reopens && DiskAfter(disk, target, io) == Some(target))
  }

  /** The items that an operation writes, if it comes to a write. */
  function Written(st: Spool, hostId: string, op: Operation): Option<seq<Item>> {
    if op.Reopen? || op.OpenItem? || KeyFor(st, op.outside).None? then None
    else
      var key := KeyFor(st, op.outside).value;
      match op
      case Enqueue(input, o) =>
        if HasId(st.items, input.id) then None else Some(st.items + [SealerOf(Aad, key, hostId, o.first)(input, 0)])
      case Replace(remove, additions, o) =>
        Added(Kept(st.items, remove), additions, SealerOf(Aad, key, hostId, o.first))
      case RecoverUnreadable(_) =>
        var readable := Readable(st.items, OpenerOf(Aad, key));
        if |readable| == |st.items| then None else Some(readable)
  }

  predicate Persists(st: Spool, next: seq<Item>, o: Outside) {
    KeyFor(st, o).Some? && WriteSucceeds(st.disk, SpoolFile(KeyFor(st, o).value, next), o.io)
  }

  /** Memory follows a write that persist reports as done. */
  function Stored(st: Spool, next: seq<Item>, o: Outside, marks: bool): Spool
    requires KeyFor(st, o).Some?
  {
    var done := Persists(st, next, o);
    WithKey(st, o).(disk := DiskAfter(st.disk, SpoolFile(KeyFor(st, o).value, next), o.io),
                    items := if done then next else st.items,
                    hasPersistedItems := st.hasPersistedItems || (done && marks && next != []))
  }

  function Next(st: Spool, hostId: string, op: Operation): Spool {
    if op.Reopen? then Loaded(st.disk, st.storeKey)
    else if (op.Enqueue? && HasId(st.items, op.input.id)) || (op.OpenItem? && op.item !in st.items) then st
    else if Written(st, hostId, op).None? then WithKey(st, op.outside)
    else Stored(st, Written(st, hostId, op).value, op.outside, !op.RecoverUnreadable?)
  }

  /** An id that is there is taken again for the same session, Event and kind. */
  predicate Matches(m: Meta, input: Input) {
    m.sessionId == input.sessionId && m.eventId == input.eventId && m.kind == input.kind
  }

  /** The operation returns rather than throws. */
  predicate Succeeds(st: Spool, hostId: string, op: Operation) {
    match op
    case Enqueue(input, o) =>
      if HasId(st.items, input.id)
      then exists item :: item in st.items && item.meta.id == input.id && Matches(item.meta, input)
      else Written(st, hostId, op).Some? && Persists(st, Written(st, hostId, op).value, o)
    case Replace(_, _, o) => Written(st, hostId, op).Some? && Persists(st, Written(st, hostId, op).value, o)
    case OpenItem(item, o) => item in st.items && KeyFor(st, o).Some? && Open(Aad, KeyFor(st, o).value, item).Some?
    case RecoverUnreadable(o) =>
      KeyFor(st, o).Some? && (Written(st, hostId, op).Some? ==> Persists(st, Written(st, hostId, op).value, o))
    case Reopen => true
  }

  /** Memory and file are well-formed, and of one key. */
  ghost predicate SpoolOk(st: Spool) {
    && UniqueIds(st.items) && (st.keyId.None? ==> st.items == []) && (st.disk.None? ==> st.items == [])
    && (st.disk.Some? ==> UniqueIds(st.disk.value.items) && st.keyId == Some(st.disk.value.keyId))
  }

  /** Memory is what the file says. */
  predicate Synced(st: Spool) { st.disk.Some? ==> st.disk.value.items == st.items }

  /** What the spool holds in memory. */
  function Held(st: Spool): map<string, Payload> {
    if st.keyId.None? then map[] else Contents(st.items, OpenerOf(Aad, st.keyId.value))
  }

  /** What its file holds. */
  function FileHeld(st: Spool): map<string, Payload> { Held(Loaded(st.disk, st.storeKey)) }

  // ----- Quarantine

  function InflightId(eventId: string): string { "inflight:event:" + eventId }

  function DeadLetterId(eventId: string): string { "dead-letter:event:" + eventId }

  /** JSON.stringify of a dead-letter record. */
  function RecordText(p: Payload): string
    requires p.DeadLetter?
  {
    "{\"version\":2,\"eventId\":" + JsonBytes.Quoted(p.deadEventId)
    + ",\"sessionId\":" + JsonBytes.Quoted(p.deadSessionId)
    + ",\"reasonCode\":" + JsonBytes.Quoted(p.reason) + ",\"quarantinedAt\":" + JsonBytes.Quoted(p.quarantinedAt)
    + ",\"sourceArchive\":" + ArchiveText(p.source)
    + (if p.inflight.Some? then ",\"inflightArchive\":" + ArchiveText(p.inflight.value) else "") + "}"
  }

  function ArchiveText(bytes: string): string {
    "{\"encoding\":\"base64url\",\"bytes\":" + JsonBytes.Quoted(bytes) + "}"
  }

  /** The bytes of a plaintext. */
  function BytesOf(p: Payload): seq<Byte> { if p.Raw? then p.bytes else Utf8(RecordText(p)) }

  function DeadLetterOf(eventId: string, sessionId: string, reason: string, at: string, source: seq<Byte>,
                        inflight: Option<seq<Byte>>): Payload
  {
    DeadLetter(eventId, sessionId, reason, at, Encode(source),
               if inflight.Some? then Some(Encode(inflight.value)) else None)
  }

  /** The raw bytes decode back from the archive, exactly when there are any: the decoder rejects the empty text. */
  lemma ArchiveDecodesIff(eventId: string, sessionId: string, reason: string, at: string, source: seq<Byte>,
                          inflight: Option<seq<Byte>>)
    ensures var record := DeadLetterOf(eventId, sessionId, reason, at, source, inflight);
            && (Decode(record.source) == Some(source) <==> source != [])
            && (inflight.Some? ==>
                record.inflight.Some? && (Decode(record.inflight.value) == inflight <==> inflight != Some([])))
  {
    DecodeOfEncode(source);
    if inflight.Some? { DecodeOfEncode(inflight.value); }
  }

  datatype Quarantine = Absent | Throws | Done

  /** The first item with the id, as Array.find gives it. */
  function ItemOf(items: seq<Item>, id: string): Option<Item> {
    if items == [] then None else if items[0].meta.id == id then Some(items[0]) else ItemOf(items[1..], id)
  }

  /** What quarantinePendingEventRaw is asked, and what it is told: the proof that the upload was not committed. */
  datatype Request = Request(eventId: string, sessionId: string, reason: string, proven: Option<seq<Byte>>, at: string)

  /** The bytes that an opened item gives. */
  function RawBytes(st: Spool, item: Item, o: Outside): Option<seq<Byte>> {
    var payload := PayloadOf(st, item, o);
    if payload.None? then None else Some(BytesOf(payload.value))
  }

  function PayloadOf(st: Spool, item: Item, o: Outside): Option<Payload> {
    if item !in st.items || KeyFor(st, o).None? then None else Open(Aad, KeyFor(st, o).value, item)
  }

  /** The inflight upload, if there is one, must be the one proven uncommitted. */
  predicate InflightProven(st: Spool, r: Request, o: Outside) {
    var inflight := ItemOf(st.items, InflightId(r.eventId));
    inflight.Some? ==> r.proven.Some? && RawBytes(st, inflight.value, o) == r.proven
  }

  function AfterInflight(st: Spool, hostId: string, r: Request, o: Outside): Spool {
    var inflight := ItemOf(st.items, InflightId(r.eventId));
    if inflight.Some? && r.proven.Some? then Next(st, hostId, OpenItem(inflight.value, o)) else st
  }

  function LetterInput(r: Request, raw: seq<Byte>): Input {
    Input(DeadLetterId(r.eventId), r.sessionId, Some(r.eventId), EventDeadLetter, r.at,
          DeadLetterOf(r.eventId, r.sessionId, r.reason, r.at, raw, r.proven))
  }

  /** The one replacement: source and inflight upload out, the dead letter in. */
  function Swap(r: Request, raw: seq<Byte>, o: Outside): Operation {
    Replace({r.eventId, InflightId(r.eventId)}, [LetterInput(r, raw)], o)
  }

  /** quarantinePendingEventRaw: two reads and one replacement, `a`, `b` and `c` being what happens during each. */
  function Quarantined(st: Spool, hostId: string, r: Request, a: Outside, b: Outside, c: Outside): (Spool, Quarantine) {
    var source := ItemOf(st.items, r.eventId);
    var st1 := AfterInflight(st, hostId, r, a);
    if source.None? then (st, Absent)
    else if !InflightProven(st, r, a) then (st1, Throws)
    else Swapped(st1, hostId, r, source.value, b, c)
  }

  /** The part after the inflight upload is proven: the source is read and swapped. */
  function Swapped(st: Spool, hostId: string, r: Request, source: Item, b: Outside, c: Outside): (Spool, Quarantine) {
    var st', raw := Next(st, hostId, OpenItem(source, b)), RawBytes(st, source, b);
    if raw.None? then (st', Throws)
    else
      var swap := Swap(r, raw.value, c);
      (Next(st', hostId, swap), if Succeeds(st', hostId, swap) then Done else Throws)
  }
}
