/** Every AAD, transcript and envelope binding as a list of fields, and reading the inputs back from the bytes. */
module BindingBytes {
  import opened Wrappers
  import opened FieldEncoding

  // ----- Numbers as text

  predicate IsDigitChar(c: char) { '0' <= c <= '9' }

  /** String(n) of a natural number. */
  function Show(n: nat): (s: string)
    ensures s != "" && forall i :: 0 <= i < |s| ==> IsDigitChar(s[i])
  {
    if n < 10 then [('0' as int + n) as char] else Show(n / 10) + [('0' as int + n % 10) as char]
  }

  function Read(s: string): nat {
    if s == "" || !IsDigitChar(s[|s| - 1]) then 0 else Read(s[..|s| - 1]) * 10 + (s[|s| - 1] as int - '0' as int)
  }

  lemma {:induction false} ShowRead(n: nat)
    ensures Read(Show(n)) == n
  {
    if n >= 10 {
      ShowRead(n / 10);
      assert Show(n)[..|Show(n)| - 1] == Show(n / 10);
    } else {
      assert Show(n)[..0] == "";
    }
  }

  // ----- The builders' inputs

  datatype EventKind = Done | NeedHuman

  datatype Content = Content(version: nat, suite: string, contentId: string, payloadKind: string, nonce: string,
                             ciphertext: string)

  datatype Wrap = Wrap(
    version: nat, suite: string, contentId: string, linkId: string, generation: nat, epoch: nat,
    sender: string, recipient: string, nonce: string, ciphertext: string)

  /** One call of one builder.  A reply envelope has a target, an interrupt envelope has none. */
  datatype Binding =
    | EncryptionBinding(entityType: string, entityId: string, identityKeyId: string, encryptionKeyId: string,
                        suite: string,
                        sequence: nat, createdAt: string, publicKey: string)
    | LinkTranscript(linkId: string, hostId: string, watchId: string, generation: nat, epoch: nat,
                     hostDigest: string, watchDigest: string, suite: string)
    | ConfirmationProof(role: string, digest: string)
    | SafetyCode(digest: string, generation: nat, epoch: nat)
    | EventContent(hostId: string, sessionId: string, provider: string, eventId: string, kind: EventKind,
                   createdAt: string, contentId: string)
    | SessionContent(hostId: string, sessionId: string, provider: string, status: string, updatedAt: string,
                     lastEventId: Option<string>, snoozedUntil: Option<string>, revision: nat, contentId: string)
    | ReplyContent(hostId: string, watchId: string, sessionId: string, commandId: string, targetEventId: string,
                   issuedAt: string, expiresAt: string, nonce: string, contentId: string)
    | InterruptContent(hostId: string, watchId: string, sessionId: string, commandId: string,
                       issuedAt: string, expiresAt: string, nonce: string, contentId: string)
    | ReceiptContent(hostId: string, watchId: string, sessionId: string, commandId: string, commandType: string,
                     digest: string, completedAt: string, contentId: string)
    | NotificationPreview(hostId: string, watchId: string, eventId: string, sessionId: string, eventType: string,
                          linkId: string,
                          generation: nat, epoch: nat, sender: string, recipient: string, contentId: string)
    | WrapAad(direction: string, linkId: string, generation: nat, epoch: nat, hostId: string, watchId: string,
              sender: string, recipient: string, contentId: string, payloadKind: string)
    | CommandEnvelope(hostId: string, watchId: string, sessionId: string, commandId: string, target: Option<string>,
                      issuedAt: string, expiresAt: string, nonce: string, linkId: string, generation: nat, epoch: nat,
                      content: Content, wrap: Wrap)
    | ReceiptEnvelope(version: nat, hostId: string, watchId: string, sessionId: string, commandId: string,
                      commandType: string,
                      digest: string, completedAt: string, linkId: string, generation: nat, epoch: nat,
                      content: Content, wrap: Wrap)

  function KindName(k: EventKind): string { if k.Done? then "done" else "need_human" }

  function StatusName(k: EventKind): string { if k.Done? then "idle" else "need_human" }

  /** An optional field that is absent is written as the empty string. */
  function OrEmpty(o: Option<string>): string { if o.Some? then o.value else "" }

  function WrapDomain(payloadKind: string): string {
    if payloadKind == "reply-content-v1" || payloadKind == "interrupt-content-v1" then "ariava-wrap-aad-v1"
    else "ariava-wrap-aad-v2"
  }

  function ContentFields(c: Content): seq<string> {
    [Show(c.version), c.suite, c.contentId, c.payloadKind, c.nonce, c.ciphertext]
  }

  function WrapFields(w: Wrap): seq<string> {
    [Show(w.version), w.suite, w.contentId, w.linkId, Show(w.generation), Show(w.epoch), w.sender, w.recipient,
     w.nonce, w.ciphertext]
  }

  function Fields(b: Binding): seq<string> {
    match b
    case EncryptionBinding(entityType, entityId, identityKeyId, encryptionKeyId, suite, sequence, createdAt,
                           publicKey) =>
      ["ariava-e2e-binding-v1", entityType, entityId, identityKeyId, encryptionKeyId, suite, Show(sequence), createdAt,
       publicKey]
    case LinkTranscript(linkId, hostId, watchId, generation, epoch, hostDigest, watchDigest, suite) =>
      ["ariava-e2e-link-transcript-v1", linkId, hostId, watchId, Show(generation), Show(epoch), hostDigest,
       watchDigest, suite]
    case ConfirmationProof(role, digest) => ["ariava-e2e-confirmation-proof-v1", role, digest]
    case SafetyCode(digest, generation, epoch) => ["ariava-e2e-safety-code-v1", digest, Show(generation), Show(epoch)]
    case EventContent(hostId, sessionId, provider, eventId, kind, createdAt, contentId) =>
      ["ariava-event-content-aad-v3", "bridge-to-watch", hostId, sessionId, provider, eventId, KindName(kind),
       StatusName(kind),
       createdAt, contentId, "event-content-v3"]
    case SessionContent(hostId, sessionId, provider, status, updatedAt, lastEventId, snoozedUntil, revision,
                        contentId) =>
      ["ariava-session-content-aad-v3", "bridge-to-watch", hostId, sessionId, provider, status, updatedAt,
       OrEmpty(lastEventId),
       OrEmpty(snoozedUntil), Show(revision), contentId, "session-content-v3"]
    case ReplyContent(hostId, watchId, sessionId, commandId, targetEventId, issuedAt, expiresAt, nonce, contentId) =>
      ["ariava-content-aad-v1", "watch-to-bridge", hostId, watchId, sessionId, commandId, targetEventId, issuedAt,
       expiresAt, nonce,
       contentId, "reply-content-v1"]
    case InterruptContent(hostId, watchId, sessionId, commandId, issuedAt, expiresAt, nonce, contentId) =>
      ["ariava-interrupt-content-aad-v1", "watch-to-bridge", hostId, watchId, sessionId, commandId, "interrupt",
       issuedAt, expiresAt,
       nonce, contentId, "interrupt-content-v1"]
    case ReceiptContent(hostId, watchId, sessionId, commandId, commandType, digest, completedAt, contentId) =>
      ["ariava-command-receipt-content-aad-v1", "bridge-to-watch", hostId, watchId, sessionId, commandId, commandType,
       digest,
       completedAt, contentId, "command-receipt-content-v1"]
    case NotificationPreview(hostId, watchId, eventId, sessionId, eventType, linkId, generation, epoch, sender,
                             recipient, contentId) =>
      ["ariava-notification-preview-aad-v2", "bridge-to-watch", hostId, watchId, eventId, sessionId, eventType, linkId,
       Show(generation), Show(epoch), sender, recipient, contentId, "notification-preview-v2"]
    case WrapAad(direction, linkId, generation, epoch, hostId, watchId, sender, recipient, contentId, payloadKind) =>
      [WrapDomain(payloadKind), direction, linkId, Show(generation), Show(epoch), hostId, watchId, sender, recipient,
       contentId,
       payloadKind]
    case CommandEnvelope(hostId, watchId, sessionId, commandId, target, issuedAt, expiresAt, nonce, linkId, generation,
                         epoch,
                         content, wrap) =>
      ["ariava-encrypted-command-binding-v1", hostId, watchId, sessionId, commandId,
       if target.Some? then "reply" else "interrupt",
       OrEmpty(target), issuedAt, expiresAt, nonce, linkId, Show(generation), Show(epoch)]
      + ContentFields(content) + WrapFields(wrap)
    case ReceiptEnvelope(version, hostId, watchId, sessionId, commandId, commandType, digest, completedAt, linkId,
                         generation, epoch,
                         content, wrap) =>
      ["ariava-command-receipt-binding-v1", Show(version), hostId, watchId, sessionId, commandId, commandType, digest,
       completedAt,
       linkId, Show(generation), Show(epoch)]
      + ContentFields(content) + WrapFields(wrap)
  }

  /** The builders reject an optional Event id or timestamp that is present but empty. */
  predicate Accepted(b: Binding) {
    b.SessionContent? ==> b.lastEventId != Some("") && b.snoozedUntil != Some("")
  }

  // ----- Reading back

  function ReadOptional(s: string): Option<string> { if s == "" then None else Some(s) }

  function ReadContent(f: seq<string>): Content
    requires |f| == 6
  {
    Content(Read(f[0]), f[1], f[2], f[3], f[4], f[5])
  }

  function ReadWrap(f: seq<string>): Wrap
    requires |f| == 10
  {
    Wrap(Read(f[0]), f[1], f[2], f[3], Read(f[4]), Read(f[5]), f[6], f[7], f[8], f[9])
  }

  function ReadEncryptionBinding(f: seq<string>): Binding
    requires |f| == 9
  {
    EncryptionBinding(f[1], f[2], f[3], f[4], f[5], Read(f[6]), f[7], f[8])
  }

  function ReadLinkTranscript(f: seq<string>): Binding
    requires |f| == 9
  {
    LinkTranscript(f[1], f[2], f[3], Read(f[4]), Read(f[5]), f[6], f[7], f[8])
  }

  function ReadConfirmationProof(f: seq<string>): Binding
    requires |f| == 3
  {
    ConfirmationProof(f[1], f[2])
  }

  function ReadSafetyCode(f: seq<string>): Binding
    requires |f| == 4
  {
    SafetyCode(f[1], Read(f[2]), Read(f[3]))
  }

  function ReadEventContent(f: seq<string>): Binding
    requires |f| == 11
  {
    EventContent(f[2], f[3], f[4], f[5], if f[6] == "done" then Done else NeedHuman, f[8], f[9])
  }

  function ReadSessionContent(f: seq<string>): Binding
    requires |f| == 12
  {
    SessionContent(f[2], f[3], f[4], f[5], f[6], ReadOptional(f[7]), ReadOptional(f[8]), Read(f[9]), f[10])
  }

  function ReadReplyContent(f: seq<string>): Binding
    requires |f| == 12
  {
    ReplyContent(f[2], f[3], f[4], f[5], f[6], f[7], f[8], f[9], f[10])
  }

  function ReadInterruptContent(f: seq<string>): Binding
    requires |f| == 12
  {
    InterruptContent(f[2], f[3], f[4], f[5], f[7], f[8], f[9], f[10])
  }

  function ReadReceiptContent(f: seq<string>): Binding
    requires |f| == 11
  {
    ReceiptContent(f[2], f[3], f[4], f[5], f[6], f[7], f[8], f[9])
  }

  function ReadNotificationPreview(f: seq<string>): Binding
    requires |f| == 14
  {
    NotificationPreview(f[2], f[3], f[4], f[5], f[6], f[7], Read(f[8]), Read(f[9]), f[10], f[11], f[12])
  }

  function ReadWrapAad(f: seq<string>): Binding
    requires |f| == 11
  {
    WrapAad(f[1], f[2], Read(f[3]), Read(f[4]), f[5], f[6], f[7], f[8], f[9], f[10])
  }

  function ReadCommandEnvelope(f: seq<string>): Binding
    requires |f| == 29
  {
    CommandEnvelope(f[1], f[2], f[3], f[4], if f[5] == "reply" then Some(f[6]) else None, f[7], f[8], f[9], f[10],
                    Read(f[11]), Read(f[12]), ReadContent(f[13..19]), ReadWrap(f[19..]))
  }

  function ReadReceiptEnvelope(f: seq<string>): Binding
    requires |f| == 28
  {
    ReceiptEnvelope(Read(f[1]), f[2], f[3], f[4], f[5], f[6], f[7], f[8], f[9], Read(f[10]), Read(f[11]),
                    ReadContent(f[12..18]), ReadWrap(f[18..]))
  }

  /** Which builder a domain names: the domains differ in length, or in their eighth letter. */
  function BuilderOf(domain: string): nat {
    match |domain|
    case 21 => if domain[7] == 'e' then 0 else 6
    case 29 => if domain[7] == 'e' then 1 else 5
    case 32 => 2
    case 25 => 3
    case 27 => 4
    case 31 => 7
    case 37 => 8
    case 34 => 9
    case 18 => 10
    case 35 => 11
    case 33 => 12
    case _ => 13
  }

  function FieldCount(builder: nat): nat {
    match builder
    case 0 => 9
    case 1 => 9
    case 2 => 3
    case 3 => 4
    case 4 => 11
    case 5 => 12
    case 6 => 12
    case 7 => 12
    case 8 => 11
    case 9 => 14
    case 10 => 11
    case 11 => 29
    case 12 => 28
    case _ => 0
  }

  /** The only call that can have written these fields: the domain says which builder, the position which field. */
  function FromFields(f: seq<string>): Option<Binding> {
    if f == [] || |f| != FieldCount(BuilderOf(f[0])) then None
    else
      match BuilderOf(f[0])
      case 0 => Some(ReadEncryptionBinding(f))
      case 1 => Some(ReadLinkTranscript(f))
      case 2 => Some(ReadConfirmationProof(f))
      case 3 => Some(ReadSafetyCode(f))
      case 4 => Some(ReadEventContent(f))
      case 5 => Some(ReadSessionContent(f))
      case 6 => Some(ReadReplyContent(f))
      case 7 => Some(ReadInterruptContent(f))
      case 8 => Some(ReadReceiptContent(f))
      case 9 => Some(ReadNotificationPreview(f))
      case 10 => Some(ReadWrapAad(f))
      case 11 => Some(ReadCommandEnvelope(f))
      case 12 => Some(ReadReceiptEnvelope(f))
      case _ => None
  }

  lemma ContentReadBack(c: Content)
    ensures ReadContent(ContentFields(c)) == c
  {
    ShowRead(c.version);
  }

  lemma WrapReadBack(w: Wrap)
    ensures ReadWrap(WrapFields(w)) == w
  {
    ShowRead(w.version);
    ShowRead(w.generation);
    ShowRead(w.epoch);
  }

  lemma EncryptionBindingReadBack(b: Binding)
    requires b.EncryptionBinding?
    ensures FromFields(Fields(b)) == Some(b)
  {
    ShowRead(b.sequence);
  }

  lemma LinkTranscriptReadBack(b: Binding)
    requires b.LinkTranscript?
    ensures FromFields(Fields(b)) == Some(b)
  {
    ShowRead(b.generation);
    ShowRead(b.epoch);
  }

  lemma ConfirmationProofReadBack(b: Binding)
    requires b.ConfirmationProof?
    ensures FromFields(Fields(b)) == Some(b)
  {
  }

  lemma SafetyCodeReadBack(b: Binding)
    requires b.SafetyCode?
    ensures FromFields(Fields(b)) == Some(b)
  {
    ShowRead(b.generation);
    ShowRead(b.epoch);
  }

  lemma EventContentReadBack(b: Binding)
    requires b.EventContent?
    ensures FromFields(Fields(b)) == Some(b)
  {
  }

  lemma SessionContentReadBack(b: Binding)
    requires b.SessionContent? && Accepted(b)
    ensures FromFields(Fields(b)) == Some(b)
  {
    ShowRead(b.revision);
  }

  lemma ReplyContentReadBack(b: Binding)
    requires b.ReplyContent?
    ensures FromFields(Fields(b)) == Some(b)
  {
  }

  lemma InterruptContentReadBack(b: Binding)
    requires b.InterruptContent?
    ensures FromFields(Fields(b)) == Some(b)
  {
  }

  lemma ReceiptContentReadBack(b: Binding)
    requires b.ReceiptContent?
    ensures FromFields(Fields(b)) == Some(b)
  {
  }

  lemma NotificationPreviewReadBack(b: Binding)
    requires b.NotificationPreview?
    ensures FromFields(Fields(b)) == Some(b)
  {
    ShowRead(b.generation);
    ShowRead(b.epoch);
  }

  lemma WrapAadReadBack(b: Binding)
    requires b.WrapAad?
    ensures FromFields(Fields(b)) == Some(b)
  {
    ShowRead(b.generation);
    ShowRead(b.epoch);
  }

  lemma CommandEnvelopeReadBack(b: Binding)
    requires b.CommandEnvelope?
    ensures FromFields(Fields(b)) == Some(b)
  {
    ShowRead(b.generation);
    ShowRead(b.epoch);
    ContentReadBack(b.content);
    WrapReadBack(b.wrap);
    assert Fields(b)[13..19] == ContentFields(b.content) && Fields(b)[19..] == WrapFields(b.wrap);
  }

  lemma ReceiptEnvelopeReadBack(b: Binding)
    requires b.ReceiptEnvelope?
    ensures FromFields(Fields(b)) == Some(b)
  {
    ShowRead(b.version);
    ShowRead(b.generation);
    ShowRead(b.epoch);
    ContentReadBack(b.content);
    WrapReadBack(b.wrap);
    assert Fields(b)[12..18] == ContentFields(b.content) && Fields(b)[18..] == WrapFields(b.wrap);
  }

  /** The fields determine the builder and its inputs, absent optional ones included. */
  lemma FieldsReadBack(b: Binding)
    requires Accepted(b)
    ensures FromFields(Fields(b)) == Some(b)
  {
    match b
    case EncryptionBinding(_, _, _, _, _, _, _, _) => EncryptionBindingReadBack(b);
    case LinkTranscript(_, _, _, _, _, _, _, _) => LinkTranscriptReadBack(b);
    case ConfirmationProof(_, _) => ConfirmationProofReadBack(b);
    case SafetyCode(_, _, _) => SafetyCodeReadBack(b);
    case EventContent(_, _, _, _, _, _, _) => EventContentReadBack(b);
    case SessionContent(_, _, _, _, _, _, _, _, _) => SessionContentReadBack(b);
    case ReplyContent(_, _, _, _, _, _, _, _, _) => ReplyContentReadBack(b);
    case InterruptContent(_, _, _, _, _, _, _, _) => InterruptContentReadBack(b);
    case ReceiptContent(_, _, _, _, _, _, _, _) => ReceiptContentReadBack(b);
    case NotificationPreview(_, _, _, _, _, _, _, _, _, _, _) => NotificationPreviewReadBack(b);
    case WrapAad(_, _, _, _, _, _, _, _, _, _) => WrapAadReadBack(b);
    case CommandEnvelope(_, _, _, _, _, _, _, _, _, _, _, _, _) => CommandEnvelopeReadBack(b);
    case ReceiptEnvelope(_, _, _, _, _, _, _, _, _, _, _, _, _) => ReceiptEnvelopeReadBack(b);
  }

  /** Equal bytes come from the same builder on equal inputs. */
  lemma BytesDetermineBinding(a: Binding, b: Binding)
    requires Accepted(a) && Accepted(b)
    ensures Encoded(Fields(a)) == Encoded(Fields(b)) ==> a == b
  {
    if Encoded(Fields(a)) == Encoded(Fields(b)) {
      EncodedInjective(Fields(a), Fields(b));
      FieldsReadBack(a);
      FieldsReadBack(b);
    }
  }
}
