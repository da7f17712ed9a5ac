/**
 The protected command receipt: its canonical JSON padded with spaces to one size, and the validator of such bytes.
 */
module ReceiptPadding {
  import opened Wrappers
  import opened Unicode
  import JsonBytes

  const RECEIPT_BYTES := 128

  datatype Status = Executed | Expired | Rejected | Failed

  datatype Receipt = Receipt(accepted: bool, status: Status)

  predicate Valid(r: Receipt) { r.accepted <==> r.status.Executed? }

  function StatusText(status: Status): seq<JsonBytes.Ascii> {
    match status
    case Executed => "executed"
    case Expired => "expired"
    case Rejected => "rejected"
    case Failed => "failed"
  }

  /** The text before its last brace. */
  function Opened(r: Receipt): seq<JsonBytes.Ascii> {
    "{\"version\":1,\"accepted\":" + (if r.accepted then "true" else "false")
    + ",\"status\":\"" + StatusText(r.status) + "\""
  }

  /** What JSON.stringify writes for a receipt. */
  function ReceiptText(r: Receipt): seq<JsonBytes.Ascii> { Opened(r) + "}" }

  function Spaces(n: nat): seq<Byte> { seq(n, _ => 0x20) }

  /** buildProtectedCommandReceiptBytes; None where it throws. */
  function Built(r: Receipt): Option<seq<Byte>> {
    var canonical := Utf8(ReceiptText(r));
    if !Valid(r) || |canonical| > RECEIPT_BYTES then None else Some(canonical + Spaces(RECEIPT_BYTES - |canonical|))
  }

  /** The bytes without the spaces at their end. */
  function Trimmed(bytes: seq<Byte>): seq<Byte> {
    if bytes != [] && bytes[|bytes| - 1] == 0x20 then Trimmed(bytes[..|bytes| - 1]) else bytes
  }

  /** validateProtectedCommandReceiptBytes; `parse` is the JSON parser, None where it throws or gives no receipt. */
  function Validated(bytes: seq<Byte>, parse: string -> Option<Receipt>): Option<Receipt> {
    if |bytes| != RECEIPT_BYTES then None
    else
      var text := FromUtf8(Trimmed(bytes));
      if text.None? then None
      else
        var r := parse(text.value);
        if r.Some? && Valid(r.value) && Built(r.value) == Some(bytes) then r else None
  }

  /** The parser reads what was written for every receipt; of other texts nothing is asked. */
  ghost predicate ParsesReceipts(parse: string -> Option<Receipt>) {
    forall r: Receipt :: Valid(r) ==> parse(ReceiptText(r)) == Some(r)
  }

  lemma CanonicalEnds(r: Receipt)
    ensures var canonical := Utf8(ReceiptText(r));
            0 < |canonical| <= RECEIPT_BYTES && canonical[|canonical| - 1] == 0x7D
  {
    JsonBytes.AsciiLength(ReceiptText(r));
    Utf8Append(Opened(r), "}");
    assert Utf8("}") == [0x7D];
  }

  lemma {:induction false} TrimmedSpaces(bytes: seq<Byte>, n: nat)
    requires bytes != [] && bytes[|bytes| - 1] != 0x20
    ensures Trimmed(bytes + Spaces(n)) == bytes
  {
    if n == 0 {
      assert bytes + Spaces(0) == bytes;
    } else {
      assert (bytes + Spaces(n))[..|bytes| + n - 1] == bytes + Spaces(n - 1);
      TrimmedSpaces(bytes, n - 1);
    }
  }

  /** Every valid receipt can be built, and all are of one size. */
  lemma BuiltIff(r: Receipt)
    ensures Built(r).Some? <==> Valid(r)
    ensures Built(r).Some? ==> |Built(r).value| == RECEIPT_BYTES
  {
    CanonicalEnds(r);
  }

  /** The validator accepts exactly what the builder writes, as the receipt it was built from. */
  lemma ValidatedIff(bytes: seq<Byte>, parse: string -> Option<Receipt>, r: Receipt)
    requires ParsesReceipts(parse)
    ensures Validated(bytes, parse) == Some(r) <==> Built(r) == Some(bytes)
  {
    if Built(r) == Some(bytes) {
      var canonical := Utf8(ReceiptText(r));
      CanonicalEnds(r);
      TrimmedSpaces(canonical, RECEIPT_BYTES - |canonical|);
      Utf8RoundTrip(ReceiptText(r));
    }
  }

  // ----- The source's loops

  /** buildProtectedCommandReceiptBytes: one buffer filled with spaces, then the text over them. */
  method BuildProtectedCommandReceiptBytes(r: Receipt) returns (padded: Option<array<Byte>>)
    ensures padded.Some? <==> Built(r).Some?
    ensures padded.Some? ==> fresh(padded.value) && Some(padded.value[..]) == Built(r)
  {
    var canonical := Utf8(ReceiptText(r));
    if !Valid(r) || |canonical| > RECEIPT_BYTES { return None; }
    var buffer := new Byte[RECEIPT_BYTES](_ => 0x20);
    Overwrite(buffer, canonical);
    padded := Some(buffer);
  }

  /** `padded.set(canonical)` on a buffer of spaces. */
  method Overwrite(buffer: array<Byte>, canonical: seq<Byte>)
    requires |canonical| <= buffer.Length && forall k :: 0 <= k < buffer.Length ==> buffer[k] == 0x20
    modifies buffer
    ensures buffer[..] == canonical + Spaces(buffer.Length - |canonical|)
  {
    for i := 0 to |canonical|
      invariant buffer[..i] == canonical[..i]
      invariant forall k :: i <= k < buffer.Length ==> buffer[k] == 0x20
    {
      buffer[i] := canonical[i];
      assert buffer[..i + 1] == buffer[..i] + [canonical[i]];
    }
    assert buffer[..|canonical|] == canonical;
  }

  /** validateProtectedCommandReceiptBytes: the loop back over the spaces, the parse, and the bytes built again. */
  method ValidateProtectedCommandReceiptBytes(bytes: seq<Byte>, parse: string -> Option<Receipt>)
      returns (r: Option<Receipt>)
    ensures r == Validated(bytes, parse)
  {
    if |bytes| != RECEIPT_BYTES { return None; }
    var end := |bytes|;
    assert bytes[..end] == bytes;
    while end > 0 && bytes[end - 1] == 0x20
      invariant 0 <= end <= |bytes| && Trimmed(bytes[..end]) == Trimmed(bytes)
    {
      assert bytes[..end][..end - 1] == bytes[..end - 1];
      end := end - 1;
    }
    assert Trimmed(bytes) == bytes[..end];
    var text := FromUtf8(bytes[..end]);
    if text.None? { return None; }
    r := parse(text.value);
    if r.None? || !Valid(r.value) { return None; }
    var rebuilt := BuildProtectedCommandReceiptBytes(r.value);
    if rebuilt.None? || rebuilt.value[..] != bytes { return None; }
  }
}
