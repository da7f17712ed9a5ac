/** The length-prefixed field encoding under every AAD and digest, and its inverse parser. */
module FieldEncoding {
  import opened Wrappers
  import opened Unicode

  function Digit(d: nat): (b: Byte)
    requires d < 10
    ensures IsDigit(b) && Value(b) == d
  {
    0x30 + d
  }

  predicate IsDigit(b: Byte) { 0x30 <= b <= 0x39 }

  function Value(b: int): nat
    requires b >= 0x30
  {
    b - 0x30
  }

  /** The decimal digits of a number, without leading zeros, as String(n) writes them. */
  function Decimal(n: nat): (r: seq<Byte>)
    ensures r != [] && forall i :: 0 <= i < |r| ==> IsDigit(r[i])
  {
    if n < 10 then [Digit(n)] else Decimal(n / 10) + [Digit(n % 10)]
  }

  function Number(digits: seq<Byte>): nat
    requires forall i :: 0 <= i < |digits| ==> IsDigit(digits[i])
  {
    if digits == [] then 0
    else
      var last := digits[|digits| - 1];
      assert IsDigit(last);
      Number(digits[..|digits| - 1]) * 10 + Value(last)
  }

  lemma {:induction false} DecimalRoundTrip(n: nat)
    ensures Number(Decimal(n)) == n
  {
    if n >= 10 {
      DecimalRoundTrip(n / 10);
      assert Decimal(n)[..|Decimal(n)| - 1] == Decimal(n / 10);
    } else {
      assert Decimal(n)[..0] == [];
    }
  }

  lemma DecimalInjective(m: nat, n: nat)
    requires Decimal(m) == Decimal(n)
    ensures m == n
  {
    DecimalRoundTrip(m);
    DecimalRoundTrip(n);
  }

  const COLON: Byte := 0x3A
  const NEWLINE: Byte := 0x0A

  /** One field: its UTF-8 length, a colon, its UTF-8, a newline. */
  function Chunk(field: string): seq<Byte> {
    Decimal(|Utf8(field)|) + [COLON] + Utf8(field) + [NEWLINE]
  }

  function Encoded(fields: seq<string>): seq<Byte> {
    if fields == [] then [] else Chunk(fields[0]) + Encoded(fields[1..])
  }

  // ----- The parser

  /** The number of leading digits. */
  function Digits(bytes: seq<Byte>): (k: nat)
    ensures k <= |bytes| && forall i :: 0 <= i < k ==> IsDigit(bytes[i])
  {
    if bytes == [] || !IsDigit(bytes[0]) then 0 else 1 + Digits(bytes[1..])
  }

  function Parsed(bytes: seq<Byte>): Option<seq<string>>
    decreases |bytes|
  {
    if bytes == [] then Some([])
    else
      var k := Digits(bytes);
      if k == 0 || k == |bytes| || bytes[k] != COLON then None
      else
        var n := Number(bytes[..k]);
        if k + 1 + n >= |bytes| || bytes[k + 1 + n] != NEWLINE then None
        else
          var field := FromUtf8(bytes[k + 1..k + 1 + n]);
          var rest := Parsed(bytes[k + 1 + n + 1..]);
          if field.None? || rest.None? then None else Some([field.value] + rest.value)
  }

  lemma {:induction false} DigitsEnd(digits: seq<Byte>, rest: seq<Byte>)
    requires forall i :: 0 <= i < |digits| ==> IsDigit(digits[i])
    requires rest != [] && !IsDigit(rest[0])
    ensures Digits(digits + rest) == |digits|
  {
    if digits == [] {
      assert digits + rest == rest;
    } else {
      assert (digits + rest)[1..] == digits[1..] + rest;
      DigitsEnd(digits[1..], rest);
    }
  }

  /** The head of an encoded list is read back exactly. */
  lemma ChunkParsed(field: string, rest: seq<Byte>)
    ensures var bytes := Chunk(field) + rest;
            var k, n := |Decimal(|Utf8(field)|)|, |Utf8(field)|;
            && Digits(bytes) == k && Number(bytes[..k]) == n && bytes[k] == COLON && bytes[k + 1 + n] == NEWLINE
            && bytes[k + 1..k + 1 + n] == Utf8(field) && bytes[k + 1 + n + 1..] == rest
  {
    var length := Decimal(|Utf8(field)|);
    Slices(length, Utf8(field), rest);
    var tail := [COLON] + Utf8(field) + [NEWLINE] + rest;
    assert Chunk(field) + rest == length + tail;
    DigitsEnd(length, tail);
    DecimalRoundTrip(|Utf8(field)|);
  }

  lemma Slices(length: seq<Byte>, body: seq<Byte>, rest: seq<Byte>)
    ensures var bytes := length + [COLON] + body + [NEWLINE] + rest;
            var k, n := |length|, |body|;
            && bytes[..k] == length && bytes[k] == COLON && bytes[k + 1..k + 1 + n] == body
            && bytes[k + 1 + n] == NEWLINE && bytes[k + 1 + n + 1..] == rest
  {
  }

  lemma HeadParsed(field: string, rest: seq<Byte>)
    ensures Parsed(Chunk(field) + rest)
            == (if Parsed(rest).Some? then Some([field] + Parsed(rest).value) else None)
  {
    ChunkParsed(field, rest);
    Utf8RoundTrip(field);
  }

  /** The parser undoes the encoder on every list of well-formed strings. */
  lemma {:induction false} EncodedRoundTrip(fields: seq<string>)
    ensures Parsed(Encoded(fields)) == Some(fields)
  {
    if fields != [] {
      HeadParsed(fields[0], Encoded(fields[1..]));
      EncodedRoundTrip(fields[1..]);
      assert fields == [fields[0]] + fields[1..];
    }
  }

  /** Equal encodings are of equal lists. */
  lemma EncodedInjective(a: seq<string>, b: seq<string>)
    requires Encoded(a) == Encoded(b)
    ensures a == b
  {
    EncodedRoundTrip(a);
    EncodedRoundTrip(b);
  }

  lemma {:induction false} EncodedAppend(fields: seq<string>, last: string)
    ensures Encoded(fields + [last]) == Encoded(fields) + Chunk(last)
  {
    if fields == [] {
      assert fields + [last] == [last];
    } else {
      assert (fields + [last])[0] == fields[0] && (fields + [last])[1..] == fields[1..] + [last];
      EncodedAppend(fields[1..], last);
    }
  }

  // ----- The source's loops

  /** Copies `chunk` into `output` at `offset`, as Uint8Array.set does. */
  method CopyAt(output: array<Byte>, offset: nat, chunk: seq<Byte>)
    requires offset + |chunk| <= output.Length
    modifies output
    ensures output[..offset] == old(output[..offset]) && output[offset..offset + |chunk|] == chunk
  {
    for i := 0 to |chunk|
      invariant output[..offset] == old(output[..offset]) && output[offset..offset + i] == chunk[..i]
    {
      output[offset + i] := chunk[i];
      assert output[offset..offset + i + 1] == chunk[..i] + [chunk[i]];
      assert chunk[..i + 1] == chunk[..i] + [chunk[i]];
    }
    assert chunk[..|chunk|] == chunk;
  }

  /** encodeLengthPrefixedFields: sizes first, then one buffer filled chunk by chunk. */
  method EncodeLengthPrefixedFields(fields: seq<string>) returns (output: array<Byte>)
    ensures fresh(output) && output[..] == Encoded(fields)
  {
    var size := 0;
    for i := 0 to |fields|
      invariant size == |Encoded(fields[..i])|
    {
      assert fields[..i + 1] == fields[..i] + [fields[i]];
      EncodedAppend(fields[..i], fields[i]);
      size := size + |Chunk(fields[i])|;
    }
    assert fields[..|fields|] == fields;
    output := new Byte[size](_ => 0);
    var offset := 0;
    for i := 0 to |fields|
      invariant offset == |Encoded(fields[..i])| <= size && output[..offset] == Encoded(fields[..i])
    {
      assert fields[..i + 1] == fields[..i] + [fields[i]];
      EncodedAppend(fields[..i], fields[i]);
      EncodedPrefix(fields, i + 1);
      CopyAt(output, offset, Chunk(fields[i]));
      ghost var next := offset + |Chunk(fields[i])|;
      assert output[..next] == output[..offset] + output[offset..next];
      offset := offset + |Chunk(fields[i])|;
    }
    assert output[..offset] == output[..];
  }

  lemma {:induction false} EncodedPrefix(fields: seq<string>, n: nat)
    requires n <= |fields|
    ensures |Encoded(fields[..n])| <= |Encoded(fields)|
  {
    if n == 0 {
    } else {
      EncodedPrefix(fields[1..], n - 1);
      assert fields[..n][1..] == fields[1..][..n - 1];
    }
  }
}
