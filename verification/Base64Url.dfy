/** Canonical unpadded base64url (RFC 4648, sections 3.5 and 5). */
module Base64Url {
  import opened Wrappers
  import opened Unicode

  type Sextet = n: int | 0 <= n < 64

  /** The standard alphabet (RFC 4648, section 4). */
  function Letter(n: Sextet): char {
    if n < 26 then ('A' as int + n) as char
    else if n < 52 then ('a' as int + (n - 26)) as char
    else if n < 62 then ('0' as int + (n - 52)) as char
    else if n == 62 then '+' else '/'
  }

  function UrlLetter(c: char): char { if c == '+' then '-' else if c == '/' then '_' else c }

  function Code(n: Sextet): char { UrlLetter(Letter(n)) }

  /** The value of a base64url letter. */
  function ValueOf(c: char): Option<Sextet> {
    if 'A' <= c <= 'Z' then Some(c as int - 'A' as int)
    else if 'a' <= c <= 'z' then Some(c as int - 'a' as int + 26)
    else if '0' <= c <= '9' then Some(c as int - '0' as int + 52)
    else if c == '-' then Some(62)
    else if c == '_' then Some(63)
    else None
  }

  lemma CodeHasValue(n: Sextet)
    ensures ValueOf(Code(n)) == Some(n)
  {
  }

  lemma ValueHasCode(c: char)
    requires ValueOf(c).Some?
    ensures Code(ValueOf(c).value) == c
  {
  }

  // ----- Numbers as bits

  /** The low `w` bits of a number, the highest first. */
  function Bits(n: nat, w: nat): (r: seq<bool>)
    ensures |r| == w
  {
    if w == 0 then [] else Bits(n / 2, w - 1) + [n % 2 == 1]
  }

  function Number(bits: seq<bool>): nat {
    if bits == [] then 0 else Number(bits[..|bits| - 1]) * 2 + (if bits[|bits| - 1] then 1 else 0)
  }

  function Power(w: nat): nat { if w == 0 then 1 else 2 * Power(w - 1) }

  lemma {:induction false} NumberOfBits(n: nat, w: nat)
    requires n < Power(w)
    ensures Number(Bits(n, w)) == n
  {
    if w > 0 {
      NumberOfBits(n / 2, w - 1);
      assert Bits(n, w)[..w - 1] == Bits(n / 2, w - 1);
    }
  }

  lemma {:induction false} BitsOfNumber(bits: seq<bool>)
    ensures Number(bits) < Power(|bits|) && Bits(Number(bits), |bits|) == bits
  {
    if bits != [] {
      BitsOfNumber(bits[..|bits| - 1]);
      assert bits == bits[..|bits| - 1] + [bits[|bits| - 1]];
    }
  }

  lemma Powers()
    ensures Power(6) == 64 && Power(8) == 256
  {
    assert Power(4) == 16;
    assert Power(6) == 4 * Power(4);
    assert Power(8) == 4 * Power(6);
  }

  // ----- Lists of numbers as one string of bits

  function Flat(values: seq<nat>, w: nat): (r: seq<bool>)
    ensures |r| == |values| * w
  {
    if values == [] then [] else Bits(values[0], w) + Flat(values[1..], w)
  }

  /** The numbers in the whole groups of `w` bits. */
  function Groups(bits: seq<bool>, w: nat): (r: seq<nat>)
    requires w > 0
  {
    if |bits| < w then [] else [Number(bits[..w])] + Groups(bits[w..], w)
  }

  lemma {:induction false} GroupsOfFlat(values: seq<nat>, w: nat)
    requires w > 0 && forall i :: 0 <= i < |values| ==> values[i] < Power(w)
    ensures Groups(Flat(values, w), w) == values
  {
    if values != [] {
      var bits := Flat(values, w);
      assert |bits| >= w && bits[..w] == Bits(values[0], w) && bits[w..] == Flat(values[1..], w);
      NumberOfBits(values[0], w);
      GroupsOfFlat(values[1..], w);
      assert values == [values[0]] + values[1..];
    }
  }

  lemma {:induction false} FlatOfGroups(bits: seq<bool>, w: nat, count: nat)
    requires w > 0 && |bits| == count * w
    ensures Flat(Groups(bits, w), w) == bits && |Groups(bits, w)| == count
    ensures forall i :: 0 <= i < |Groups(bits, w)| ==> Groups(bits, w)[i] < Power(w)
  {
    if count > 0 {
      assert count * w == (count - 1) * w + w;
      FlatOfGroups(bits[w..], w, count - 1);
      BitsOfNumber(bits[..w]);
      FlatOfCons(Number(bits[..w]), Groups(bits[w..], w), w);
      assert bits == bits[..w] + bits[w..];
    }
  }

  lemma FlatOfCons(value: nat, values: seq<nat>, w: nat)
    ensures Flat([value] + values, w) == Bits(value, w) + Flat(values, w)
  {
    assert ([value] + values)[1..] == values;
  }

  function Zeros(n: nat): (r: seq<bool>)
    ensures |r| == n && forall i :: 0 <= i < n ==> !r[i]
  {
    seq(n, i => false)
  }

  /** The numbers of zero bits that fill `n` bits up to whole sextets. */
  function Fill(n: nat): nat { (6 - n % 6) % 6 }

  /** The bytes' bits in groups of six, the last one filled up with zero bits. */
  function Sextets(bytes: seq<Byte>): (v: seq<Sextet>)
  {
    var bits := Flat(bytes, 8);
    AllSextets(bits + Zeros(Fill(|bits|)));
    Groups(bits + Zeros(Fill(|bits|)), 6)
  }

  /** The whole bytes in some sextets; left-over bits are dropped, as atob drops them. */
  function Octets(v: seq<Sextet>): (bytes: seq<Byte>) {
    var bits := Flat(v, 6);
    AllBytes(bits[..|bits| - |bits| % 8]);
    Groups(bits[..|bits| - |bits| % 8], 8)
  }

  lemma AllSextets(bits: seq<bool>)
    requires |bits| % 6 == 0
    ensures forall i :: 0 <= i < |Groups(bits, 6)| ==> Groups(bits, 6)[i] < 64
  {
    FlatOfGroups(bits, 6, |bits| / 6);
    Powers();
  }

  lemma AllBytes(bits: seq<bool>)
    requires |bits| % 8 == 0
    ensures forall i :: 0 <= i < |Groups(bits, 8)| ==> Groups(bits, 8)[i] < 256
  {
    FlatOfGroups(bits, 8, |bits| / 8);
    Powers();
  }

  /** The bits that belong to no byte are zero (RFC 4648, section 3.5). */
  predicate LeftoverIsZero(v: seq<Sextet>) {
    var bits := Flat(v, 6);
    forall i :: |bits| - |bits| % 8 <= i < |bits| ==> !bits[i]
  }

  /** Twenty-four bits are whole sextets and whole bytes. */
  lemma {:induction false} WholeGroups(j: nat, r: nat)
    ensures (24 * j + r) % 6 == r % 6 && (24 * j + r) % 8 == r % 8
  {
    if j > 0 {
      WholeGroups(j - 1, r);
      assert 24 * j + r == 24 * (j - 1) + r + 24;
    }
  }

  /** Filling eight-bit bytes up to sextets adds less than a byte. */
  lemma FillCounts(n: nat, filled: nat)
    requires filled == 8 * n + Fill(8 * n)
    ensures filled % 6 == 0 && filled - filled % 8 == 8 * n
    ensures filled / 6 % 4 != 1 && filled / 6 == (4 * n + 2) / 3
  {
    var j, c := n / 3, n % 3;
    assert 8 * n == 24 * j + 8 * c;
    WholeGroups(j, 8 * c);
    var r := if c == 0 then 0 else if c == 1 then 12 else 18;
    assert filled == 24 * j + r;
    WholeGroups(j, r);
    assert filled / 6 == 4 * j + r / 6;
  }

  /** A possible number of sextets is the whole bytes in it, filled up. */
  lemma DropCounts(k: nat, whole: nat)
    requires k % 4 != 1 && whole == 6 * k - 6 * k % 8
    ensures whole % 8 == 0 && whole + Fill(whole) == 6 * k
  {
    var j, c := k / 4, k % 4;
    assert 6 * k == 24 * j + 6 * c;
    WholeGroups(j, 6 * c);
    var r := if c == 0 then 0 else if c == 2 then 8 else 16;
    assert whole == 24 * j + r;
    WholeGroups(j, r);
  }

  lemma OctetsOfSextets(bytes: seq<Byte>)
    ensures Octets(Sextets(bytes)) == bytes
    ensures |Sextets(bytes)| % 4 != 1 && LeftoverIsZero(Sextets(bytes))
    ensures |Sextets(bytes)| == (4 * |bytes| + 2) / 3
  {
    var bits := Flat(bytes, 8);
    var filled := bits + Zeros(Fill(|bits|));
    FillCounts(|bytes|, |filled|);
    FlatOfGroups(filled, 6, |filled| / 6);
    assert filled[..|bits|] == bits;
    Powers();
    GroupsOfFlat(bytes, 8);
  }

  lemma SextetsOfOctets(v: seq<Sextet>)
    requires |v| % 4 != 1
    ensures Sextets(Octets(v)) == v <==> LeftoverIsZero(v)
  {
    var bits := Flat(v, 6);
    var whole := bits[..|bits| - |bits| % 8];
    DropCounts(|v|, |whole|);
    FlatOfGroups(whole, 8, |whole| / 8);
    var filled := whole + Zeros(Fill(|whole|));
    assert Sextets(Octets(v)) == Groups(filled, 6);
    GroupsDiffer(v, filled);
    assert filled == bits <==> LeftoverIsZero(v) by {
      if filled == bits {
        forall i | |whole| <= i < |bits| ensures !bits[i] { assert filled[i] == bits[i]; }
      }
    }
  }

  lemma GroupsDiffer(v: seq<Sextet>, filled: seq<bool>)
    requires |filled| == 6 * |v|
    ensures Groups(filled, 6) == v <==> filled == Flat(v, 6)
  {
    FlatOfGroups(filled, 6, |v|);
    Powers();
    GroupsOfFlat(v, 6);
  }

  function Letters(v: seq<Sextet>): (s: string)
    ensures |s| == |v| && forall i :: 0 <= i < |v| ==> s[i] == Code(v[i])
  {
    seq(|v|, i requires 0 <= i < |v| => Code(v[i]))
  }

  predicate InAlphabet(s: string) { forall i :: 0 <= i < |s| ==> ValueOf(s[i]).Some? }

  function Values(s: string): (v: seq<Sextet>)
    requires InAlphabet(s)
    ensures |v| == |s| && forall i :: 0 <= i < |s| ==> Some(v[i]) == ValueOf(s[i])
  {
    seq(|s|, i requires 0 <= i < |s| => ValueOf(s[i]).value)
  }

  function Encode(bytes: seq<Byte>): string { Letters(Sextets(bytes)) }

  /** base64UrlDecode without an expected length; None where it throws. */
  function Decode(s: string): Option<seq<Byte>> {
    if s == "" || !InAlphabet(s) || |s| % 4 == 1 then None
    else
      var bytes := Octets(Values(s));
      if Encode(bytes) == s then Some(bytes) else None
  }

  lemma ValuesOfLetters(v: seq<Sextet>)
    ensures InAlphabet(Letters(v)) && Values(Letters(v)) == v
  {
    forall i | 0 <= i < |v| ensures ValueOf(Letters(v)[i]) == Some(v[i]) { CodeHasValue(v[i]); }
  }

  lemma LettersOfValues(s: string)
    requires InAlphabet(s)
    ensures Letters(Values(s)) == s
  {
    forall i | 0 <= i < |s| ensures Letters(Values(s))[i] == s[i] { ValueHasCode(s[i]); }
  }

  /** Decoding undoes encoding, except of no bytes at all, which the decoder rejects. */
  lemma DecodeOfEncode(bytes: seq<Byte>)
    ensures Decode(Encode(bytes)) == if bytes == [] then None else Some(bytes)
    ensures |Encode(bytes)| == (4 * |bytes| + 2) / 3
  {
    OctetsOfSextets(bytes);
    ValuesOfLetters(Sextets(bytes));
  }

  /** Exactly the letters of the alphabet, in a possible number, with no left-over bit set, are accepted. */
  lemma DecodeAcceptsIff(s: string)
    ensures Decode(s).Some? <==> s != "" && InAlphabet(s) && |s| % 4 != 1 && LeftoverIsZero(Values(s))
  {
    if s != "" && InAlphabet(s) && |s| % 4 != 1 {
      SextetsOfOctets(Values(s));
      LettersOfValues(s);
      ValuesOfLetters(Sextets(Octets(Values(s))));
    }
  }

  /** base64UrlDecode with the number of bytes that the caller expects, if any. */
  function DecodeSized(s: string, expected: Option<nat>): Option<seq<Byte>> {
    var bytes := Decode(s);
    if bytes.Some? && expected.Some? && |bytes.value| != expected.value then None else bytes
  }

  /** What is accepted has three bytes for four letters, so the expected number can be told from the text. */
  lemma SizedAcceptsIff(s: string, expected: Option<nat>)
    ensures DecodeSized(s, expected).Some?
            <==> s != "" && InAlphabet(s) && |s| % 4 != 1 && LeftoverIsZero(Values(s))
                 && (expected.Some? ==> expected.value == 3 * |s| / 4)
  {
    DecodeAcceptsIff(s);
    if Decode(s).Some? {
      var bytes := Decode(s).value;
      OctetsOfSextets(bytes);
      assert |s| == |Encode(bytes)| == (4 * |bytes| + 2) / 3;
    }
  }

  /** Decoding is one-to-one: each byte string has one accepted spelling. */
  lemma DecodeInjective(s: string, t: string)
    requires Decode(s).Some? && Decode(s) == Decode(t)
    ensures s == t
  {
  }

  // ----- The source's own steps

  /** btoa: the standard alphabet, padded to a multiple of four. */
  function Btoa(bytes: seq<Byte>): string {
    var v := Sextets(bytes);
    seq(|v|, i requires 0 <= i < |v| => Letter(v[i])) + Padding((4 - |v| % 4) % 4)
  }

  function Padding(n: nat): string { if n == 0 then "" else ['='] + Padding(n - 1) }

  function Unpadded(s: string): string {
    if s != "" && s[|s| - 1] == '=' then Unpadded(s[..|s| - 1]) else s
  }

  function Replaced(s: string): string { seq(|s|, i requires 0 <= i < |s| => UrlLetter(s[i])) }

  lemma {:induction false} UnpaddedOf(s: string, n: nat)
    requires s == "" || s[|s| - 1] != '='
    ensures Unpadded(s + Padding(n)) == s
  {
    PaddingEnds(n);
    if n == 0 {
      assert s + "" == s;
    } else {
      assert (s + Padding(n))[..|s + Padding(n)| - 1] == s + Padding(n - 1);
      UnpaddedOf(s, n - 1);
    }
  }

  lemma {:induction false} PaddingEnds(n: nat)
    ensures |Padding(n)| == n && forall i :: 0 <= i < n ==> Padding(n)[i] == '='
    ensures n > 0 ==> Padding(n)[..n - 1] == Padding(n - 1)
  {
    if n > 0 { PaddingEnds(n - 1); }
  }

  /** base64UrlEncode: the bytes as a binary string, btoa, the two replacements, the padding removed. */
  method Base64UrlEncode(bytes: seq<Byte>) returns (s: string)
    ensures s == Encode(bytes)
  {
    var binary: seq<Byte> := [];
    for i := 0 to |bytes|
      invariant binary == bytes[..i]
    {
      binary := binary + [bytes[i]];
    }
    assert binary == bytes;
    UrlOfBtoa(bytes);
    s := Unpadded(Replaced(Btoa(binary)));
  }

  lemma UrlOfBtoa(bytes: seq<Byte>)
    ensures Unpadded(Replaced(Btoa(bytes))) == Encode(bytes)
  {
    var v := Sextets(bytes);
    var n := (4 - |v| % 4) % 4;
    PaddingEnds(n);
    assert Replaced(Btoa(bytes)) == Letters(v) + Padding(n);
    if v != [] { CodeHasValue(v[|v| - 1]); }
    UnpaddedOf(Letters(v), n);
  }
}
