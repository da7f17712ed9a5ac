/** Strings as sequences of Unicode scalar values, and their UTF-8 (RFC 3629) and UTF-16 (RFC 2781) forms. */
module Unicode {
  import opened Wrappers

  type Byte = b: int | 0 <= b < 256

  /** A UTF-16 code unit, as a JavaScript string holds them. */
  type Unit = u: int | 0 <= u < 0x1_0000

  type Nibble = n: int | 0 <= n < 16

  /** The lower-case hexadecimal digit of a number. */
  function HexDigit(n: Nibble): char { if n < 10 then ('0' as int + n) as char else ('a' as int + (n - 10)) as char }

  function Utf8Char(c: char): (r: seq<Byte>)
    ensures 1 <= |r| <= 4
  {
    var n := c as int;
    if n < 0x80 then [n]
    else if n < 0x800 then [0xC0 + n / 0x40, 0x80 + n % 0x40]
    else if n < 0x1_0000 then [0xE0 + n / 0x1000, 0x80 + n / 0x40 % 0x40, 0x80 + n % 0x40]
    else [0xF0 + n / 0x4_0000, 0x80 + n / 0x1000 % 0x40, 0x80 + n / 0x40 % 0x40, 0x80 + n % 0x40]
  }

  function Utf8(s: string): seq<Byte> {
    if s == "" then [] else Utf8Char(s[0]) + Utf8(s[1..])
  }

  /** The number of bytes that a first byte announces; 0 where it announces none. */
  function Announced(b: Byte): nat {
    if b < 0x80 then 1 else if b < 0xC0 then 0
    else if b < 0xE0 then 2 else if b < 0xF0 then 3 else if b < 0xF8 then 4 else 0
  }

  /** The number that an announced group of bytes spells. */
  function Spelled(b: seq<int>): int
    requires b != []
  {
    if |b| == 1 then b[0]
    else if |b| == 2 then (b[0] - 0xC0) * 0x40 + (b[1] - 0x80)
    else if |b| == 3 then (b[0] - 0xE0) * 0x1000 + (b[1] - 0x80) * 0x40 + (b[2] - 0x80)
    else if |b| == 4 then (b[0] - 0xF0) * 0x4_0000 + (b[1] - 0x80) * 0x1000 + (b[2] - 0x80) * 0x40 + (b[3] - 0x80)
    else 0
  }

  predicate IsScalar(n: int) { 0 <= n < 0xD800 || 0xE000 <= n < 0x11_0000 }

  /** The strict decoder: only the bytes that the encoder writes are accepted. */
  function FromUtf8(bytes: seq<Byte>): Option<string> {
    if bytes == [] then Some("")
    else
      var k := Announced(bytes[0]);
      if k == 0 || k > |bytes| || !IsScalar(Spelled(bytes[..k])) then None
      else
        var c := Spelled(bytes[..k]) as char;
        if Utf8Char(c) != bytes[..k] then None
        else
          var rest := FromUtf8(bytes[k..]);
          if rest.None? then None else Some([c] + rest.value)
  }

  lemma CharSpelled(c: char)
    ensures Announced(Utf8Char(c)[0]) == |Utf8Char(c)| && Spelled(Utf8Char(c)) == c as int
  {
    var n := c as int;
    if n >= 0x1_0000 {
      assert n == n / 0x4_0000 * 0x4_0000 + n / 0x1000 % 0x40 * 0x1000 + n / 0x40 % 0x40 * 0x40 + n % 0x40;
    } else if n >= 0x800 {
      assert n == n / 0x1000 * 0x1000 + n / 0x40 % 0x40 * 0x40 + n % 0x40;
    }
  }

  lemma {:induction false} Utf8RoundTrip(s: string)
    ensures FromUtf8(Utf8(s)) == Some(s)
  {
    if s != "" {
      var c := Utf8Char(s[0]);
      CharSpelled(s[0]);
      assert Utf8(s)[..|c|] == c && Utf8(s)[|c|..] == Utf8(s[1..]);
      Utf8RoundTrip(s[1..]);
      assert s == [s[0]] + s[1..];
    }
  }

  lemma {:induction false} Utf8Append(s: string, t: string)
    ensures Utf8(s + t) == Utf8(s) + Utf8(t)
  {
    if s == "" {
      assert s + t == t;
    } else {
      Utf8Append(s[1..], t);
      assert (s + t)[0] == s[0] && (s + t)[1..] == s[1..] + t;
    }
  }

  // ----- UTF-16

  function Utf16Char(c: char): seq<Unit> {
    var n := c as int;
    if n < 0x1_0000 then [n] else [0xD800 + (n - 0x1_0000) / 0x400, 0xDC00 + (n - 0x1_0000) % 0x400]
  }

  function Utf16(s: string): seq<Unit> {
    if s == "" then [] else Utf16Char(s[0]) + Utf16(s[1..])
  }

  predicate High(u: Unit) { 0xD800 <= u <= 0xDBFF }

  predicate Low(u: Unit) { 0xDC00 <= u <= 0xDFFF }

  /** isWellFormedUnicode: every surrogate is half of a pair. */
  predicate WellFormed(u: seq<Unit>) {
    u == []
    || (if High(u[0]) then |u| > 1 && Low(u[1]) && WellFormed(u[2..]) else !Low(u[0]) && WellFormed(u[1..]))
  }

  function Paired(high: int, low: int): int { 0x1_0000 + (high - 0xD800) * 0x400 + (low - 0xDC00) }

  /** The text of well-formed code units. */
  function Text(u: seq<Unit>): string
    requires WellFormed(u)
  {
    if u == [] then ""
    else if High(u[0]) then [Paired(u[0], u[1]) as char] + Text(u[2..])
    else [u[0] as char] + Text(u[1..])
  }

  lemma {:induction false} TextHasUnits(u: seq<Unit>)
    requires WellFormed(u)
    ensures Utf16(Text(u)) == u
  {
    if u != [] {
      if High(u[0]) {
        TextHasUnits(u[2..]);
        assert Text(u)[1..] == Text(u[2..]);
        assert u == [u[0], u[1]] + u[2..];
      } else {
        TextHasUnits(u[1..]);
        assert Text(u)[1..] == Text(u[1..]);
        assert u == [u[0]] + u[1..];
      }
    }
  }

  lemma {:induction false} UnitsAreWellFormed(s: string)
    ensures WellFormed(Utf16(s)) && Text(Utf16(s)) == s
  {
    if s != "" {
      UnitsAreWellFormed(s[1..]);
      var head := Utf16Char(s[0]);
      assert Utf16(s)[|head|..] == Utf16(s[1..]);
      assert s == [s[0]] + s[1..];
    }
  }

  /** Code units are well-formed exactly when they spell a text. */
  lemma WellFormedIff(u: seq<Unit>)
    ensures WellFormed(u) <==> exists s: string :: Utf16(s) == u
  {
    if WellFormed(u) { TextHasUnits(u); }
    if s: string :| Utf16(s) == u { UnitsAreWellFormed(s); }
  }

  /** The loop of isWellFormedUnicode. */
  method IsWellFormedUnicode(u: seq<Unit>) returns (ok: bool)
    ensures ok == WellFormed(u)
  {
    var i := 0;
    while i < |u|
      invariant 0 <= i <= |u| && WellFormed(u) == WellFormed(u[i..])
    {
      if High(u[i]) {
        if i + 1 == |u| || !Low(u[i + 1]) { return false; }
        assert u[i..][2..] == u[i + 2..];
        i := i + 1;
      } else if Low(u[i]) {
        return false;
      } else {
        assert u[i..][1..] == u[i + 1..];
      }
      i := i + 1;
    }
    return true;
  }
}
