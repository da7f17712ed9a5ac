/** The byte accountant of Agent Adapter bodies, against the UTF-8 length of the serialized JSON (RFC 8259). */
module JsonBytes {
  import opened Unicode

  type Ascii = c: char | c as int < 0x80 witness 'a'

  /** A JavaScript value; `Num` is the text that String gives a finite number, `Other` anything JSON cannot hold. */
  datatype Json =
    | Null
    | Bool(b: bool)
    | Num(text: seq<Ascii>)
    | NonFinite
    | Str(units: seq<Unit>)
    | Arr(items: seq<Json>)
    | Obj(members: seq<(seq<Unit>, Json)>)
    | Other

  function Width(node: Json): nat {
    if node.Arr? then |node.items| else if node.Obj? then |node.members| else 0
  }

  /** An ordinary JSON value all of whose strings and keys are well-formed Unicode. */
  predicate Plain(node: Json) {
    match node
    case NonFinite => false
    case Other => false
    case Str(units) => WellFormed(units)
    case Arr(items) => forall i :: 0 <= i < |items| ==> Plain(items[i])
    case Obj(members) => forall i :: 0 <= i < |members| ==> WellFormed(members[i].0) && Plain(members[i].1)
    case _ => true
  }

  // ----- The serialized text

  /** One character inside a JSON string. */
  function Escaped(c: char): string {
    if c == '\"' then "\\\"" else if c == '\\' then "\\\\"
    else if c as int == 8 then "\\b" else if c == '\t' then "\\t" else if c == '\n' then "\\n"
    else if c as int == 12 then "\\f" else if c == '\r' then "\\r"
    else if c as int < 0x20 then "\\u00" + [HexDigit(c as int / 16), HexDigit(c as int % 16)]
    else [c]
  }

  function EscapedAll(s: string): string { if s == "" then "" else Escaped(s[0]) + EscapedAll(s[1..]) }

  function Quoted(s: string): string { "\"" + EscapedAll(s) + "\"" }

  function JsonText(node: Json): string
    requires Plain(node)
    decreases node, Width(node) + 1
  {
    match node
    case Null => "null"
    case Bool(b) => if b then "true" else "false"
    case Num(text) => text
    case Str(units) => Quoted(Text(units))
    case Arr(_) => "[" + ItemsText(node, 0) + "]"
    case Obj(_) => "{" + MembersText(node, 0) + "}"
  }

  function Comma(i: nat): string { if i == 0 then "" else "," }

  function ItemsText(node: Json, i: nat): string
    requires Plain(node) && node.Arr? && i <= |node.items|
    decreases node, Width(node) - i
  {
    if i == |node.items| then "" else Comma(i) + JsonText(node.items[i]) + ItemsText(node, i + 1)
  }

  function MembersText(node: Json, i: nat): string
    requires Plain(node) && node.Obj? && i <= |node.members|
    decreases node, Width(node) - i
  {
    if i == |node.members| then ""
    else MemberText(i, Text(node.members[i].0), JsonText(node.members[i].1)) + MembersText(node, i + 1)
  }

  function MemberText(i: nat, key: string, value: string): string { Comma(i) + Quoted(key) + ":" + value }

  // ----- The accounted size

  function StringSize(units: seq<Unit>): nat { if WellFormed(units) then |Utf8(Quoted(Text(units)))| else 0 }

  function CommaSize(i: nat): nat { if i == 0 then 0 else 1 }

  function Size(node: Json): nat
    decreases node, Width(node) + 1
  {
    match node
    case Null => 4
    case Bool(b) => if b then 4 else 5
    case Num(text) => |text|
    case Str(units) => StringSize(units)
    case Arr(_) => 2 + ItemsSize(node, 0)
    case Obj(_) => 2 + MembersSize(node, 0)
    case _ => 0
  }

  function ItemsSize(node: Json, i: nat): nat
    requires node.Arr? && i <= |node.items|
    decreases node, Width(node) - i
  {
    if i == |node.items| then 0 else CommaSize(i) + Size(node.items[i]) + ItemsSize(node, i + 1)
  }

  function MembersSize(node: Json, i: nat): nat
    requires node.Obj? && i <= |node.members|
    decreases node, Width(node) - i
  {
    if i == |node.members| then 0
    else CommaSize(i) + StringSize(node.members[i].0) + 1 + Size(node.members[i].1) + MembersSize(node, i + 1)
  }

  lemma MembersSizeAt(node: Json, i: nat)
    requires node.Obj? && i < |node.members|
    ensures MembersSize(node, i) == CommaSize(i) + StringSize(node.members[i].0) + 1 + Size(node.members[i].1)
                                    + MembersSize(node, i + 1)
    ensures CommaSize(i) == if i == 0 then 0 else 1
  {
  }

  ghost predicate PlainTo(node: Json, count: nat)
    requires node.Obj? && count <= |node.members|
  {
    forall k :: 0 <= k < count ==> WellFormed(node.members[k].0) && Plain(node.members[k].1)
  }

  lemma PlainGrows(node: Json, i: nat)
    requires node.Obj? && i < |node.members|
    requires PlainTo(node, i) && WellFormed(node.members[i].0) && Plain(node.members[i].1)
    ensures PlainTo(node, i + 1)
  {
  }

  lemma PlainIsAll(node: Json)
    requires node.Obj?
    ensures Plain(node) <==> PlainTo(node, |node.members|)
  {
  }

  lemma {:induction false} AsciiLength(s: seq<Ascii>)
    ensures |Utf8(s)| == |s|
  {
    if s != [] { AsciiLength(s[1..]); }
  }

  lemma Lengths(a: string, b: string, c: string)
    ensures |Utf8(a + b + c)| == |Utf8(a)| + |Utf8(b)| + |Utf8(c)|
  {
    Utf8Append(a + b, c);
    Utf8Append(a, b);
  }

  lemma MemberLength(i: nat, key: string, value: string)
    ensures |Utf8(MemberText(i, key, value))| == CommaSize(i) + |Utf8(Quoted(key))| + 1 + |Utf8(value)|
  {
    AsciiLength(Comma(i));
    AsciiLength(":");
    Lengths(Comma(i), Quoted(key), ":");
    Utf8Append(Comma(i) + Quoted(key) + ":", value);
  }

  /** The accounted size of a plain value is the length of its serialization in UTF-8. */
  lemma {:induction false} SizeIsLength(node: Json)
    requires Plain(node)
    ensures Size(node) == |Utf8(JsonText(node))|
    decreases node, Width(node) + 1
  {
    match node
    case Null => AsciiLength("null");
    case Bool(b) => AsciiLength(if b then "true" else "false");
    case Num(text) => AsciiLength(text);
    case Str(_) =>
    case Arr(_) =>
      ItemsSizeIsLength(node, 0);
      AsciiLength("[");
      AsciiLength("]");
      Lengths("[", ItemsText(node, 0), "]");
    case Obj(_) =>
      MembersSizeIsLength(node, 0);
      AsciiLength("{");
      AsciiLength("}");
      Lengths("{", MembersText(node, 0), "}");
  }

  lemma {:induction false} ItemsSizeIsLength(node: Json, i: nat)
    requires Plain(node) && node.Arr? && i <= |node.items|
    ensures ItemsSize(node, i) == |Utf8(ItemsText(node, i))|
    decreases node, Width(node) - i
  {
    if i < |node.items| {
      AsciiLength(Comma(i));
      SizeIsLength(node.items[i]);
      ItemsSizeIsLength(node, i + 1);
      Lengths(Comma(i), JsonText(node.items[i]), ItemsText(node, i + 1));
    }
  }

  lemma {:induction false} MembersSizeIsLength(node: Json, i: nat)
    requires Plain(node) && node.Obj? && i <= |node.members|
    ensures MembersSize(node, i) == |Utf8(MembersText(node, i))|
    decreases node, Width(node) - i
  {
    if i < |node.members| {
      var key, value := Text(node.members[i].0), JsonText(node.members[i].1);
      SizeIsLength(node.members[i].1);
      MembersSizeIsLength(node, i + 1);
      MemberLength(i, key, value);
      Utf8Append(MemberText(i, key, value), MembersText(node, i + 1));
    }
  }

  // ----- The accountant

  class Accountant {
    var bytes: nat

    constructor ()
      ensures bytes == 0
    {
      bytes := 0;
    }

    method AccountString(units: seq<Unit>) returns (ok: bool)
      modifies this
      ensures ok == WellFormed(units) && bytes == old(bytes) + if ok then StringSize(units) else 0
    {
      ok := IsWellFormedUnicode(units);
      if ok { bytes := bytes + |Utf8(Quoted(Text(units)))|; }
    }

    /** Counts the node; false where it is not plain, or the count is found to exceed the bound. */
    method Walk(node: Json, maxBytes: nat) returns (ok: bool)
      modifies this
      ensures ok ==> Plain(node) && bytes == old(bytes) + Size(node)
      ensures !ok ==> !Plain(node) || old(bytes) + Size(node) > maxBytes
      decreases node, Width(node) + 2
    {
      if bytes > maxBytes { return false; }
      ok := true;
      match node {
        case Null => bytes := bytes + 4;
        case Bool(b) => bytes := bytes + if b then 4 else 5;
        case NonFinite => ok := false;
        case Num(text) => bytes := bytes + |text|;
        case Str(units) => ok := AccountString(units);
        case Arr(_) => ok := WalkItems(node, maxBytes);
        case Obj(_) => ok := WalkMembers(node, maxBytes);
        case Other => ok := false;
      }
    }

    method WalkItems(node: Json, maxBytes: nat) returns (ok: bool)
      requires node.Arr?
      modifies this
      ensures ok ==> Plain(node) && bytes == old(bytes) + Size(node)
      ensures !ok ==> !Plain(node) || old(bytes) + Size(node) > maxBytes
      decreases node, Width(node)
    {
      bytes := bytes + 1;
      for i := 0 to |node.items|
        invariant bytes + ItemsSize(node, i) == old(bytes) + 1 + ItemsSize(node, 0)
        invariant forall k :: 0 <= k < i ==> Plain(node.items[k])
      {
        bytes := bytes + if i == 0 then 0 else 1;
        var counted := Walk(node.items[i], maxBytes);
        if !counted { return false; }
      }
      bytes := bytes + 1;
      ok := true;
    }

    method WalkMembers(node: Json, maxBytes: nat) returns (ok: bool)
      requires node.Obj?
      modifies this
      ensures ok ==> Plain(node) && bytes == old(bytes) + Size(node)
      ensures !ok ==> !Plain(node) || old(bytes) + Size(node) > maxBytes
      decreases node, Width(node) + 1
    {
      assert Size(node) == 2 + MembersSize(node, 0);
      bytes := bytes + 1;
      var first := true;
      for i := 0 to |node.members|
        invariant bytes + MembersSize(node, i) == old(bytes) + 1 + MembersSize(node, 0) && first == (i == 0)
        invariant PlainTo(node, i)
      {
        MembersSizeAt(node, i);
        bytes := bytes + if first then 0 else 1;
        first := false;
        var counted := WalkMember(node, i, maxBytes);
        if !counted { return false; }
        PlainGrows(node, i);
      }
      PlainIsAll(node);
      bytes := bytes + 1;
      ok := true;
    }

    /** The key of a member, its colon and its value. */
    method WalkMember(node: Json, i: nat, maxBytes: nat) returns (ok: bool)
      requires node.Obj? && i < |node.members|
      modifies this
      ensures ok ==> WellFormed(node.members[i].0) && Plain(node.members[i].1)
      ensures ok ==> bytes == old(bytes) + StringSize(node.members[i].0) + 1 + Size(node.members[i].1)
      ensures !ok ==> !Plain(node)
                      || old(bytes) + StringSize(node.members[i].0) + 1 + Size(node.members[i].1) > maxBytes
      decreases node, 0
    {
      ok := AccountString(node.members[i].0);
      if !ok { return; }
      bytes := bytes + 1;
      ok := Walk(node.members[i].1, maxBytes);
    }
  }

  /** jsonBytesWithin: true exactly of a plain value whose real serialization fits the bound. */
  method JsonBytesWithin(value: Json, maxBytes: nat) returns (ok: bool)
    ensures ok <==> Plain(value) && |Utf8(JsonText(value))| <= maxBytes
  {
    var account := new Accountant();
    ok := account.Walk(value, maxBytes);
    ok := ok && account.bytes <= maxBytes;
    if Plain(value) { SizeIsLength(value); }
  }
}
