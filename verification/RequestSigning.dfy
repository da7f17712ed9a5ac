/** Canonical paths, queries and targets of signed requests. */
module RequestSigning {
  import opened Wrappers

  const QUERY_PAIRS := 64
  const NAME_CHARACTERS := 256
  const VALUE_CHARACTERS := 256
  const QUERY_CHARACTERS := 2_048
  const TARGET_CHARACTERS := 3_073
  const PATH_CHARACTERS := 1_024
  const SEGMENT_CHARACTERS := 255

  datatype Pair = Pair(name: string, value: string)

  /** Whether a route has the query name, and takes the value for it. */
  type Schema = (string, string) -> bool

  predicate Dynamic(c: char) {
    'A' <= c <= 'Z' || 'a' <= c <= 'z' || '0' <= c <= '9' || c == '_' || c == '~' || c == '-'
  }

  /** isRestrictedDynamicValue; the dots it also excludes are not in the alphabet. */
  predicate Restricted(s: string) { s != "" && forall i :: 0 <= i < |s| ==> Dynamic(s[i]) }

  // ----- Splitting and joining

  predicate Lacks(s: string, c: char) { forall i :: 0 <= i < |s| ==> s[i] != c }

  function Split(s: string, c: char): (parts: seq<string>)
    ensures parts != []
  {
    if s == "" then [""]
    else if s[0] == c then [""] + Split(s[1..], c)
    else
      var rest := Split(s[1..], c);
      [[s[0]] + rest[0]] + rest[1..]
  }

  function Join(parts: seq<string>, c: char): string {
    if parts == [] then "" else if |parts| == 1 then parts[0] else parts[0] + [c] + Join(parts[1..], c)
  }

  lemma {:induction false} SplitNothing(s: string, c: char)
    requires Lacks(s, c)
    ensures Split(s, c) == [s]
  {
    if s != "" {
      SplitNothing(s[1..], c);
      assert s == [s[0]] + s[1..];
    }
  }

  lemma {:induction false} SplitHead(s: string, c: char, rest: string)
    requires Lacks(s, c)
    ensures Split(s + [c] + rest, c) == [s] + Split(rest, c)
  {
    var whole := s + [c] + rest;
    if s == "" {
      assert whole[1..] == rest;
    } else {
      assert whole[1..] == s[1..] + [c] + rest;
      SplitHead(s[1..], c, rest);
      assert s == [s[0]] + s[1..];
    }
  }

  /** Splitting undoes joining of parts that lack the separator. */
  lemma {:induction false} SplitOfJoin(parts: seq<string>, c: char)
    requires parts != [] && forall i :: 0 <= i < |parts| ==> Lacks(parts[i], c)
    ensures Split(Join(parts, c), c) == parts
  {
    if |parts| == 1 {
      SplitNothing(parts[0], c);
    } else {
      SplitOfJoin(parts[1..], c);
      SplitHead(parts[0], c, Join(parts[1..], c));
    }
  }

  // ----- Order

  /** Strictly before in the order of character codes. */
  predicate Before(a: string, b: string) {
    b != "" && (a == "" || a[0] < b[0] || (a[0] == b[0] && Before(a[1..], b[1..])))
  }

  lemma {:induction false} BeforeTrans(a: string, b: string, c: string)
    requires Before(a, b) && Before(b, c)
    ensures Before(a, c)
  {
    if a != "" && a[0] == b[0] == c[0] { BeforeTrans(a[1..], b[1..], c[1..]); }
  }

  lemma {:induction false} BeforeTotal(a: string, b: string)
    ensures a == b || Before(a, b) || Before(b, a)
    ensures !(Before(a, b) && Before(b, a))
    ensures a == b ==> !Before(a, b)
  {
    if a != "" && b != "" {
      BeforeTotal(a[1..], b[1..]);
      assert a == [a[0]] + a[1..] && b == [b[0]] + b[1..];
    }
  }

  /** By name, then by value: the comparison that the sort is given. */
  predicate Precedes(p: Pair, q: Pair) { Before(p.name, q.name) || (p.name == q.name && !Before(q.value, p.value)) }

  function Inserted(p: Pair, sorted: seq<Pair>): seq<Pair> {
    if sorted == [] || Precedes(p, sorted[0]) then [p] + sorted else [sorted[0]] + Inserted(p, sorted[1..])
  }

  function Sorted(pairs: seq<Pair>): seq<Pair> {
    if pairs == [] then [] else Inserted(pairs[0], Sorted(pairs[1..]))
  }

  predicate NamesRise(pairs: seq<Pair>) {
    forall i, j :: 0 <= i < j < |pairs| ==> Before(pairs[i].name, pairs[j].name)
  }

  predicate NamesDiffer(pairs: seq<Pair>) {
    forall i, j :: 0 <= i < j < |pairs| ==> pairs[i].name != pairs[j].name
  }

  lemma {:induction false} InsertedKeeps(p: Pair, sorted: seq<Pair>)
    requires NamesRise(sorted) && forall i :: 0 <= i < |sorted| ==> sorted[i].name != p.name
    ensures NamesRise(Inserted(p, sorted)) && multiset(Inserted(p, sorted)) == multiset(sorted) + multiset{p}
  {
    if sorted == [] {
    } else if Precedes(p, sorted[0]) {
      forall j | 0 <= j < |sorted| ensures Before(p.name, sorted[j].name) {
        if j > 0 { BeforeTrans(p.name, sorted[0].name, sorted[j].name); }
      }
    } else {
      BeforeTotal(p.name, sorted[0].name);
      InsertedKeeps(p, sorted[1..]);
      var rest := Inserted(p, sorted[1..]);
      assert sorted == [sorted[0]] + sorted[1..];
      forall j | 0 <= j < |rest| ensures Before(sorted[0].name, rest[j].name) {
        assert rest[j] in multiset(rest);
        if rest[j] != p {
          assert rest[j] in multiset(sorted[1..]);
          var k :| 0 <= k < |sorted[1..]| && sorted[1..][k] == rest[j];
          assert sorted[k + 1] == rest[j];
        }
      }
    }
  }

  lemma {:induction false} SortedIs(pairs: seq<Pair>)
    requires NamesDiffer(pairs)
    ensures NamesRise(Sorted(pairs)) && multiset(Sorted(pairs)) == multiset(pairs)
  {
    if pairs != [] {
      SortedIs(pairs[1..]);
      var rest := Sorted(pairs[1..]);
      forall i | 0 <= i < |rest| ensures rest[i].name != pairs[0].name {
        assert rest[i] in multiset(pairs[1..]);
        var k :| 0 <= k < |pairs[1..]| && pairs[1..][k] == rest[i];
        assert pairs[k + 1] == rest[i];
      }
      InsertedKeeps(pairs[0], rest);
      assert pairs == [pairs[0]] + pairs[1..];
    }
  }

  /** A list with rising names is determined by its elements. */
  lemma {:induction false} RisingUnique(a: seq<Pair>, b: seq<Pair>)
    requires NamesRise(a) && NamesRise(b) && multiset(a) == multiset(b)
    ensures a == b
  {
    if a == [] {
      assert |b| == |multiset(b)|;
    } else {
      HeadIsLeast(a, b);
      HeadIsLeast(b, a);
      BeforeTotal(a[0].name, b[0].name);
      TailBag(a);
      TailBag(b);
      RisingUnique(a[1..], b[1..]);
      assert a == [a[0]] + a[1..] && b == [b[0]] + b[1..];
    }
  }

  lemma TailBag(s: seq<Pair>)
    requires s != []
    ensures multiset(s[1..]) == multiset(s) - multiset{s[0]}
  {
    assert s == [s[0]] + s[1..];
  }

  lemma HeadIsLeast(a: seq<Pair>, b: seq<Pair>)
    requires NamesRise(b) && multiset(a) == multiset(b) && a != []
    ensures b != [] && (a[0] == b[0] || Before(b[0].name, a[0].name))
  {
    assert a[0] in multiset(b);
    var k :| 0 <= k < |b| && b[k] == a[0];
  }

  // ----- The canonical query

  predicate PairOk(p: Pair, schema: Schema) {
    Restricted(p.name) && Restricted(p.value) && schema(p.name, p.value)
    && |p.name| <= NAME_CHARACTERS && |p.value| <= VALUE_CHARACTERS
  }

  predicate PairsOk(pairs: seq<Pair>, schema: Schema) {
    |pairs| <= QUERY_PAIRS && NamesDiffer(pairs) && forall i :: 0 <= i < |pairs| ==> PairOk(pairs[i], schema)
  }

  function Written(p: Pair): string { p.name + ['='] + p.value }

  function WrittenAll(pairs: seq<Pair>): (parts: seq<string>)
    ensures |parts| == |pairs| && forall i :: 0 <= i < |pairs| ==> parts[i] == Written(pairs[i])
  {
    seq(|pairs|, i requires 0 <= i < |pairs| => Written(pairs[i]))
  }

  function QueryText(pairs: seq<Pair>): string { Join(WrittenAll(pairs), '&') }

  /** canonicalizeQuery of pairs; None where it throws. */
  function Canonical(pairs: seq<Pair>, schema: Schema): Option<string> {
    if !PairsOk(pairs, schema) then None
    else
      var text := QueryText(Sorted(pairs));
      if |text| > QUERY_CHARACTERS then None else Some(text)
  }

  predicate Printable(s: string) { forall i :: 0 <= i < |s| ==> ' ' <= s[i] <= '~' }

  function ParsedPair(part: string): Option<Pair> {
    var halves := Split(part, '=');
    if |halves| == 2 && halves[0] != "" && halves[1] != "" then Some(Pair(halves[0], halves[1])) else None
  }

  function ParsedPairs(parts: seq<string>): Option<seq<Pair>> {
    if parts == [] then Some([])
    else
      var first, rest := ParsedPair(parts[0]), ParsedPairs(parts[1..]);
      if first.None? || rest.None? then None else Some([first.value] + rest.value)
  }

  /** parseQuery; None where it throws. */
  function Parsed(query: string): Option<seq<Pair>> {
    var value := if query != "" && query[0] == '?' then query[1..] else query;
    if !Printable(value) then None
    else if value == "" then Some([])
    else if !Lacks(value, '%') || !Lacks(value, '+') || !Lacks(value, ';') || !Lacks(value, '#') then None
    else ParsedPairs(Split(value, '&'))
  }

  /** canonicalizeQuery of a query string. */
  function CanonicalText(query: string, schema: Schema): Option<string> {
    var pairs := Parsed(query);
    if pairs.None? then None else Canonical(pairs.value, schema)
  }

  lemma DifferAsMultiset(a: seq<Pair>, b: seq<Pair>)
    requires multiset(a) == multiset(b) && NamesDiffer(a)
    ensures NamesDiffer(b) && |a| == |b|
  {
    assert |a| == |multiset(a)| && |b| == |multiset(b)|;
    forall i, j | 0 <= i < j < |b| ensures b[i].name != b[j].name {
      assert b[i] in multiset(a) && b[j] in multiset(a);
      var k :| 0 <= k < |a| && a[k] == b[i];
      var l :| 0 <= l < |a| && a[l] == b[j];
      if k == l {
        Twice(b, i, j);
        Once(a, k);
      }
    }
  }

  lemma Twice(s: seq<Pair>, i: nat, j: nat)
    requires i < j < |s| && s[i] == s[j]
    ensures multiset(s)[s[i]] >= 2
  {
    assert s == s[..i] + [s[i]] + s[i + 1..j] + [s[j]] + s[j + 1..];
  }

  lemma Once(s: seq<Pair>, k: nat)
    requires k < |s| && NamesDiffer(s)
    ensures multiset(s)[s[k]] == 1
  {
    assert s == s[..k] + [s[k]] + s[k + 1..];
    assert s[k] !in s[..k] && s[k] !in s[k + 1..];
  }

  lemma OkAsMultiset(a: seq<Pair>, b: seq<Pair>, schema: Schema)
    requires multiset(a) == multiset(b) && PairsOk(a, schema)
    ensures PairsOk(b, schema)
  {
    DifferAsMultiset(a, b);
    forall i | 0 <= i < |b| ensures PairOk(b[i], schema) {
      assert b[i] in multiset(a);
      var k :| 0 <= k < |a| && a[k] == b[i];
    }
  }

  /** The canonical query does not depend on the order of the pairs, and neither does its rejection. */
  lemma OrderDoesNotMatter(a: seq<Pair>, b: seq<Pair>, schema: Schema)
    requires multiset(a) == multiset(b)
    ensures Canonical(a, schema) == Canonical(b, schema)
  {
    if PairsOk(a, schema) { OkAsMultiset(a, b, schema); }
    if PairsOk(b, schema) { OkAsMultiset(b, a, schema); }
    if PairsOk(a, schema) {
      SortedIs(a);
      SortedIs(b);
      RisingUnique(Sorted(a), Sorted(b));
    }
  }

  // ----- The canonical query is its own canonical form

  /** Characters that a written pair can have: none with a meaning to the parser but the equals sign. */
  predicate Plain(s: string) { forall i :: 0 <= i < |s| ==> Dynamic(s[i]) || s[i] == '=' || s[i] == '&' }

  lemma {:induction false} JoinIsPlain(parts: seq<string>)
    requires forall i :: 0 <= i < |parts| ==> Plain(parts[i])
    ensures Plain(Join(parts, '&'))
  {
    if |parts| > 1 { JoinIsPlain(parts[1..]); }
  }

  lemma WrittenParses(p: Pair)
    requires Restricted(p.name) && Restricted(p.value)
    ensures ParsedPair(Written(p)) == Some(p) && Lacks(Written(p), '&') && Plain(Written(p))
  {
    SplitHead(p.name, '=', p.value);
    SplitNothing(p.value, '=');
  }

  lemma {:induction false} WrittenAllParse(pairs: seq<Pair>, schema: Schema)
    requires forall i :: 0 <= i < |pairs| ==> PairOk(pairs[i], schema)
    ensures ParsedPairs(WrittenAll(pairs)) == Some(pairs)
  {
    if pairs != [] {
      WrittenParses(pairs[0]);
      WrittenAllParse(pairs[1..], schema);
      assert WrittenAll(pairs)[1..] == WrittenAll(pairs[1..]);
      assert pairs == [pairs[0]] + pairs[1..];
    }
  }

  /** The parser reads the pairs back from their text. */
  lemma TextParses(pairs: seq<Pair>, schema: Schema)
    requires forall i :: 0 <= i < |pairs| ==> PairOk(pairs[i], schema)
    ensures Parsed(QueryText(pairs)) == Some(pairs) && Plain(QueryText(pairs))
        && (pairs == [] <==> QueryText(pairs) == "")
  {
    var parts := WrittenAll(pairs);
    forall i | 0 <= i < |pairs| ensures Plain(parts[i]) && Lacks(parts[i], '&') { WrittenParses(pairs[i]); }
    JoinIsPlain(parts);
    if pairs != [] {
      SplitOfJoin(parts, '&');
      WrittenAllParse(pairs, schema);
      assert |Written(pairs[0])| > 0;
    }
  }

  /** A canonical query is a fixed point: parsed and canonicalized again, it stays as it is. */
  lemma CanonicalIsFixed(pairs: seq<Pair>, schema: Schema)
    requires Canonical(pairs, schema).Some?
    ensures var q := Canonical(pairs, schema).value;
            Parsed(q) == Some(Sorted(pairs)) && CanonicalText(q, schema) == Some(q) && Plain(q)
  {
    SortedIs(pairs);
    OkAsMultiset(pairs, Sorted(pairs), schema);
    TextParses(Sorted(pairs), schema);
    OrderDoesNotMatter(pairs, Sorted(pairs), schema);
  }

  /** canonicalizeQuery's loop over the pairs, with the names already seen. */
  method CanonicalizeQuery(pairs: seq<Pair>, schema: Schema) returns (query: Option<string>)
    ensures query == Canonical(pairs, schema)
  {
    if |pairs| > QUERY_PAIRS { return None; }
    var seen: set<string> := {};
    for i := 0 to |pairs|
      invariant seen == set k | 0 <= k < i :: pairs[k].name
      invariant NamesDiffer(pairs[..i]) && forall k :: 0 <= k < i ==> PairOk(pairs[k], schema)
    {
      var p := pairs[i];
      if !Restricted(p.name) || !Restricted(p.value) || !schema(p.name, p.value) { return None; }
      if |p.name| > NAME_CHARACTERS || |p.value| > VALUE_CHARACTERS { return None; }
      if p.name in seen {
        var k :| 0 <= k < i && pairs[k].name == p.name;
        return None;
      }
      seen := seen + {p.name};
      assert pairs[..i + 1] == pairs[..i] + [p];
    }
    assert pairs[..|pairs|] == pairs;
    var text := QueryText(Sorted(pairs));
    return if |text| > QUERY_CHARACTERS then None else Some(text);
  }

  // ----- Targets

  /** canonicalizePath accepts exactly these; a path is its own canonical form. */
  predicate ValidPath(path: string) {
    && path != "" && path[0] == '/' && |path| <= PATH_CHARACTERS
    && (path == "/" || var segments := Split(path[1..], '/');
                       forall i :: 0 <= i < |segments| ==>
                           Restricted(segments[i]) && |segments[i]| <= SEGMENT_CHARACTERS)
  }

  /** buildRequestTarget; None where it throws. */
  function Target(path: string, pairs: seq<Pair>, schema: Schema): Option<string> {
    var query := Canonical(pairs, schema);
    if !ValidPath(path) || query.None? then None
    else
      var target := if query.value == "" then path else path + ['?'] + query.value;
      if |target| > TARGET_CHARACTERS then None else Some(target)
  }

  /** A target is built of every valid path and canonical query: together they never exceed its bound. */
  lemma TargetIff(path: string, pairs: seq<Pair>, schema: Schema)
    ensures Target(path, pairs, schema).Some? <==> ValidPath(path) && Canonical(pairs, schema).Some?
  {
  }

  /** The path and the query that the client signs for a target. */
  function SplitTarget(target: string): (string, string) {
    var parts := Split(target, '?');
    (parts[0], if |parts| > 1 then parts[1] else "")
  }

  predicate AllLack(parts: seq<string>, c: char) { forall i :: 0 <= i < |parts| ==> Lacks(parts[i], c) }

  lemma AllLackParts(a: seq<string>, b: seq<string>, c: char)
    ensures AllLack(a + b, c) <==> AllLack(a, c) && AllLack(b, c)
  {
    var all := a + b;
    if AllLack(all, c) {
      forall i | 0 <= i < |a| ensures Lacks(a[i], c) { assert all[i] == a[i]; }
      forall i | 0 <= i < |b| ensures Lacks(b[i], c) { assert all[|a| + i] == b[i]; }
    }
  }

  lemma LacksCons(head: char, tail: string, c: char)
    ensures Lacks([head] + tail, c) <==> head != c && Lacks(tail, c)
  {
    var s := [head] + tail;
    assert s[0] == head;
    if Lacks(s, c) {
      forall i | 0 <= i < |tail| ensures tail[i] != c { assert s[i + 1] == tail[i]; }
    }
  }

  lemma {:induction false} SegmentsLack(s: string, c: char)
    requires c != '/' && AllLack(Split(s, '/'), c)
    ensures Lacks(s, c)
  {
    if s != "" {
      var rest := Split(s[1..], '/');
      if s[0] == '/' {
        AllLackParts([""], rest, c);
      } else {
        AllLackParts([[s[0]] + rest[0]], rest[1..], c);
        LacksCons(s[0], rest[0], c);
        assert [[s[0]] + rest[0]][0] == [s[0]] + rest[0];
        AllLackParts([rest[0]], rest[1..], c);
        assert rest == [rest[0]] + rest[1..];
      }
      SegmentsLack(s[1..], c);
      LacksCons(s[0], s[1..], c);
      assert s == [s[0]] + s[1..];
    }
  }

  lemma RestrictedLacks(s: string, c: char)
    requires Restricted(s) && !Dynamic(c)
    ensures Lacks(s, c)
  {
  }

  /** Joining undoes splitting. */
  lemma {:induction false} JoinOfSplit(s: string, c: char)
    ensures Join(Split(s, c), c) == s
  {
    if s != "" {
      JoinOfSplit(s[1..], c);
      var rest := Split(s[1..], c);
      assert s == [s[0]] + s[1..];
      if s[0] == c {
        assert Split(s, c)[1..] == rest;
      } else {
        assert Split(s, c)[1..] == rest[1..];
      }
    }
  }

  ghost predicate JoinsTo(segments: seq<string>, path: string) {
    && segments != [] && path == ['/'] + Join(segments, '/')
    && forall i :: 0 <= i < |segments| ==> Restricted(segments[i]) && |segments[i]| <= 255
  }

  /** The paths are the root, and what segments joined by slashes give, up to 1,024 characters. */
  lemma PathIff(path: string)
    ensures ValidPath(path)
        <==> path == "/" || (|path| <= 1_024 && exists segments: seq<string> :: JoinsTo(segments, path))
  {
    if path != "/" && path != "" && path[0] == '/' {
      JoinOfSplit(path[1..], '/');
      var segments := Split(path[1..], '/');
      assert path == ['/'] + path[1..];
      if ValidPath(path) { assert JoinsTo(segments, path); }
    }
    if path != "/" && exists segments: seq<string> :: JoinsTo(segments, path) {
      var segments: seq<string> :| JoinsTo(segments, path);
      forall i | 0 <= i < |segments| ensures Lacks(segments[i], '/') { RestrictedLacks(segments[i], '/'); }
      SplitOfJoin(segments, '/');
      assert path[1..] == Join(segments, '/');
    }
  }

  lemma PathLacks(path: string, c: char)
    requires ValidPath(path) && !Dynamic(c) && c != '/'
    ensures Lacks(path, c)
  {
    if path != "/" {
      var segments := Split(path[1..], '/');
      forall i | 0 <= i < |segments| ensures Lacks(segments[i], c) { RestrictedLacks(segments[i], c); }
      SegmentsLack(path[1..], c);
    }
    assert path == [path[0]] + path[1..];
  }

  /** What is signed is what is sent: the target splits into the path and query it was built from, both canonical. */
  lemma SignedIsSent(path: string, pairs: seq<Pair>, schema: Schema)
    requires Target(path, pairs, schema).Some?
    ensures var t := Target(path, pairs, schema).value;
            var (p, q) := SplitTarget(t);
            && p == path && ValidPath(p)
            && Some(q) == Canonical(pairs, schema) && CanonicalText(q, schema) == Some(q)
            && (if q == "" then t == p else t == p + ['?'] + q)
  {
    CanonicalIsFixed(pairs, schema);
    PathLacks(path, '?');
    var q := Canonical(pairs, schema).value;
    if q == "" {
      SplitNothing(path, '?');
    } else {
      SplitHead(path, '?', q);
      SplitNothing(q, '?');
    }
  }

  // ----- The signed text

  const REQUEST_SIGNATURE_DOMAIN := "ariava-request-v1"

  datatype Request = Request(
    entityType: string, entityId: string, keyId: string, verb: string, path: string, query: string,
    contentSha256: string, timestamp: string, nonce: string)

  function SignedFields(r: Request): seq<string> {
    [REQUEST_SIGNATURE_DOMAIN, r.entityType, r.entityId, r.keyId, r.verb, r.path, r.query, r.contentSha256,
     r.timestamp, r.nonce]
  }

  function SignedText(r: Request): string { Join(SignedFields(r), '\n') }

  const METHOD_CHARACTERS := 7

  /** What buildCanonicalRequest checks: the request line, and nothing of the other fields. */
  predicate Builds(r: Request, schema: Schema) {
    && ValidPath(r.path) && CanonicalText(r.query, schema) == Some(r.query)
    && 0 < |r.verb| <= METHOD_CHARACTERS && forall i :: 0 <= i < |r.verb| ==> 'A' <= r.verb[i] <= 'Z'
  }

  /** The other fields have no newline. */
  predicate OneLine(r: Request) {
    && Lacks(r.entityType, '\n') && Lacks(r.entityId, '\n') && Lacks(r.keyId, '\n')
    && Lacks(r.contentSha256, '\n') && Lacks(r.timestamp, '\n') && Lacks(r.nonce, '\n')
  }

  predicate AllLackNewlines(parts: seq<string>) { forall i :: 0 <= i < |parts| ==> Lacks(parts[i], '\n') }

  lemma FieldsLackNewlinesIff(r: Request, schema: Schema)
    requires Builds(r, schema)
    ensures AllLackNewlines(SignedFields(r)) <==> OneLine(r)
  {
    PathLacks(r.path, '\n');
    CanonicalIsFixed(Parsed(r.query).value, schema);
    assert Lacks(r.verb, '\n') && Lacks(r.path, '\n') && Lacks(r.query, '\n');
    TenLackIff(r);
  }

  lemma TenLackIff(r: Request)
    requires Lacks(r.verb, '\n') && Lacks(r.path, '\n') && Lacks(r.query, '\n')
    ensures AllLackNewlines(SignedFields(r)) <==> OneLine(r)
  {
    var f := SignedFields(r);
    if AllLackNewlines(f) {
      assert Lacks(f[1], '\n') && Lacks(f[2], '\n') && Lacks(f[3], '\n');
      assert Lacks(f[7], '\n') && Lacks(f[8], '\n') && Lacks(f[9], '\n');
    }
  }

  // ----- How many parts a text splits into

  lemma {:induction false} SplitCount(s: string, c: char, t: string)
    ensures |Split(s + [c] + t, c)| == |Split(s, c)| + |Split(t, c)|
  {
    var whole := s + [c] + t;
    if s == "" {
      assert whole[1..] == t;
    } else {
      assert whole[1..] == s[1..] + [c] + t;
      SplitCount(s[1..], c, t);
    }
  }

  lemma {:induction false} OnePartIff(s: string, c: char)
    ensures |Split(s, c)| == 1 <==> Lacks(s, c)
  {
    if s != "" {
      OnePartIff(s[1..], c);
      assert s == [s[0]] + s[1..];
      LacksCons(s[0], s[1..], c);
    }
  }

  /** A joined text splits into as many parts exactly when no part has the separator. */
  lemma {:induction false} JoinCount(parts: seq<string>, c: char)
    requires parts != []
    ensures |Split(Join(parts, c), c)| >= |parts|
    ensures |Split(Join(parts, c), c)| == |parts| <==> forall i :: 0 <= i < |parts| ==> Lacks(parts[i], c)
  {
    OnePartIff(parts[0], c);
    if |parts| > 1 {
      SplitCount(parts[0], c, Join(parts[1..], c));
      JoinCount(parts[1..], c);
      forall i | 1 <= i < |parts| ensures parts[i] == parts[1..][i - 1] {}
    }
  }

  // ----- Which texts are of one request

  lemma FieldsDetermine(a: Request, b: Request)
    requires SignedFields(a) == SignedFields(b)
    ensures a == b
  {
    var f, g := SignedFields(a), SignedFields(b);
    assert f[1] == g[1] && f[2] == g[2] && f[3] == g[3] && f[4] == g[4] && f[5] == g[5];
    assert f[6] == g[6] && f[7] == g[7] && f[8] == g[8] && f[9] == g[9];
  }

  /** One signed text is of one request, if that request has its fields on one line each. */
  lemma SignedTextInjective(a: Request, b: Request, schemaA: Schema, schemaB: Schema)
    requires Builds(a, schemaA) && Builds(b, schemaB) && OneLine(a) && SignedText(a) == SignedText(b)
    ensures a == b
  {
    FieldsLackNewlinesIff(a, schemaA);
    JoinCount(SignedFields(a), '\n');
    JoinCount(SignedFields(b), '\n');
    SplitOfJoin(SignedFields(a), '\n');
    SplitOfJoin(SignedFields(b), '\n');
    FieldsDetermine(a, b);
  }

  /** Moving text across a separator between two parts leaves the joined text. */
  lemma {:induction false} JoinShift(parts: seq<string>, i: nat, x: string, y: string, c: char)
    requires i + 1 < |parts| && x + [c] + y == parts[i] + [c] + parts[i + 1]
    ensures Join(parts[i := x][i + 1 := y], c) == Join(parts, c)
  {
    var moved := parts[i := x][i + 1 := y];
    if i > 0 {
      JoinShift(parts[1..], i - 1, x, y, c);
      assert moved[1..] == parts[1..][i - 1 := x][i := y];
    } else {
      assert moved[1..][1..] == parts[1..][1..];
      if |parts| > 2 {
        var rest := [c] + Join(parts[2..], c);
        assert Join(moved[1..], c) == y + rest && Join(parts[1..], c) == parts[1] + rest;
        assert x + [c] + (y + rest) == (x + [c] + y) + rest;
        assert parts[0] + [c] + (parts[1] + rest) == (parts[0] + [c] + parts[1]) + rest;
      }
    }
  }

  /** The field's text up to its first newline, and what follows it. */
  lemma CutAtNewline(s: string) returns (head: string, tail: string)
    requires !Lacks(s, '\n')
    ensures s == head + ['\n'] + tail
  {
    var i :| 0 <= i < |s| && s[i] == '\n';
    head, tail := s[..i], s[i + 1..];
  }

  /**
   A request with the same text, where some field has a newline: part of it moves to the next field or the last one.
   */
  function Moved(r: Request, i: nat, x: string, y: string): Request {
    if i == 1 then r.(entityType := x, entityId := y)
    else if i == 2 then r.(entityId := x, keyId := y)
    else if i == 7 then r.(contentSha256 := x, timestamp := y)
    else r.(timestamp := x, nonce := y)
  }

  lemma MovedIsSame(r: Request, i: nat, x: string, y: string)
    requires (i == 1 || i == 2 || i == 7 || i == 8)
        && x + ['\n'] + y == SignedFields(r)[i] + ['\n'] + SignedFields(r)[i + 1]
    ensures SignedText(Moved(r, i, x, y)) == SignedText(r)
  {
    JoinShift(SignedFields(r), i, x, y, '\n');
    assert SignedFields(Moved(r, i, x, y)) == SignedFields(r)[i := x][i + 1 := y];
  }

  lemma AnotherRequest(r: Request) returns (b: Request)
    requires !OneLine(r)
    ensures b != r && SignedText(b) == SignedText(r)
    ensures b.path == r.path && b.query == r.query && b.verb == r.verb
  {
    var f := SignedFields(r);
    var i: nat := if !Lacks(r.entityType, '\n') then 1 else if !Lacks(r.entityId, '\n') then 2
                  else if !Lacks(r.contentSha256, '\n') then 7 else 8;
    if !Lacks(f[i], '\n') {
      var head, tail := CutAtNewline(f[i]);
      var y := tail + ['\n'] + f[i + 1];
      assert head + ['\n'] + y == f[i] + ['\n'] + f[i + 1];
      MovedIsSame(r, i, head, y);
      b := Moved(r, i, head, y);
      assert |head| < |f[i]|;
    } else {
      i := if !Lacks(r.keyId, '\n') then 2 else 8;
      var head, tail := CutAtNewline(f[i + 1]);
      var x := f[i] + ['\n'] + head;
      assert x + ['\n'] + tail == f[i] + ['\n'] + f[i + 1];
      MovedIsSame(r, i, x, tail);
      b := Moved(r, i, x, tail);
      assert |tail| < |f[i + 1]|;
    }
  }

  /**
   The builder does not look at newlines in the other fields: the signed text is of one request alone if and only if
   none of them has one.
   */
  lemma SignedTextNamesOneIff(a: Request, schema: Schema)
    requires Builds(a, schema)
    ensures OneLine(a) <==> forall b: Request, t: Schema :: Builds(b, t) && SignedText(b) == SignedText(a) ==> b == a
  {
    if OneLine(a) {
      forall b: Request, t: Schema | Builds(b, t) && SignedText(b) == SignedText(a) ensures b == a {
        SignedTextInjective(a, b, schema, t);
      }
    } else {
      var b := AnotherRequest(a);
      assert Builds(b, schema);
    }
  }
}
