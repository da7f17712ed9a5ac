/** The stack matcher that finds the end of a serialized block, against a grammar of brackets and quotes. */
module SerializedBlocks {
  import opened Wrappers

  // ----- The grammar

  /** Inside quotes: a character, or a backslash and any character. */
  datatype QuotedChar = Bare(c: char) | Backslash(c: char)

  datatype Piece =
    | Letter(c: char)
    | Quoted(mark: char, body: seq<QuotedChar>)
    | Block(opener: char, pieces: seq<Piece>)

  predicate IsMark(c: char) { c == '\"' || c == '\'' }

  predicate IsOpener(c: char) { c == '{' || c == '[' }

  predicate IsCloser(c: char) { c == '}' || c == ']' }

  function Closer(opener: char): char { if opener == '{' then '}' else ']' }

  function Opener(closer: char): char { if closer == '}' then '{' else '[' }

  predicate Valid(p: Piece) {
    match p
    case Letter(c) => !IsMark(c) && !IsOpener(c) && !IsCloser(c)
    case Quoted(mark, body) =>
      IsMark(mark) && forall i :: 0 <= i < |body| && body[i].Bare? ==> body[i].c != mark && body[i].c != '\\'
    case Block(opener, pieces) => IsOpener(opener) && forall i :: 0 <= i < |pieces| ==> Valid(pieces[i])
  }

  function CharText(q: QuotedChar): string { if q.Bare? then [q.c] else ['\\', q.c] }

  function BodyText(body: seq<QuotedChar>): string {
    if body == [] then "" else CharText(body[0]) + BodyText(body[1..])
  }

  function Text(p: Piece): (s: string)
    ensures s != ""
  {
    match p
    case Letter(c) => [c]
    case Quoted(mark, body) => [mark] + BodyText(body) + [mark]
    case Block(opener, pieces) => [opener] + TextAll(pieces) + [Closer(opener)]
  }

  function TextAll(pieces: seq<Piece>): string {
    if pieces == [] then "" else Text(pieces[0]) + TextAll(pieces[1..])
  }

  predicate AllValid(pieces: seq<Piece>) { forall i :: 0 <= i < |pieces| ==> Valid(pieces[i]) }

  // ----- The matcher

  datatype State = State(stack: seq<char>, quote: Option<char>, escaped: bool)

  datatype Outcome = Going(state: State) | Ended | Failed

  /** One character of findSerializedBlockEnd. */
  function Step(s: State, c: char): Outcome {
    if s.quote.Some? then
      if s.escaped then Going(s.(escaped := false))
      else if c == '\\' then Going(s.(escaped := true))
      else if c == s.quote.value then Going(s.(quote := None))
      else Going(s)
    else if IsMark(c) then Going(s.(quote := Some(c)))
    else if IsOpener(c) then Going(s.(stack := s.stack + [c]))
    else if !IsCloser(c) then Going(s)
    else if s.stack == [] || s.stack[|s.stack| - 1] != Opener(c) then Failed
    else if |s.stack| == 1 then Ended
    else Going(s.(stack := s.stack[..|s.stack| - 1]))
  }

  /** Where the first block that is open at `i` ends, if it does. */
  function EndsAt(value: string, i: nat, s: State): (end: Option<nat>)
    requires i <= |value|
    ensures end.Some? ==> i < end.value <= |value|
    decreases |value| - i
  {
    if i == |value| then None
    else
      match Step(s, value[i])
      case Going(s') => EndsAt(value, i + 1, s')
      case Ended => Some(i + 1)
      case Failed => None
  }

  const START := State([], None, false)

  /** findSerializedBlockEnd: the end of the block, or of the text where no block ends. */
  function BlockEnd(value: string, start: nat): nat
    requires start <= |value|
  {
    var end := EndsAt(value, start, START);
    if end.Some? then end.value else |value|
  }

  /** `t` stands in `value` at `i`. */
  predicate StandsAt(value: string, i: nat, t: string) { i + |t| <= |value| && value[i..i + |t|] == t }

  lemma StandsSplit(value: string, i: nat, a: string, b: string)
    requires StandsAt(value, i, a + b)
    ensures StandsAt(value, i, a) && StandsAt(value, i + |a|, b)
  {
    assert value[i..i + |a|] == value[i..i + |a + b|][..|a|];
    assert value[i + |a|..i + |a| + |b|] == value[i..i + |a + b|][|a|..];
  }

  // ----- A block in the text is matched

  lemma {:induction false} BodyIsSkipped(value: string, i: nat, body: seq<QuotedChar>, s: State)
    requires s.quote.Some? && !s.escaped && StandsAt(value, i, BodyText(body))
    requires forall k :: 0 <= k < |body| && body[k].Bare? ==> body[k].c != s.quote.value && body[k].c != '\\'
    ensures EndsAt(value, i, s) == EndsAt(value, i + |BodyText(body)|, s)
    decreases |body|
  {
    if body != [] {
      var head := CharText(body[0]);
      StandsSplit(value, i, head, BodyText(body[1..]));
      assert value[i..i + |head|][0] == value[i];
      if body[0].Backslash? {
        assert value[i..i + 2][1] == value[i + 1];
        assert EndsAt(value, i, s) == EndsAt(value, i + 1, s.(escaped := true));
        assert s.(escaped := true).(escaped := false) == s;
      }
      BodyIsSkipped(value, i + |head|, body[1..], s);
    }
  }

  lemma QuotedIsSkipped(value: string, i: nat, p: Piece, s: State)
    requires p.Quoted? && Valid(p) && s.quote.None? && !s.escaped && StandsAt(value, i, Text(p))
    ensures EndsAt(value, i, s) == EndsAt(value, i + |Text(p)|, s)
  {
    var mark, body := p.mark, p.body;
    assert [mark] + (BodyText(body) + [mark]) == Text(p);
    StandsSplit(value, i, [mark], BodyText(body) + [mark]);
    StandsSplit(value, i + 1, BodyText(body), [mark]);
    CharAt(value, i, mark);
    var inside := s.(quote := Some(mark));
    assert Step(s, mark) == Going(inside);
    BodyIsSkipped(value, i + 1, body, inside);
    CharAt(value, i + 1 + |BodyText(body)|, mark);
    assert Step(inside, mark) == Going(s);
  }

  lemma CharAt(value: string, i: nat, c: char)
    requires StandsAt(value, i, [c])
    ensures i < |value| && value[i] == c
  {
    assert value[i..i + 1][0] == value[i];
  }

  /** Opening and closing a block around its pieces; `s.stack` is not empty, so the closer does not end the match. */
  lemma BlockIsSkipped(value: string, i: nat, p: Piece, s: State)
    requires p.Block? && Valid(p) && s.quote.None? && !s.escaped && s.stack != [] && StandsAt(value, i, Text(p))
    ensures var inside := s.(stack := s.stack + [p.opener]);
            && StandsAt(value, i + 1, TextAll(p.pieces)) && EndsAt(value, i, s) == EndsAt(value, i + 1, inside)
            && EndsAt(value, i + 1 + |TextAll(p.pieces)|, inside) == EndsAt(value, i + |Text(p)|, s)
  {
    var opener, pieces := p.opener, p.pieces;
    assert Text(p) == [opener] + (TextAll(pieces) + [Closer(opener)]);
    StandsSplit(value, i, [opener], TextAll(pieces) + [Closer(opener)]);
    StandsSplit(value, i + 1, TextAll(pieces), [Closer(opener)]);
    CharAt(value, i, opener);
    CharAt(value, i + 1 + |TextAll(pieces)|, Closer(opener));
    var inside := s.(stack := s.stack + [opener]);
    assert inside.stack[..|inside.stack| - 1] == s.stack;
    assert Step(inside, Closer(opener)) == Going(s);
  }

  lemma {:induction false} PieceIsSkipped(value: string, i: nat, p: Piece, s: State)
    requires Valid(p) && s.quote.None? && !s.escaped && s.stack != [] && StandsAt(value, i, Text(p))
    ensures EndsAt(value, i, s) == EndsAt(value, i + |Text(p)|, s)
    decreases p
  {
    match p
    case Letter(c) => CharAt(value, i, c);
    case Quoted(_, _) => QuotedIsSkipped(value, i, p, s);
    case Block(opener, pieces) =>
      BlockIsSkipped(value, i, p, s);
      PiecesAreSkipped(value, i + 1, pieces, s.(stack := s.stack + [opener]));
  }

  lemma {:induction false} PiecesAreSkipped(value: string, i: nat, pieces: seq<Piece>, s: State)
    requires AllValid(pieces) && s.quote.None? && !s.escaped && s.stack != [] && StandsAt(value, i, TextAll(pieces))
    ensures EndsAt(value, i, s) == EndsAt(value, i + |TextAll(pieces)|, s)
    decreases pieces
  {
    if pieces != [] {
      StandsSplit(value, i, Text(pieces[0]), TextAll(pieces[1..]));
      PieceIsSkipped(value, i, pieces[0], s);
      PiecesAreSkipped(value, i + |Text(pieces[0])|, pieces[1..], s);
    }
  }

  /** A block that stands at the start is found, to its very end. */
  lemma BlockIsFound(value: string, start: nat, b: Piece)
    requires start <= |value| && b.Block? && Valid(b) && StandsAt(value, start, Text(b))
    ensures EndsAt(value, start, START) == Some(start + |Text(b)|)
  {
    assert Text(b) == [b.opener] + (TextAll(b.pieces) + [Closer(b.opener)]);
    StandsSplit(value, start, [b.opener], TextAll(b.pieces) + [Closer(b.opener)]);
    StandsSplit(value, start + 1, TextAll(b.pieces), [Closer(b.opener)]);
    assert value[start..start + 1][0] == value[start];
    var inside := State([b.opener], None, false);
    assert Step(START, b.opener) == Going(inside);
    PiecesAreSkipped(value, start + 1, b.pieces, inside);
    var close := start + 1 + |TextAll(b.pieces)|;
    assert value[close..close + 1][0] == value[close];
  }

  // ----- What is matched is a block

  /** A block that is open: its opener and the pieces so far. */
  datatype Frame = Frame(opener: char, pieces: seq<Piece>)

  /** The quoted text that is open, if any. */
  datatype Partial = NoQuote | InQuote(mark: char, body: seq<QuotedChar>, escaping: bool)

  function FramesText(frames: seq<Frame>): string {
    if frames == [] then ""
    else var last := frames[|frames| - 1]; FramesText(frames[..|frames| - 1]) + [last.opener] + TextAll(last.pieces)
  }

  function PartialText(q: Partial): string {
    if q.NoQuote? then "" else [q.mark] + BodyText(q.body) + (if q.escaping then "\\" else "")
  }

  /** The matcher's state is what has been read: open blocks of valid pieces, and an open quote. */
  ghost predicate Reads(s: State, frames: seq<Frame>, q: Partial) {
    && |s.stack| == |frames| && frames != []
    && (forall k :: 0 <= k < |frames| ==>
        IsOpener(frames[k].opener) && s.stack[k] == frames[k].opener && AllValid(frames[k].pieces))
    && (q.NoQuote? ==> s.quote.None? && !s.escaped)
    && (q.InQuote? ==> s.quote == Some(q.mark) && s.escaped == q.escaping && IsMark(q.mark)
                       && forall k :: 0 <= k < |q.body| && q.body[k].Bare? ==>
                          q.body[k].c != q.mark && q.body[k].c != '\\')
  }

  /** `read` is the text of the open blocks and the open quote. */
  ghost predicate Tells(read: string, frames: seq<Frame>, q: Partial) { read == FramesText(frames) + PartialText(q) }

  lemma Associates(a: string, b: string, c: string)
    ensures a + (b + c) == a + b + c
  {
  }

  lemma {:induction false} TextAllAppend(pieces: seq<Piece>, p: Piece)
    ensures TextAll(pieces + [p]) == TextAll(pieces) + Text(p)
  {
    if pieces == [] {
      assert pieces + [p] == [p];
    } else {
      TextAllAppend(pieces[1..], p);
      var more := pieces + [p];
      assert more[0] == pieces[0] && more[1..] == pieces[1..] + [p];
      assert TextAll(more) == Text(pieces[0]) + TextAll(more[1..]);
      Associates(Text(pieces[0]), TextAll(pieces[1..]), Text(p));
    }
  }

  lemma {:induction false} BodyTextAppend(body: seq<QuotedChar>, q: QuotedChar)
    ensures BodyText(body + [q]) == BodyText(body) + CharText(q)
  {
    if body == [] {
      assert body + [q] == [q];
    } else {
      BodyTextAppend(body[1..], q);
      assert (body + [q])[1..] == body[1..] + [q];
    }
  }

  /** The innermost open block with one more piece. */
  function Grown(frames: seq<Frame>, p: Piece): seq<Frame>
    requires frames != []
  {
    var n := |frames| - 1;
    frames[..n] + [Frame(frames[n].opener, frames[n].pieces + [p])]
  }

  lemma GrownText(frames: seq<Frame>, p: Piece)
    requires frames != []
    ensures FramesText(Grown(frames, p)) == FramesText(frames) + Text(p)
  {
    var n := |frames| - 1;
    assert Grown(frames, p)[..n] == frames[..n];
    TextAllAppend(frames[n].pieces, p);
  }

  /** One more character inside quotes, that does not close them. */
  lemma ReadQuoted(s: State, frames: seq<Frame>, q: Partial, c: char, read: string) returns (q': Partial)
    requires Reads(s, frames, q) && q.InQuote? && Tells(read, frames, q) && (q.escaping || c != q.mark)
    ensures Step(s, c).Going? && Reads(Step(s, c).state, frames, q') && Tells(read + [c], frames, q')
  {
    if q.escaping {
      q' := InQuote(q.mark, q.body + [Backslash(c)], false);
      BodyTextAppend(q.body, Backslash(c));
    } else if c == '\\' {
      q' := q.(escaping := true);
    } else {
      q' := InQuote(q.mark, q.body + [Bare(c)], false);
      BodyTextAppend(q.body, Bare(c));
    }
    assert PartialText(q') == PartialText(q) + [c];
  }

  /** The mark that closes the quotes. */
  lemma ReadMark(s: State, frames: seq<Frame>, q: Partial, read: string) returns (frames': seq<Frame>)
    requires Reads(s, frames, q) && q.InQuote? && !q.escaping && Tells(read, frames, q)
    ensures Step(s, q.mark).Going? && Reads(Step(s, q.mark).state, frames', NoQuote)
        && Tells(read + [q.mark], frames', NoQuote)
  {
    var p := Quoted(q.mark, q.body);
    frames' := Grown(frames, p);
    GrownText(frames, p);
    assert PartialText(q) == [q.mark] + BodyText(q.body);
    Associates(FramesText(frames), PartialText(q), [q.mark]);
    GrownIsRead(s.(quote := None), frames, p);
  }

  /** One more character outside quotes, short of the last closer. */
  lemma ReadPlain(s: State, frames: seq<Frame>, c: char, read: string) returns (frames': seq<Frame>, q': Partial)
    requires Reads(s, frames, NoQuote) && Step(s, c).Going? && Tells(read, frames, NoQuote)
    ensures Reads(Step(s, c).state, frames', q') && Tells(read + [c], frames', q')
  {
    frames', q' := frames, NoQuote;
    if IsMark(c) {
      q' := InQuote(c, [], false);
      assert PartialText(q') == [c];
    } else if IsOpener(c) {
      frames' := frames + [Frame(c, [])];
      assert frames'[..|frames|] == frames;
    } else if !IsCloser(c) {
      frames' := Grown(frames, Letter(c));
      GrownText(frames, Letter(c));
    } else {
      frames' := CloseOne(s, frames, c);
    }
  }

  lemma ReadOne(s: State, frames: seq<Frame>, q: Partial, c: char, read: string)
      returns (frames': seq<Frame>, q': Partial)
    requires Reads(s, frames, q) && Step(s, c).Going? && Tells(read, frames, q)
    ensures Reads(Step(s, c).state, frames', q') && Tells(read + [c], frames', q')
  {
    if q.NoQuote? {
      frames', q' := ReadPlain(s, frames, c, read);
    } else if !q.escaping && c == q.mark {
      frames' := ReadMark(s, frames, q, read);
      q' := NoQuote;
    } else {
      q' := ReadQuoted(s, frames, q, c, read);
      frames' := frames;
    }
  }

  lemma CloseOne(s: State, frames: seq<Frame>, c: char) returns (frames': seq<Frame>)
    requires Reads(s, frames, NoQuote) && IsCloser(c) && Step(s, c).Going?
    ensures Reads(Step(s, c).state, frames', NoQuote) && FramesText(frames') == FramesText(frames) + [c]
  {
    var n := |frames| - 1;
    var outer, p := frames[..n], Block(frames[n].opener, frames[n].pieces);
    frames' := Grown(outer, p);
    GrownText(outer, p);
    assert Closer(p.opener) == c;
    ClosedText(FramesText(outer), p);
    GrownIsRead(Step(s, c).state, outer, p);
  }

  lemma ClosedText(before: string, p: Piece)
    requires p.Block?
    ensures before + Text(p) == before + [p.opener] + TextAll(p.pieces) + [Closer(p.opener)]
  {
  }

  lemma GrownIsRead(s: State, frames: seq<Frame>, p: Piece)
    requires Reads(s, frames, NoQuote) && Valid(p)
    ensures Reads(s, Grown(frames, p), NoQuote)
  {
  }

  /** The closer that ends the match closes the only open block. */
  lemma LastBlock(s: State, frames: seq<Frame>, q: Partial, c: char, read: string) returns (b: Piece)
    requires Reads(s, frames, q) && Step(s, c).Ended? && Tells(read, frames, q)
    ensures b.Block? && Valid(b) && Text(b) == read + [c]
  {
    b := Block(frames[0].opener, frames[0].pieces);
    assert frames[..0] == [] && q.NoQuote?;
    assert FramesText(frames) == [frames[0].opener] + TextAll(frames[0].pieces);
  }

  /** From any such state, where the matcher ends, the text since the start is one block. */
  lemma {:induction false} EndIsBlock(value: string, start: nat, i: nat, s: State, frames: seq<Frame>, q: Partial)
      returns (b: Piece)
    requires start <= i <= |value| && Reads(s, frames, q) && Tells(value[start..i], frames, q)
    requires EndsAt(value, i, s).Some?
    ensures b.Block? && Valid(b) && Text(b) == value[start..EndsAt(value, i, s).value]
    decreases |value| - i
  {
    var c, read := value[i], value[start..i];
    assert value[start..i + 1] == read + [c];
    if Step(s, c).Going? {
      var frames', q' := ReadOne(s, frames, q, c, read);
      b := EndIsBlock(value, start, i + 1, Step(s, c).state, frames', q');
    } else {
      b := LastBlock(s, frames, q, c, read);
    }
  }

  ghost predicate BlockStands(value: string, start: nat, end: nat) {
    start <= end <= |value| && exists b: Piece :: b.Block? && Valid(b) && Text(b) == value[start..end]
  }

  /** From an opener, the matcher finds exactly the block that stands there, and the end of the text if none does. */
  lemma BlockEndIff(value: string, start: nat)
    requires start < |value| && IsOpener(value[start])
    ensures forall end: nat :: BlockStands(value, start, end) ==> BlockEnd(value, start) == end
    ensures (forall end: nat :: !BlockStands(value, start, end)) ==> BlockEnd(value, start) == |value|
    ensures EndsAt(value, start, START).Some? <==> exists end: nat :: BlockStands(value, start, end)
  {
    forall end: nat | BlockStands(value, start, end) ensures EndsAt(value, start, START) == Some(end) {
      var b: Piece :| b.Block? && Valid(b) && Text(b) == value[start..end];
      BlockIsFound(value, start, b);
    }
    if EndsAt(value, start, START).Some? {
      var opener := value[start];
      var s, frames := State([opener], None, false), [Frame(opener, [])];
      assert Step(START, opener) == Going(s);
      assert frames[..0] == [] && FramesText(frames) == [opener];
      assert value[start..start + 1] == [opener] + "";
      var b := EndIsBlock(value, start, start + 1, s, frames, NoQuote);
      assert BlockStands(value, start, EndsAt(value, start, START).value);
    }
  }

  /** findSerializedBlockEnd: the loop over the characters, with its stack and its quote. */
  method FindSerializedBlockEnd(value: string, start: nat) returns (end: nat)
    requires start <= |value|
    ensures end == BlockEnd(value, start)
  {
    var stack: seq<char> := [];
    var quote: Option<char> := None;
    var escaped := false;
    for index := start to |value|
      invariant EndsAt(value, start, START) == EndsAt(value, index, State(stack, quote, escaped))
    {
      var character := value[index];
      if quote.Some? {
        if escaped { escaped := false; }
        else if character == '\\' { escaped := true; }
        else if character == quote.value { quote := None; }
      } else if IsMark(character) {
        quote := Some(character);
      } else if IsOpener(character) {
        stack := stack + [character];
      } else if IsCloser(character) {
        var expected := if character == '}' then '{' else '[';
        if stack == [] || stack[|stack| - 1] != expected { return |value|; }
        stack := stack[..|stack| - 1];
        if stack == [] { return index + 1; }
      }
    }
    return |value|;
  }
}
