/** Bytes, and the lines a reader makes of them however they arrive. */
module Wire {

  type Byte = b: int | 0 <= b < 256

  type Bytes = seq<Byte>

  const LF: Byte := 10
  const CR: Byte := 13
  const SPACE: Byte := 32

  /** The lines that have ended, and what has come of the next one. */
  datatype Split = Split(lines: seq<Bytes>, rest: Bytes)

  function Feed(sp: Split, s: Bytes): Split
    decreases |s|
  {
    if s == [] then sp
    else if s[0] == LF then Feed(Split(sp.lines + [sp.rest], []), s[1..])
    else Feed(Split(sp.lines, sp.rest + [s[0]]), s[1..])
  }

  /** `s.split(b"\n")`, its last part apart. */
  function Lines(s: Bytes): Split {
    Feed(Split([], []), s)
  }

  lemma {:induction false} FeedTwo(sp: Split, a: Bytes, b: Bytes)
    ensures Feed(sp, a + b) == Feed(Feed(sp, a), b)
    decreases |a|
  {
    if a == [] {
      assert a + b == b;
    } else {
      assert (a + b)[1..] == a[1..] + b;
      FeedTwo(if a[0] == LF then Split(sp.lines + [sp.rest], []) else Split(sp.lines, sp.rest + [a[0]]), a[1..], b);
    }
  }

  /** Lines that were there already stay in front. */
  lemma {:induction false} FeedAfter(before: seq<Bytes>, sp: Split, s: Bytes)
    ensures Feed(Split(before + sp.lines, sp.rest), s)
         == Split(before + Feed(sp, s).lines, Feed(sp, s).rest)
    decreases |s|
  {
    if s != [] {
      if s[0] == LF {
        assert before + (sp.lines + [sp.rest]) == (before + sp.lines) + [sp.rest];
        FeedAfter(before, Split(sp.lines + [sp.rest], []), s[1..]);
      } else {
        FeedAfter(before, Split(sp.lines, sp.rest + [s[0]]), s[1..]);
      }
    }
  }

  lemma {:induction false} FeedNoLf(sp: Split, s: Bytes)
    requires LF !in s
    ensures Feed(sp, s) == Split(sp.lines, sp.rest + s)
    decreases |s|
  {
    if s == [] {
      assert sp.rest + s == sp.rest;
    } else {
      assert s == [s[0]] + s[1..];
      FeedNoLf(Split(sp.lines, sp.rest + [s[0]]), s[1..]);
      assert sp.rest + [s[0]] + s[1..] == sp.rest + s;
    }
  }

  lemma {:induction false} NoLfLeft(sp: Split, s: Bytes)
    requires LF !in sp.rest
    ensures LF !in Feed(sp, s).rest
    decreases |s|
  {
    if s != [] {
      NoLfLeft(if s[0] == LF then Split(sp.lines + [sp.rest], []) else Split(sp.lines, sp.rest + [s[0]]), s[1..]);
    }
  }

  /** Reading on from what is pending gives the same lines as reading all of it at once. */
  lemma LinesOfTwo(a: Bytes, b: Bytes)
    ensures LF !in Lines(a).rest
    ensures Lines(a + b).lines == Lines(a).lines + Lines(Lines(a).rest + b).lines
    ensures Lines(a + b).rest == Lines(Lines(a).rest + b).rest
  {
    var first := Lines(a);
    NoLfLeft(Split([], []), a);
    FeedTwo(Split([], []), a, b);
    FeedTwo(Split([], []), first.rest, b);
    FeedNoLf(Split([], []), first.rest);
    assert [] + first.rest == first.rest;
    FeedAfter(first.lines, Split([], first.rest), b);
    assert first.lines + [] == first.lines;
  }

  lemma LineAlone(line: Bytes)
    requires LF !in line
    ensures Lines(line + [LF]) == Split([line], [])
  {
    FeedTwo(Split([], []), line, [LF]);
    FeedNoLf(Split([], []), line);
    assert [] + line == line;
    var sp := Split([], line);
    assert [LF][1..] == [];
    assert Feed(sp, [LF]) == Feed(Split(sp.lines + [sp.rest], []), []);
  }

  lemma LineFirst(line: Bytes, more: Bytes)
    requires LF !in line
    ensures Lines(line + [LF] + more).lines == [line] + Lines(more).lines
    ensures Lines(line + [LF] + more).rest == Lines(more).rest
  {
    LineAlone(line);
    LinesOfTwo(line + [LF], more);
    assert [] + more == more;
  }

  function Joined(pieces: seq<Bytes>): Bytes {
    if pieces == [] then [] else Joined(pieces[..|pieces| - 1]) + pieces[|pieces| - 1]
  }

  predicate StartsWith(s: Bytes, prefix: Bytes) {
    |prefix| <= |s| && s[..|prefix|] == prefix
  }

  // ----- Server-sent events (section 9.2.6 of the HTML Living Standard): the framing both streams are written in

  const DATA_LINE: Bytes := [0x64, 0x61, 0x74, 0x61, 0x3a, 0x20]   // "data: "

  function EventBytes(text: Bytes): Bytes {
    DATA_LINE + text + [LF, LF]
  }

  function EventBody(texts: seq<Bytes>): Bytes {
    if texts == [] then [] else EventBody(texts[..|texts| - 1]) + EventBytes(texts[|texts| - 1])
  }

  function EventLines(texts: seq<Bytes>): seq<Bytes> {
    if texts == [] then [] else EventLines(texts[..|texts| - 1]) + [DATA_LINE + texts[|texts| - 1], []]
  }

  lemma OneEventLines(text: Bytes)
    requires LF !in text
    ensures Lines(EventBytes(text)) == Split([DATA_LINE + text, []], [])
  {
    LineFirst(DATA_LINE + text, [LF]);
    LineAlone([]);
    assert [] + [LF] == [LF];
    assert DATA_LINE + text + [LF] + [LF] == EventBytes(text);
  }

  /** A body of events splits into the line of each and an empty line after it, with nothing pending. */
  lemma {:induction false} BodyLines(texts: seq<Bytes>)
    requires forall text :: text in texts ==> LF !in text
    ensures Lines(EventBody(texts)) == Split(EventLines(texts), [])
  {
    if texts != [] {
      var n := |texts| - 1;
      BodyLines(texts[..n]);
      OneEventLines(texts[n]);
      LinesOfTwo(EventBody(texts[..n]), EventBytes(texts[n]));
      assert [] + EventBytes(texts[n]) == EventBytes(texts[n]);
    }
  }

  /** The framing alone costs eight bytes for each event. */
  lemma {:induction false} BodyAtLeast(texts: seq<Bytes>)
    ensures |EventBody(texts)| >= 8 * |texts|
  {
    if texts != [] {
      BodyAtLeast(texts[..|texts| - 1]);
    }
  }

  /** `b"\n".join(parts)`. */
  function JoinLines(parts: seq<Bytes>): Bytes {
    if parts == [] then []
    else if |parts| == 1 then parts[0]
    else JoinLines(parts[..|parts| - 1]) + [LF] + parts[|parts| - 1]
  }
}
