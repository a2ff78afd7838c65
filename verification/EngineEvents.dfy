/** The engine's side of the stream: the lines of its body, however they arrive, and the events they make (engine.py,
    `_lines`, `EngineStream.next_event` and `_event`), up to [DONE] or to the first rule that is broken. */
module EngineEvents {

  import opened Wrappers
  import opened Wire
  import opened Chunks
  import Consumer

  type Parse = Consumer.Parse

  const MAX_LINE_BYTES: nat := 1_000_000

  const DATA: Bytes := [0x64, 0x61, 0x74, 0x61, 0x3a]  // "data:"
  const COLON: Byte := 0x3a

  /** Whether [DONE] has come, or a rule was broken: nothing is read after either. */
  datatype Status = Open | Done | Broken

  datatype Reader = Reader(events: seq<Fields>, data: seq<Bytes>, status: Status)

  const NEW := Reader([], [], Open)

  function WithoutCr(line: Bytes): Bytes {
    if line != [] && line[|line| - 1] == CR then line[..|line| - 1] else line
  }

  function WithoutSpace(s: Bytes): Bytes {
    if s != [] && s[0] == SPACE then s[1..] else s
  }

  function TakeEvent(parse: Parse, r: Reader, data: Bytes): Reader {
    if data == Consumer.DONE then Reader(r.events, [], Done)
    else
      match parse(data)
      case Some(Obj(event)) => Reader(r.events + [event], [], Open)
      case _ => Reader(r.events, [], Broken)
  }

  function TakeLine(parse: Parse, r: Reader, ended: Bytes): Reader {
    var line := WithoutCr(ended);
    if !r.status.Open? then r
    else if StartsWith(line, DATA) then r.(data := r.data + [WithoutSpace(line[|DATA|..])])
    else if line != [] && line[0] == COLON then r
    else if line != [] then r.(status := Broken)
    else if r.data != [] then TakeEvent(parse, r, JoinLines(r.data))
    else r
  }

  function TakeLines(parse: Parse, r: Reader, lines: seq<Bytes>): Reader {
    if lines == [] then r else TakeLine(parse, TakeLines(parse, r, lines[..|lines| - 1]), lines[|lines| - 1])
  }

  lemma {:induction false} TakeTwo(parse: Parse, r: Reader, a: seq<Bytes>, b: seq<Bytes>)
    ensures TakeLines(parse, r, a + b) == TakeLines(parse, TakeLines(parse, r, a), b)
    decreases |b|
  {
    hide TakeLine;
    if b == [] {
      assert a + b == a;
    } else {
      var n := |b| - 1;
      assert (a + b)[..|a + b| - 1] == a + b[..n];
      TakeTwo(parse, r, a, b[..n]);
    }
  }

  /** The body ends here: without [DONE] it is broken. */
  function Close(r: Reader): Reader {
    if r.status.Open? then r.(status := Broken) else r
  }

  /** The events of a body read at once. */
  function ReadBody(parse: Parse, body: Bytes): Reader {
    Close(TakeLines(parse, NEW, Lines(body).lines))
  }

  ghost predicate ShortLines(body: Bytes) {
    |Lines(body).rest| <= MAX_LINE_BYTES && forall line :: line in Lines(body).lines ==> |line| <= MAX_LINE_BYTES
  }

  /** The reader with what has come of the next line. */
  datatype Progress = Progress(reader: Reader, pending: Bytes)

  /** One piece more. A line that does not end within the bound breaks the stream. */
  function ReadPiece(parse: Parse, p: Progress, piece: Bytes): Progress {
    if !p.reader.status.Open? then p
    else
      var split := Lines(p.pending + piece);
      var r := TakeLines(parse, p.reader, split.lines);
      Progress(if r.status.Open? && |split.rest| > MAX_LINE_BYTES then r.(status := Broken) else r, split.rest)
  }

  function ReadOf(parse: Parse, pieces: seq<Bytes>): Progress {
    if pieces == [] then Progress(NEW, [])
    else ReadPiece(parse, ReadOf(parse, pieces[..|pieces| - 1]), pieces[|pieces| - 1])
  }

  /** One piece more, in a reader that has not settled. */
  method ReadOne(parse: Parse, p: Progress, piece: Bytes) returns (q: Progress)
    requires p.reader.status.Open?
    ensures q == ReadPiece(parse, p, piece)
  {
    hide Lines, TakeLines;
    var split := Lines(p.pending + piece);
    var r := TakeAll(parse, p.reader, split.lines);
    if r.status.Open? && |split.rest| > MAX_LINE_BYTES {
      r := r.(status := Broken);
    }
    q := Progress(r, split.rest);
  }

  method ReadPieces(parse: Parse, pieces: seq<Bytes>) returns (r: Reader)
    ensures r == Close(ReadOf(parse, pieces).reader)
  {
    hide ReadPiece;
    var p := Progress(NEW, []);
    var i := 0;
    while i < |pieces| && p.reader.status.Open?
      invariant 0 <= i <= |pieces| && p == ReadOf(parse, pieces[..i])
    {
      assert pieces[..i + 1][..i] == pieces[..i];
      p := ReadOne(parse, p, pieces[i]);
      i := i + 1;
    }
    Settled(parse, pieces, i);
    r := Close(p.reader);
  }

  method TakeAll(parse: Parse, from: Reader, lines: seq<Bytes>) returns (r: Reader)
    ensures r == TakeLines(parse, from, lines)
  {
    r := from;
    var i := 0;
    while i < |lines|
      invariant 0 <= i <= |lines| && r == TakeLines(parse, from, lines[..i])
    {
      assert lines[..i + 1][..i] == lines[..i];
      r := TakeLine(parse, r, lines[i]);
      i := i + 1;
    }
    assert lines[..i] == lines;
  }

  /** Once the reader has settled, the rest of the body changes nothing. */
  lemma {:induction false} Settled(parse: Parse, pieces: seq<Bytes>, i: nat)
    requires i <= |pieces| && (i < |pieces| ==> !ReadOf(parse, pieces[..i]).reader.status.Open?)
    ensures ReadOf(parse, pieces) == ReadOf(parse, pieces[..i])
  {
    hide Lines, TakeLines;
    if i == |pieces| {
      assert pieces[..i] == pieces;
    } else {
      assert pieces[..|pieces| - 1][..i] == pieces[..i];
      Settled(parse, pieces[..|pieces| - 1], i);
    }
  }

  lemma {:induction false} NothingMore(parse: Parse, r: Reader, lines: seq<Bytes>)
    requires !r.status.Open?
    ensures TakeLines(parse, r, lines) == r
  {
    if lines != [] {
      NothingMore(parse, r, lines[..|lines| - 1]);
    }
  }

  /** Where the reader would be with the first `i` pieces read at once. */
  function AtOnce(parse: Parse, pieces: seq<Bytes>, i: nat): Reader
    requires i <= |pieces|
  {
    TakeLines(parse, NEW, Lines(Joined(pieces[..i])).lines)
  }

  /** After `i` pieces a line is pending past the bound, and the reader has not settled. */
  predicate PastAt(parse: Parse, pieces: seq<Bytes>, i: nat)
    requires i <= |pieces|
  {
    AtOnce(parse, pieces, i).status.Open? && |Lines(Joined(pieces[..i])).rest| > MAX_LINE_BYTES
  }

  ghost predicate NeverPast(parse: Parse, pieces: seq<Bytes>) {
    forall i :: 0 <= i <= |pieces| ==> !PastAt(parse, pieces, i)
  }

  lemma SamePast(parse: Parse, pieces: seq<Bytes>, n: nat)
    requires n <= |pieces|
    ensures forall i :: 0 <= i <= n ==>
              && PastAt(parse, pieces[..n], i) == PastAt(parse, pieces, i)
              && AtOnce(parse, pieces[..n], i) == AtOnce(parse, pieces, i)
    ensures NeverPast(parse, pieces) ==> NeverPast(parse, pieces[..n])
  {
    hide Lines, TakeLines;
    assert forall i :: 0 <= i <= n ==> pieces[..n][..i] == pieces[..i];
  }

  /** What one piece more would add, read at once. */
  lemma OnePieceMore(parse: Parse, pieces: seq<Bytes>)
    requires pieces != []
    ensures var n := |pieces| - 1;
            var split := Lines(Lines(Joined(pieces[..n])).rest + pieces[n]);
            && AtOnce(parse, pieces, n + 1) == TakeLines(parse, AtOnce(parse, pieces, n), split.lines)
            && Lines(Joined(pieces[..n + 1])).rest == split.rest
            && (!AtOnce(parse, pieces, n).status.Open? ==> AtOnce(parse, pieces, n + 1) == AtOnce(parse, pieces, n))
  {
    hide Lines, TakeLines;
    var n := |pieces| - 1;
    assert pieces[..n + 1] == pieces;
    LinesOfTwo(Joined(pieces[..n]), pieces[n]);
    var more := Lines(Lines(Joined(pieces[..n])).rest + pieces[n]).lines;
    TakeTwo(parse, NEW, Lines(Joined(pieces[..n])).lines, more);
    if !AtOnce(parse, pieces, n).status.Open? {
      NothingMore(parse, AtOnce(parse, pieces, n), more);
    }
  }

  /** While no line is pending past the bound, the reader is where it would be with all of the body read at once. */
  lemma {:induction false} ReadsAlong(parse: Parse, pieces: seq<Bytes>)
    requires NeverPast(parse, pieces)
    ensures ReadOf(parse, pieces).reader == AtOnce(parse, pieces, |pieces|)
    ensures ReadOf(parse, pieces).reader.status.Open? ==> ReadOf(parse, pieces).pending == Lines(Joined(pieces)).rest
  {
    hide Lines, TakeLines;
    assert pieces[..|pieces|] == pieces;
    if pieces == [] {
      NothingRead(parse);
    } else {
      var n := |pieces| - 1;
      SamePast(parse, pieces, n);
      ReadsAlong(parse, pieces[..n]);
      OnePieceMore(parse, pieces);
      assert !PastAt(parse, pieces, n + 1);
    }
  }

  lemma NothingRead(parse: Parse)
    ensures Lines([]) == Split([], []) && TakeLines(parse, NEW, []) == NEW
  {
  }

  /** However a body of short lines is cut, it reads as if it had come at once. */
  lemma PiecesDoNotMatter(parse: Parse, pieces: seq<Bytes>)
    requires ShortLines(Joined(pieces))
    ensures Close(ReadOf(parse, pieces).reader) == ReadBody(parse, Joined(pieces))
  {
    hide Lines, TakeLines;
    forall i | 0 <= i <= |pieces|
      ensures |Lines(Joined(pieces[..i])).rest| <= MAX_LINE_BYTES
    {
      if |Lines(Joined(pieces[..i])).rest| > MAX_LINE_BYTES {
        LongLine(pieces, i);
      }
    }
    ReadsAlong(parse, pieces);
    assert pieces[..|pieces|] == pieces;
  }

  /** The first line that is pending past the bound breaks the stream there, whatever comes after. */
  lemma LongLineBreaks(parse: Parse, pieces: seq<Bytes>, i: nat)
    requires i <= |pieces| && PastAt(parse, pieces, i)
    requires forall k :: 0 <= k < i ==> !PastAt(parse, pieces, k)
    ensures ReadOf(parse, pieces).reader == AtOnce(parse, pieces, i).(status := Broken)
  {
    hide Lines, TakeLines, TakeLine, PastAt;
    var upTo := pieces[..i];
    NothingPast(parse, pieces);
    SamePast(parse, pieces, i);
    SamePast(parse, upTo, i - 1);
    ReadsAlong(parse, upTo[..i - 1]);
    OnePieceMore(parse, upTo);
    LastPieceBreaks(parse, upTo);
    Settled(parse, pieces, i);
  }

  lemma NothingPast(parse: Parse, pieces: seq<Bytes>)
    ensures !PastAt(parse, pieces, 0)
  {
    assert Joined(pieces[..0]) == [];
    NothingRead(parse);
  }

  lemma LastPieceBreaks(parse: Parse, pieces: seq<Bytes>)
    requires pieces != [] && PastAt(parse, pieces, |pieces|)
    requires var n, before := |pieces| - 1, pieces[..|pieces| - 1];
             && ReadOf(parse, before).reader == AtOnce(parse, pieces, n)
             && (AtOnce(parse, pieces, n).status.Open? ==> ReadOf(parse, before).pending == Lines(Joined(before)).rest)
    ensures ReadOf(parse, pieces).reader == AtOnce(parse, pieces, |pieces|).(status := Broken)
  {
    hide Lines, TakeLines;
    OnePieceMore(parse, pieces);
  }

  /** At every cut the reader is where it would be with all of it read at once, exactly if no line is pending past the
      bound before the reader has settled. */
  lemma InStepExactly(parse: Parse, pieces: seq<Bytes>)
    ensures (forall i :: 0 <= i <= |pieces| ==> ReadOf(parse, pieces[..i]).reader == AtOnce(parse, pieces, i))
       <==> NeverPast(parse, pieces)
  {
    hide Lines, TakeLines, ReadOf, PastAt, AtOnce;
    if NeverPast(parse, pieces) {
      forall i | 0 <= i <= |pieces|
        ensures ReadOf(parse, pieces[..i]).reader == AtOnce(parse, pieces, i)
      {
        SamePast(parse, pieces, i);
        ReadsAlong(parse, pieces[..i]);
      }
    } else {
      var i := FirstPast(parse, pieces);
      SamePast(parse, pieces, i);
      LongLineBreaks(parse, pieces[..i], i);
      PastIsOpen(parse, pieces, i);
    }
  }

  lemma PastIsOpen(parse: Parse, pieces: seq<Bytes>, i: nat)
    requires i <= |pieces| && PastAt(parse, pieces, i)
    ensures AtOnce(parse, pieces, i).status.Open?
  {
  }

  lemma FirstPast(parse: Parse, pieces: seq<Bytes>) returns (i: nat)
    requires !NeverPast(parse, pieces)
    ensures i <= |pieces| && PastAt(parse, pieces, i) && forall k :: 0 <= k < i ==> !PastAt(parse, pieces, k)
  {
    hide PastAt;
    i := 0;
    while !PastAt(parse, pieces, i)
      invariant i <= |pieces| && forall k :: 0 <= k < i ==> !PastAt(parse, pieces, k)
      decreases |pieces| - i
    {
      i := i + 1;
    }
  }

  /** The same events, and [DONE] or not. */
  predicate SameOutcome(a: Reader, b: Reader) {
    a.events == b.events && a.status == b.status
  }

  predicate NothingAfter(before: Reader, whole: Reader) {
    whole.events == before.events && !whole.status.Done?
  }

  lemma {:induction false} EventsStay(parse: Parse, r: Reader, lines: seq<Bytes>)
    ensures r.events <= TakeLines(parse, r, lines).events
  {
    if lines != [] {
      EventsStay(parse, r, lines[..|lines| - 1]);
    }
  }

  /** The reader never takes back an event. */
  lemma {:induction false} ReadsOn(parse: Parse, pieces: seq<Bytes>, i: nat)
    requires i <= |pieces|
    ensures ReadOf(parse, pieces[..i]).reader.events <= ReadOf(parse, pieces).reader.events
  {
    hide Lines, TakeLines;
    if i == |pieces| {
      assert pieces[..i] == pieces;
    } else {
      var n := |pieces| - 1;
      var p := ReadOf(parse, pieces[..n]);
      assert pieces[..n][..i] == pieces[..i];
      ReadsOn(parse, pieces[..n], i);
      EventsStay(parse, p.reader, Lines(p.pending + pieces[n]).lines);
    }
  }

  lemma {:induction false} LaterHasMore(parse: Parse, pieces: seq<Bytes>, i: nat, k: nat)
    requires i <= k <= |pieces|
    ensures AtOnce(parse, pieces, i).events <= AtOnce(parse, pieces, k).events
    decreases k - i
  {
    hide Lines, TakeLines;
    if i < k {
      LaterHasMore(parse, pieces, i, k - 1);
      var upTo := pieces[..k];
      SamePast(parse, pieces, k);
      OnePieceMore(parse, upTo);
      EventsStay(parse, AtOnce(parse, upTo, k - 1), Lines(Lines(Joined(upTo[..k - 1])).rest + upTo[k - 1]).lines);
    }
  }

  /** A cut body comes to the events and the end of the whole exactly if, after any cut at which a line is pending past
      the bound, the whole brings no event more and no [DONE]. */
  lemma CutReadsAsWhole(parse: Parse, pieces: seq<Bytes>)
    ensures SameOutcome(Close(ReadOf(parse, pieces).reader), ReadBody(parse, Joined(pieces)))
       <==> forall i :: 0 <= i <= |pieces| && PastAt(parse, pieces, i) ==>
              NothingAfter(AtOnce(parse, pieces, i), ReadBody(parse, Joined(pieces)))
  {
    hide Lines, TakeLines, ReadOf, PastAt;
    assert pieces[..|pieces|] == pieces;
    var whole := ReadBody(parse, Joined(pieces));
    if NeverPast(parse, pieces) {
      ReadsAlong(parse, pieces);
    } else {
      var i := FirstPast(parse, pieces);
      LongLineBreaks(parse, pieces, i);
      if NothingAfter(AtOnce(parse, pieces, i), whole) {
        forall k | i <= k <= |pieces|
          ensures NothingAfter(AtOnce(parse, pieces, k), whole)
        {
          LaterHasMore(parse, pieces, i, k);
          LaterHasMore(parse, pieces, k, |pieces|);
        }
      }
    }
  }

  /** A comment too long by one byte, and then the end: read at once the body is done, cut behind the comment it is
      broken. */
  lemma LongComment(parse: Parse, comment: Bytes)
    requires |comment| == MAX_LINE_BYTES + 1 && forall b :: b in comment ==> b == COLON
    ensures var pieces := [comment, [LF] + EventBytes(Consumer.DONE)];
            && ReadBody(parse, Joined(pieces)) == Reader([], [], Done)
            && Close(ReadOf(parse, pieces).reader) == Reader([], [], Broken)
  {
    hide ReadOf, TakeLines, Lines;
    var end := EventBytes(Consumer.DONE);
    var pieces := [comment, [LF] + end];
    CommentPends(parse, comment, pieces);
    LongLineBreaks(parse, pieces, 1);
    DoneIsOneLine();
    OneEventLines(Consumer.DONE);
    LineFirst(comment, end);
    assert Joined(pieces) == comment + [LF] + end;
    CommentIsSkipped(parse, comment);
    TakeTwo(parse, NEW, [comment], [DATA_LINE + Consumer.DONE, []]);
    OneEvent(parse, NEW, Consumer.DONE);
  }

  lemma CommentPends(parse: Parse, comment: Bytes, pieces: seq<Bytes>)
    requires |comment| == MAX_LINE_BYTES + 1 && (forall b :: b in comment ==> b == COLON)
    requires pieces != [] && pieces[0] == comment
    ensures AtOnce(parse, pieces, 1) == NEW && PastAt(parse, pieces, 1) && !PastAt(parse, pieces, 0)
  {
    hide TakeLine;
    NothingPast(parse, pieces);
    assert pieces[..1] == [comment] && [comment][..0] == [] && [] + comment == comment;
    assert Joined([comment]) == comment;
    FeedNoLf(Split([], []), comment);
  }

  lemma CommentIsSkipped(parse: Parse, comment: Bytes)
    requires |comment| > 0 && forall b :: b in comment ==> b == COLON
    ensures TakeLines(parse, NEW, [comment]) == NEW
  {
    var lines := [comment];
    assert lines[..0] == [] && comment[0] in comment && comment[|comment| - 1] in comment;
    assert WithoutCr(comment) == comment;
    assert !StartsWith(comment, DATA) by {
      assert |comment| >= |DATA| ==> comment[..|DATA|][0] == comment[0];
      assert DATA[0] != COLON;
    }
  }

  lemma {:induction false} JoinedRest(pieces: seq<Bytes>, i: nat) returns (rest: Bytes)
    requires i <= |pieces|
    ensures Joined(pieces) == Joined(pieces[..i]) + rest
  {
    if i == |pieces| {
      rest := [];
      assert pieces[..i] == pieces && Joined(pieces) + [] == Joined(pieces);
    } else {
      var n := |pieces| - 1;
      assert pieces[..n][..i] == pieces[..i];
      var more := JoinedRest(pieces[..n], i);
      rest := more + pieces[n];
      assert Joined(pieces[..i]) + more + pieces[n] == Joined(pieces[..i]) + rest;
    }
  }

  /** What is pending is the beginning of a line of the body, or all that is left of it. */
  lemma LongLine(pieces: seq<Bytes>, i: nat)
    requires i <= |pieces| && |Lines(Joined(pieces[..i])).rest| > MAX_LINE_BYTES
    ensures !ShortLines(Joined(pieces))
  {
    hide Lines;
    var before := Joined(pieces[..i]);
    var rest := JoinedRest(pieces, i);
    LinesOfTwo(before, rest);
    var pending := Lines(before).rest;
    var more := Lines(pending + rest);
    PendingGrows(pending, rest);
    if more.lines == [] {
      assert |Lines(Joined(pieces)).rest| > MAX_LINE_BYTES;
    } else {
      assert more.lines[0] in Lines(Joined(pieces)).lines;
    }
  }

  lemma {:induction false} FirstLineGrows(sp: Split, s: Bytes)
    ensures var r := Feed(sp, s);
            if sp.lines != [] then r.lines != [] && r.lines[0] == sp.lines[0]
            else if r.lines == [] then |r.rest| >= |sp.rest| else |r.lines[0]| >= |sp.rest|
    decreases |s|
  {
    if s != [] {
      FirstLineGrows(if s[0] == LF then Split(sp.lines + [sp.rest], []) else Split(sp.lines, sp.rest + [s[0]]), s[1..]);
    }
  }

  lemma PendingGrows(pending: Bytes, rest: Bytes)
    requires LF !in pending
    ensures var more := Lines(pending + rest);
            if more.lines == [] then |more.rest| >= |pending| else |more.lines[0]| >= |pending|
  {
    FeedTwo(Split([], []), pending, rest);
    FeedNoLf(Split([], []), pending);
    assert [] + pending == pending;
    FirstLineGrows(Split([], pending), rest);
  }

  // ----- A body as the engine writes it

  /** A payload that is one line of an event, however the body's lines end. */
  predicate OneLine(payload: Bytes) {
    LF !in payload && (payload == [] || payload[|payload| - 1] != CR) && |payload| + 6 <= MAX_LINE_BYTES
  }

  lemma BodyIsShort(payloads: seq<Bytes>)
    requires forall payload :: payload in payloads ==> OneLine(payload)
    ensures Lines(EventBody(payloads)) == Split(EventLines(payloads), []) && ShortLines(EventBody(payloads))
  {
    BodyLines(payloads);
    ShortEventLines(payloads);
  }

  lemma {:induction false} ShortEventLines(payloads: seq<Bytes>)
    requires forall payload :: payload in payloads ==> OneLine(payload)
    ensures forall line :: line in EventLines(payloads) ==> |line| <= MAX_LINE_BYTES
  {
    if payloads != [] {
      assert OneLine(payloads[|payloads| - 1]);
      ShortEventLines(payloads[..|payloads| - 1]);
    }
  }

  lemma OneEvent(parse: Parse, r: Reader, payload: Bytes)
    requires r.status.Open? && r.data == [] && OneLine(payload)
    ensures TakeLines(parse, r, [DATA_LINE + payload, []]) == TakeEvent(parse, r, payload)
  {
    var line := DATA_LINE + payload;
    var lines := [line, []];
    var first := lines[..1];
    assert first == [line] && |first[..0]| == 0;
    assert WithoutCr(line) == line;
    assert DATA_LINE == DATA + [SPACE];
    assert line[..|DATA|] == DATA && WithoutSpace(line[|DATA|..]) == payload;
    assert [] + [payload] == [payload];
    assert TakeLines(parse, r, first) == r.(data := [payload]);
  }

  /** The objects that payloads parse to. */
  ghost predicate Parses(parse: Parse, payloads: seq<Bytes>, events: seq<Fields>) {
    && |events| == |payloads|
    && forall i :: 0 <= i < |payloads| ==> payloads[i] != Consumer.DONE && parse(payloads[i]) == Some(Obj(events[i]))
  }

  lemma {:induction false} ReadsEvents(parse: Parse, payloads: seq<Bytes>, events: seq<Fields>)
    requires Parses(parse, payloads, events) && forall payload :: payload in payloads ==> OneLine(payload)
    ensures TakeLines(parse, NEW, EventLines(payloads)) == Reader(events, [], Open)
  {
    hide OneLine, TakeLine;
    if payloads != [] {
      var n := |payloads| - 1;
      assert OneLine(payloads[n]);
      ReadsEvents(parse, payloads[..n], events[..n]);
      TakeTwo(parse, NEW, EventLines(payloads[..n]), [DATA_LINE + payloads[n], []]);
      OneEvent(parse, Reader(events[..n], [], Open), payloads[n]);
      assert events[..n] + [events[n]] == events;
    }
  }

  /** Every way the body of an engine's stream is cut gives the gateway the same events, its payloads', and the end. */
  lemma ReadsEngine(parse: Parse, payloads: seq<Bytes>, events: seq<Fields>, pieces: seq<Bytes>)
    requires Parses(parse, payloads, events) && forall payload :: payload in payloads ==> OneLine(payload)
    requires Joined(pieces) == EventBody(payloads + [Consumer.DONE])
    ensures Close(ReadOf(parse, pieces).reader) == Reader(events, [], Done)
  {
    hide TakeLine, TakeLines, ShortLines, OneLine, ReadOf;
    DoneIsOneLine();
    BodyIsShort(payloads + [Consumer.DONE]);
    PiecesDoNotMatter(parse, pieces);
    ReadsEvents(parse, payloads, events);
    ReadsDone(parse, payloads, events);
  }

  lemma DoneIsOneLine()
    ensures OneLine(Consumer.DONE)
  {
  }

  lemma ReadsDone(parse: Parse, payloads: seq<Bytes>, events: seq<Fields>)
    requires TakeLines(parse, NEW, EventLines(payloads)) == Reader(events, [], Open)
    ensures TakeLines(parse, NEW, EventLines(payloads + [Consumer.DONE])) == Reader(events, [], Done)
  {
    hide TakeLine, TakeLines;
    DoneIsOneLine();
    assert (payloads + [Consumer.DONE])[..|payloads|] == payloads;
    TakeTwo(parse, NEW, EventLines(payloads), [DATA_LINE + Consumer.DONE, []]);
    OneEvent(parse, Reader(events, [], Open), Consumer.DONE);
  }
}
