/** From the engine's events to the client's text: what the translator accepts, printed as server-sent events (the
    framing is that of section 9.2.6 of the HTML Living Standard) and cut into any pieces, is what the client reads. */
module RoundTrip {

  import opened Wrappers
  import opened Wire
  import opened Chunks
  import opened Consumer

  type Encode = Fields -> Bytes

  /** What is asked of the JSON codec: an object reads as it was written, on one line, and none is written `[DONE]`. */
  ghost predicate Faithful(encode: Encode, parse: Parse) {
    forall f: Fields :: parse(encode(f)) == Some(Obj(f)) && LF !in encode(f) && encode(f) != DONE
  }

  // ----- What the gateway sends

  function ChunkTexts(encode: Encode, head: Head, chunks: seq<Chunk>): (texts: seq<Bytes>)
    ensures |texts| == |chunks|
  {
    if chunks == [] then []
    else ChunkTexts(encode, head, chunks[..|chunks| - 1]) + [encode(ChunkFields(head, chunks[|chunks| - 1]))]
  }

  /** A whole answer: the chunks, the usage chunk and [DONE]. */
  function AnswerTexts(encode: Encode, head: Head, chunks: seq<Chunk>, usage: Usage, times: Times): seq<Bytes> {
    ChunkTexts(encode, head, chunks) + [encode(UsageChunkFields(head, usage, times))] + [DONE]
  }

  // ----- The text of a stream, as the engine has it and as the chunks do

  function ContentOfOne(chunk: Chunk): string {
    if chunk.delta.Some? && chunk.delta.value.Content? then chunk.delta.value.text else ""
  }

  function ReasoningOfOne(chunk: Chunk): string {
    if chunk.delta.Some? && chunk.delta.value.Reasoning? then chunk.delta.value.text else ""
  }

  function ContentOf(chunks: seq<Chunk>): string {
    if chunks == [] then "" else ContentOf(chunks[..|chunks| - 1]) + ContentOfOne(chunks[|chunks| - 1])
  }

  function ReasoningOf(chunks: seq<Chunk>): string {
    if chunks == [] then "" else ReasoningOf(chunks[..|chunks| - 1]) + ReasoningOfOne(chunks[|chunks| - 1])
  }

  /** The delta of an engine event, without its null fields. */
  function DeltaOf(event: Fields): Fields {
    var choices := Get(event, "choices");
    if choices.Arr? && |choices.items| == 1 && choices.items[0].Obj? && Get(choices.items[0].fields, "delta").Obj?
    then NonNull(Get(choices.items[0].fields, "delta").fields)
    else map[]
  }

  function EngineContent(events: seq<Fields>): string {
    if events == [] then ""
    else EngineContent(events[..|events| - 1]) + TextOf(DeltaOf(events[|events| - 1]), "content")
  }

  function EngineReasoning(events: seq<Fields>): string {
    if events == [] then ""
    else EngineReasoning(events[..|events| - 1]) + ReasoningText(DeltaOf(events[|events| - 1]))
  }

  function LastFinish(chunks: seq<Chunk>): Option<string> {
    if chunks == [] then None else chunks[|chunks| - 1].finish
  }

  /** Chunks end with the first finish among them. */
  ghost predicate OneFinish(chunks: seq<Chunk>) {
    && (forall i :: 0 <= i < |chunks| - 1 ==> chunks[i].finish.None?)
    && (LastFinish(chunks).Some? ==> IsFinish(LastFinish(chunks).value))
  }

  lemma {:induction false} TextOfTwo(a: seq<Chunk>, b: seq<Chunk>)
    ensures ContentOf(a + b) == ContentOf(a) + ContentOf(b)
    ensures ReasoningOf(a + b) == ReasoningOf(a) + ReasoningOf(b)
    decreases |b|
  {
    hide ContentOfOne, ReasoningOfOne;
    if b == [] {
      assert a + b == a;
    } else {
      var both, n := a + b, |b| - 1;
      assert both[..|both| - 1] == a + b[..n] && both[|both| - 1] == b[n];
      TextOfTwo(a, b[..n]);
      assert ContentOf(a) + ContentOf(b[..n]) + ContentOfOne(b[n]) == ContentOf(a) + ContentOf(b);
      assert ReasoningOf(a) + ReasoningOf(b[..n]) + ReasoningOfOne(b[n]) == ReasoningOf(a) + ReasoningOf(b);
    }
  }

  lemma FinishedText(chunks: seq<Chunk>, reason: string)
    requires chunks != []
    ensures ContentOf(Finished(chunks, reason)) == ContentOf(chunks)
    ensures ReasoningOf(Finished(chunks, reason)) == ReasoningOf(chunks)
  {
    assert Finished(chunks, reason)[..|chunks| - 1] == chunks[..|chunks| - 1];
  }

  lemma {:induction false} UnfinishedChunks(parts: seq<Part>)
    ensures forall i :: 0 <= i < |ChunksOf(parts)| ==> ChunksOf(parts)[i].finish.None?
  {
    if parts != [] {
      UnfinishedChunks(parts[..|parts| - 1]);
    }
  }

  lemma {:induction false} ChunksOfTwo(a: seq<Part>, b: seq<Part>)
    ensures ChunksOf(a + b) == ChunksOf(a) + ChunksOf(b)
    decreases |b|
  {
    if b == [] {
      assert a + b == a;
    } else {
      assert (a + b)[..|a + b| - 1] == a + b[..|b| - 1];
      ChunksOfTwo(a, b[..|b| - 1]);
    }
  }

  lemma OnePart(part: Part)
    ensures ChunksOf([part]) == [Chunk(Some(part), None)]
    ensures ContentOf([Chunk(Some(part), None)]) == if part.Content? then part.text else ""
    ensures ReasoningOf([Chunk(Some(part), None)]) == if part.Reasoning? then part.text else ""
  {
    assert [part][..0] == [];
    assert [Chunk(Some(part), None)][..0] == [];
  }

  lemma TextPartText(part: Part)
    requires !part.Role?
    ensures ContentOf(ChunksOf(TextPart(part))) == if part.Content? then part.text else ""
    ensures ReasoningOf(ChunksOf(TextPart(part))) == if part.Reasoning? then part.text else ""
  {
    OnePart(part);
  }

  /** The parts of a delta hold its text. */
  lemma PartsText(delta: Json)
    requires Parts(delta).Some?
    ensures ContentOf(ChunksOf(Parts(delta).value)) == TextOf(NonNull(delta.fields), "content")
    ensures ReasoningOf(ChunksOf(Parts(delta).value)) == ReasoningText(NonNull(delta.fields))
  {
    hide ContentOf, ReasoningOf, ChunksOf, TextOf, ReasoningText, NonNull, DeltaAllowed, TextPart;
    var f := NonNull(delta.fields);
    var role := if "role" in f then [Role] else [];
    EmptyChunkText();
    var r, c := TextPart(Reasoning(ReasoningText(f))), TextPart(Content(TextOf(f, "content")));
    OnePart(Role);
    TextPartText(Reasoning(ReasoningText(f)));
    TextPartText(Content(TextOf(f, "content")));
    ChunksOfTwo(role, r);
    ChunksOfTwo(role + r, c);
    TextOfTwo(ChunksOf(role), ChunksOf(r));
    TextOfTwo(ChunksOf(role + r), ChunksOf(c));
  }

  /** One choice adds its own text to the stream, and its finish. */
  lemma ChoiceText(t: State, choice: Json, chunks: seq<Chunk>)
    requires ChoiceStep(t, choice).Some? && chunks == ChoiceStep(t, choice).value.1
    ensures var delta := NonNull(Get(choice.fields, "delta").fields);
            ContentOf(chunks) == TextOf(delta, "content") && ReasoningOf(chunks) == ReasoningText(delta)
    ensures OneFinish(chunks) && (t.finish.Some? ==> chunks == [])
    ensures ChoiceStep(t, choice).value.0.finish == if t.finish.Some? then t.finish else LastFinish(chunks)
    ensures ChoiceStep(t, choice).value.0.usage == t.usage
  {
    hide Parts, NonNull, TextOf, ReasoningText, ContentOf, ReasoningOf, ChunksOf, Get, AnyText, Finished, OneFinish;
    var parts := Parts(Get(choice.fields, "delta")).value;
    PartsText(Get(choice.fields, "delta"));
    EmptyChunkText();
    var plain := if parts == [] then [Chunk(None, None)] else ChunksOf(parts);
    PlainShape(parts);
    var reason := Get(choice.fields, "finish_reason");
    if !reason.Null? && t.finish.None? {
      FinishedText(plain, reason.s);
      FinishedShape(plain, reason.s);
    }
  }

  lemma PlainShape(parts: seq<Part>)
    ensures var plain := if parts == [] then [Chunk(None, None)] else ChunksOf(parts);
            forall i :: 0 <= i < |plain| ==> plain[i].finish.None?
    ensures OneFinish([]) && LastFinish([]).None?
    ensures var plain := if parts == [] then [Chunk(None, None)] else ChunksOf(parts);
            OneFinish(plain) && LastFinish(plain).None?
  {
    UnfinishedChunks(parts);
  }

  lemma FinishedShape(plain: seq<Chunk>, reason: string)
    requires plain != [] && IsFinish(reason) && forall i :: 0 <= i < |plain| ==> plain[i].finish.None?
    ensures OneFinish(Finished(plain, reason)) && LastFinish(Finished(plain, reason)) == Some(reason)
  {
  }

  lemma EmptyChunkText()
    ensures ContentOf([Chunk(None, None)]) == "" && ReasoningOf([Chunk(None, None)]) == ""
    ensures ContentOf(ChunksOf([])) == "" && ReasoningOf(ChunksOf([])) == ""
    ensures ContentOf([]) == "" && ReasoningOf([]) == ""
  {
    assert [Chunk(None, None)][..0] == [];
  }

  lemma StepText(alias: string, t: State, event: Fields, chunks: seq<Chunk>)
    requires Step(alias, t, event).Some? && chunks == Step(alias, t, event).value.1
    ensures ContentOf(chunks) == TextOf(DeltaOf(event), "content")
    ensures ReasoningOf(chunks) == ReasoningText(DeltaOf(event))
    ensures OneFinish(chunks) && (t.finish.Some? ==> chunks == [])
    ensures Step(alias, t, event).value.0.finish == if t.finish.Some? then t.finish else LastFinish(chunks)
  {
    hide ChoiceStep;
    var usage := Get(event, "usage");
    var seen := if usage.Null? then t else t.(usage := UsageOf(usage));
    var choices := Get(event, "choices").items;
    if choices != [] {
      ChoiceIsShaped(seen, choices[0]);
      ChoiceText(seen, choices[0], chunks);
    }
  }

  lemma ChoiceIsShaped(t: State, choice: Json)
    requires ChoiceStep(t, choice).Some?
    ensures choice.Obj? && Get(choice.fields, "delta").Obj?
  {
  }

  /** Translating a stream keeps its text, and its chunks end with its finish. */
  lemma {:induction false} TranslateKeepsText(alias: string, events: seq<Fields>)
    requires Translate(alias, events).Some?
    ensures ContentOf(Translate(alias, events).value.1) == EngineContent(events)
    ensures ReasoningOf(Translate(alias, events).value.1) == EngineReasoning(events)
    ensures OneFinish(Translate(alias, events).value.1)
    ensures Translate(alias, events).value.0.finish == LastFinish(Translate(alias, events).value.1)
  {
    hide Step, DeltaOf, ReasoningText, TextOf;
    if events != [] {
      var n := |events| - 1;
      TranslateKeepsText(alias, events[..n]);
      var (t, before) := Translate(alias, events[..n]).value;
      var chunks := Step(alias, t, events[n]).value.1;
      StepText(alias, t, events[n], chunks);
      TextOfTwo(before, chunks);
      FinishOfTwo(before, chunks);
    }
  }

  lemma FinishOfTwo(a: seq<Chunk>, b: seq<Chunk>)
    requires OneFinish(a) && OneFinish(b) && (LastFinish(a).Some? ==> b == [])
    ensures OneFinish(a + b)
    ensures LastFinish(a + b) == if LastFinish(a).Some? then LastFinish(a) else LastFinish(b)
  {
    if b == [] {
      assert a + b == a;
    } else {
      assert (a + b)[|a + b| - 1] == b[|b| - 1];
    }
  }

  // ----- Events

  /** The client's reading of the events one after another. */
  function TakeEvents(parse: Parse, alias: string, s: Seen, texts: seq<Bytes>): Seen {
    if texts == [] then s
    else Take(parse, alias, TakeEvents(parse, alias, s, texts[..|texts| - 1]), texts[|texts| - 1])
  }

  lemma OneEvent(parse: Parse, alias: string, s: Seen, text: Bytes)
    ensures TakeLines(parse, alias, Reader(s, []), [DATA_LINE + text, []]) == Reader(Take(parse, alias, s, text), [])
  {
    hide Take;
    var lines := [DATA_LINE + text, []];
    var first := lines[..1];
    assert first == [DATA_LINE + text] && |first[..0]| == 0;
    assert (DATA_LINE + text)[..|DATA_LINE|] == DATA_LINE && (DATA_LINE + text)[|DATA_LINE|..] == text;
    assert [] + [text] == [text];
    assert TakeLines(parse, alias, Reader(s, []), first) == Reader(s, [text]);
  }

  lemma {:induction false} LinesAreEvents(parse: Parse, alias: string, s: Seen, texts: seq<Bytes>)
    ensures TakeLines(parse, alias, Reader(s, []), EventLines(texts))
         == Reader(TakeEvents(parse, alias, s, texts), [])
  {
    hide Take, TakeLine;
    if texts != [] {
      var n := |texts| - 1;
      LinesAreEvents(parse, alias, s, texts[..n]);
      TakeTwo(parse, alias, Reader(s, []), EventLines(texts[..n]), [DATA_LINE + texts[n], []]);
      OneEvent(parse, alias, TakeEvents(parse, alias, s, texts[..n]), texts[n]);
    }
  }

  // ----- The client's reading of the chunks

  function TextPast(content: string, reasoning: string): seq<string> {
    if |content| + |reasoning| > TEXT_CHARS then ["too_long"] else []
  }

  /** The delta and the finish of a chunk as the client checks them. */
  lemma ChunkIsShaped(head: Head, chunk: Chunk)
    requires chunk.finish.Some? ==> IsFinish(chunk.finish.value)
    ensures var f := ChunkFields(head, chunk);
            && "error" !in f && Get(f, "object") == Str(CHUNK_OBJECT) && Get(f, "model") == Str(head.model)
            && Get(f, "usage").Null? && Get(f, "choices").Arr? && |Get(f, "choices").items| == 1
            && Get(f, "choices").items[0] == ChoiceJson(chunk)
  {
  }

  function ChoiceJson(chunk: Chunk): Json {
    Obj(map["index" := Int(0), "delta" := Obj(DeltaFields(chunk.delta)),
            "finish_reason" := if chunk.finish.None? then Null else Str(chunk.finish.value)])
  }

  lemma DeltaIsShaped(delta: Option<Part>)
    ensures DeltaShaped(Obj(DeltaFields(delta)))
    ensures TextOf(DeltaFields(delta), "content")
         == if delta.Some? && delta.value.Content? then delta.value.text else ""
    ensures TextOf(DeltaFields(delta), "reasoning_content")
         == if delta.Some? && delta.value.Reasoning? then delta.value.text else ""
  {
    assert |DeltaFields(delta)| == |DeltaFields(delta).Keys|;
    match delta
    case None =>
    case Some(Role) => assert DeltaFields(delta).Keys == {"role"};
    case Some(Reasoning(text)) => assert DeltaFields(delta).Keys == {"reasoning_content"};
    case Some(Content(text)) => assert DeltaFields(delta).Keys == {"content"};
  }

  /** One chunk more of text, with its finish. */
  function ReadOn(s: Seen, chunk: Chunk): Seen {
    var content, reasoning := s.content + ContentOf([chunk]), s.reasoning + ReasoningOf([chunk]);
    Seen(None, s.chunks + 1, content, reasoning, chunk.finish, None, false, TextPast(content, reasoning))
  }

  lemma OneChunk(encode: Encode, parse: Parse, head: Head, s: Seen, chunk: Chunk)
    requires Faithful(encode, parse) && (chunk.finish.Some? ==> IsFinish(chunk.finish.value))
    requires !s.done && s.code.None? && s.usage.None? && s.finish.None?
    requires s.broken == TextPast(s.content, s.reasoning)
    ensures Take(parse, head.model, s, encode(ChunkFields(head, chunk))) == ReadOn(s, chunk)
  {
    hide ChunkFields, DeltaShaped, DeltaFields, ContentOf, ReasoningOf, TextOf;
    ChunkIsShaped(head, chunk);
    DeltaIsShaped(chunk.delta);
    OneChunkText(chunk);
  }

  lemma OneChunkText(chunk: Chunk)
    ensures ContentOf([chunk])
         == if chunk.delta.Some? && chunk.delta.value.Content? then chunk.delta.value.text else ""
    ensures ReasoningOf([chunk])
         == if chunk.delta.Some? && chunk.delta.value.Reasoning? then chunk.delta.value.text else ""
  {
    assert [chunk][..0] == [];
  }

  /** After the chunks the client has the stream's text and finish, and a complaint only about its length. */
  lemma {:induction false} ReadsChunks(encode: Encode, parse: Parse, head: Head, chunks: seq<Chunk>)
    requires Faithful(encode, parse) && OneFinish(chunks)
    ensures TakeEvents(parse, head.model, NOTHING, ChunkTexts(encode, head, chunks))
         == Seen(None, |chunks|, ContentOf(chunks), ReasoningOf(chunks), LastFinish(chunks), None, false,
                 TextPast(ContentOf(chunks), ReasoningOf(chunks)))
  {
    hide Take, Faithful;
    if chunks != [] {
      var n := |chunks| - 1;
      ReadsChunks(encode, parse, head, chunks[..n]);
      assert chunks == chunks[..n] + [chunks[n]];
      TextOfTwo(chunks[..n], [chunks[n]]);
      OneChunk(encode, parse, head,
               Seen(None, n, ContentOf(chunks[..n]), ReasoningOf(chunks[..n]), None, None, false,
                    TextPast(ContentOf(chunks[..n]), ReasoningOf(chunks[..n]))), chunks[n]);
    }
  }

  // ----- The end of the stream

  lemma UsageIsShaped(head: Head, usage: Usage, times: Times)
    ensures var f := UsageChunkFields(head, usage, times);
            && "error" !in f && Get(f, "object") == Str(CHUNK_OBJECT) && Get(f, "model") == Str(head.model)
            && Get(f, "choices") == Arr([]) && Get(f, "usage") == Obj(UsageFields(usage, times))
    ensures UsageShaped(Obj(UsageFields(usage, times))) <==> usage.promptTokens >= 1
    ensures UsageOf(Obj(UsageFields(usage, times))) == Some(usage)
  {
    hide UsageFields, UsageShaped, UsageOf;
    CountsAreShaped(usage, times);
  }

  lemma CountsAreShaped(usage: Usage, times: Times)
    ensures UsageShaped(Obj(UsageFields(usage, times))) <==> usage.promptTokens >= 1
    ensures UsageOf(Obj(UsageFields(usage, times))) == Some(usage)
  {
  }

  lemma ReadsEnd(encode: Encode, parse: Parse, head: Head, s: Seen, usage: Usage, times: Times)
    requires Faithful(encode, parse) && !s.done && s.code.None? && s.usage.None? && s.finish.Some?
    ensures var counted := Take(parse, head.model, s, encode(UsageChunkFields(head, usage, times)));
            var r := End(Take(parse, head.model, counted, DONE));
            && (IsOk(r) <==> s.broken == [] && usage.promptTokens >= 1)
            && r.finish == s.finish && r.content == s.content && r.reasoning == s.reasoning
            && r.usage == (if usage.promptTokens >= 1 then Some(UsageFields(usage, times)) else None)
  {
    hide UsageChunkFields, UsageShaped, UsageFields, UsageOf;
    UsageIsShaped(head, usage, times);
  }

  lemma {:induction false} TextsHaveNoLf(encode: Encode, parse: Parse, head: Head, chunks: seq<Chunk>)
    requires Faithful(encode, parse)
    ensures forall text :: text in ChunkTexts(encode, head, chunks) ==> LF !in text
  {
    hide ChunkFields;
    if chunks != [] {
      TextsHaveNoLf(encode, parse, head, chunks[..|chunks| - 1]);
    }
  }

  /** What the client makes of a whole answer. */
  lemma ReadsAnswer(encode: Encode, parse: Parse, head: Head, chunks: seq<Chunk>, usage: Usage, times: Times)
    requires Faithful(encode, parse) && OneFinish(chunks) && LastFinish(chunks).Some?
    ensures var body := EventBody(AnswerTexts(encode, head, chunks, usage, times));
            var r := ReadBody(parse, head.model, NOTHING, body, true);
            && (IsOk(r) <==> |ContentOf(chunks)| + |ReasoningOf(chunks)| <= TEXT_CHARS && usage.promptTokens >= 1)
            && r.finish == LastFinish(chunks) && r.content == ContentOf(chunks) && r.reasoning == ReasoningOf(chunks)
            && r.usage == (if usage.promptTokens >= 1 then Some(UsageFields(usage, times)) else None)
  {
    hide ContentOf, ReasoningOf, LastFinish, OneFinish, Take, End, UsageChunkFields, UsageFields, Lines, EventBody,
         EventLines;
    var parts := ChunkTexts(encode, head, chunks);
    var counts := encode(UsageChunkFields(head, usage, times));
    var texts := AnswerTexts(encode, head, chunks, usage, times);
    TextsHaveNoLf(encode, parse, head, chunks);
    assert LF !in DONE;
    BodyLines(texts);
    LinesAreEvents(parse, head.model, NOTHING, texts);
    assert texts[..|texts| - 1] == parts + [counts];
    assert (parts + [counts])[..|parts|] == parts;
    ReadsChunks(encode, parse, head, chunks);
    var s := TakeEvents(parse, head.model, NOTHING, parts);
    ReadsEnd(encode, parse, head, s, usage, times);
  }

  // ----- A stream that fails after it has begun

  function ErrorFields(code: string): Fields {
    map["error" := Obj(map["code" := Str(code)])]
  }

  function FailedTexts(encode: Encode, head: Head, chunks: seq<Chunk>, code: string): seq<Bytes> {
    ChunkTexts(encode, head, chunks) + [encode(ErrorFields(code))]
  }

  /** The client has the text so far and the error's code, and does not find the stream in order. */
  lemma ReadsFailure(encode: Encode, parse: Parse, head: Head, chunks: seq<Chunk>, code: string)
    requires Faithful(encode, parse) && OneFinish(chunks) && code in CODES
    ensures var r := ReadBody(parse, head.model, NOTHING, EventBody(FailedTexts(encode, head, chunks, code)), true);
            && !IsOk(r) && r.code == Some(code) && !r.done && r.usage.None? && r.finish == LastFinish(chunks)
            && r.content == ContentOf(chunks) && r.reasoning == ReasoningOf(chunks)
            && r.broken == TextPast(ContentOf(chunks), ReasoningOf(chunks))
  {
    hide ContentOf, ReasoningOf, LastFinish, OneFinish, Lines, EventBody, EventLines, TextPast, TakeChunk;
    var parts := ChunkTexts(encode, head, chunks);
    var texts := FailedTexts(encode, head, chunks, code);
    TextsHaveNoLf(encode, parse, head, chunks);
    BodyLines(texts);
    LinesAreEvents(parse, head.model, NOTHING, texts);
    assert texts[..|texts| - 1] == parts;
    ReadsChunks(encode, parse, head, chunks);
    assert Get(ErrorFields(code), "error") == Obj(map["code" := Str(code)]);
  }

  lemma {:induction false} ChunkTextsOfTwo(encode: Encode, head: Head, a: seq<Chunk>, b: seq<Chunk>)
    ensures ChunkTexts(encode, head, a + b) == ChunkTexts(encode, head, a) + ChunkTexts(encode, head, b)
    decreases |b|
  {
    hide ChunkFields;
    if b == [] {
      assert a + b == a;
    } else {
      assert (a + b)[..|a + b| - 1] == a + b[..|b| - 1];
      ChunkTextsOfTwo(encode, head, a, b[..|b| - 1]);
    }
  }

  // ----- A stream without text past the bound of bytes

  function RoleEvent(alias: string): Fields {
    EngineChunk(alias, [EngineChoice(map["role" := Str("assistant")], Null)])
  }

  function FinishEvent(alias: string, reason: string): Fields {
    EngineChunk(alias, [EngineChoice(map[], Str(reason))])
  }

  function CountsEvent(alias: string, prompt: nat, completion: nat): Fields {
    EngineChunk(alias, [])[
      "usage" := Obj(map["prompt_tokens" := Int(prompt), "completion_tokens" := Int(completion)])]
  }

  function Roles(alias: string, n: nat): seq<Fields> {
    if n == 0 then [] else Roles(alias, n - 1) + [RoleEvent(alias)]
  }

  /** `n` deltas that hold only a role, a finish and the counts. */
  function Wordless(alias: string, n: nat, reason: string, prompt: nat, completion: nat): seq<Fields> {
    Roles(alias, n) + [FinishEvent(alias, reason)] + [CountsEvent(alias, prompt, completion)]
  }

  lemma RoleIsTaken(alias: string)
    ensures Step(alias, START, RoleEvent(alias)) == Some((START, [Chunk(Some(Role), None)]))
    ensures ContentOf([Chunk(Some(Role), None)]) == "" && ReasoningOf([Chunk(Some(Role), None)]) == ""
  {
    hide Parts, ChunksOf, AnyText;
    RoleParts();
    OnePart(Role);
  }

  lemma RoleParts()
    ensures Parts(Obj(map["role" := Str("assistant")])) == Some([Role])
    ensures !AnyText([Role]) && ChunksOf([Role]) == [Chunk(Some(Role), None)]
  {
    var delta: Fields := map["role" := Str("assistant")];
    assert NonNull(delta) == delta;
    var none: seq<Part> := [];
    assert [Role] + none + none == [Role];
    assert Parts(Obj(delta)) == Some([Role] + none + none);
    OnePart(Role);
  }

  /** The translation of a stream with one event more. */
  lemma TranslateOneMore(alias: string, events: seq<Fields>, event: Fields)
    requires Translate(alias, events).Some? && Step(alias, Translate(alias, events).value.0, event).Some?
    ensures var (t, before) := Translate(alias, events).value;
            var (next, chunks) := Step(alias, t, event).value;
            Translate(alias, events + [event]) == Some((next, before + chunks))
  {
    hide Step;
    assert (events + [event])[..|events|] == events;
  }

  lemma {:induction false} RolesAreTaken(alias: string, n: nat)
    ensures Translate(alias, Roles(alias, n)).Some? && Translate(alias, Roles(alias, n)).value.0 == START
    ensures |Translate(alias, Roles(alias, n)).value.1| == n
    ensures ContentOf(Translate(alias, Roles(alias, n)).value.1) == ""
    ensures ReasoningOf(Translate(alias, Roles(alias, n)).value.1) == ""
  {
    hide Step, RoleEvent, ContentOf, ReasoningOf;
    EmptyChunkText();
    if n > 0 {
      RolesAreTaken(alias, n - 1);
      RoleIsTaken(alias);
      TranslateOneMore(alias, Roles(alias, n - 1), RoleEvent(alias));
      TextOfTwo(Translate(alias, Roles(alias, n - 1)).value.1, [Chunk(Some(Role), None)]);
    }
  }

  lemma WordlessIsTaken(alias: string, n: nat, reason: string, prompt: nat, completion: nat)
    requires IsFinish(reason)
    ensures var t := Translate(alias, Wordless(alias, n, reason, prompt, completion));
            && t.Some? && |t.value.1| == n + 1
            && t.value.0.finish == Some(reason) && t.value.0.usage == Some(Usage(prompt, completion, None))
            && ContentOf(t.value.1) == "" && ReasoningOf(t.value.1) == ""
  {
    hide Step, Roles, Translate, EngineChunk, ContentOf, ReasoningOf, IsFinish;
    var roles := Roles(alias, n);
    RolesAreTaken(alias, n);
    FinishIsTaken(alias, START, reason);
    TranslateOneMore(alias, roles, FinishEvent(alias, reason));
    var finish := [Chunk(None, Some(reason))];
    var before := Translate(alias, roles).value.1;
    TextOfTwo(before, finish);
    FinishHasNoText(reason);
    CountsAreTaken(alias, START.(finish := Some(reason)), prompt, completion);
    TranslateOneMore(alias, roles + [FinishEvent(alias, reason)], CountsEvent(alias, prompt, completion));
    assert before + finish + [] == before + finish;
  }

  lemma FinishHasNoText(reason: string)
    ensures ContentOf([Chunk(None, Some(reason))]) == "" && ReasoningOf([Chunk(None, Some(reason))]) == ""
  {
    assert [Chunk(None, Some(reason))][..0] == [];
  }

  /** The two bounds are apart: the translator takes a stream of 250,000 roles and more, which holds no text at all and
      passes the client's bound of bytes whatever the codec writes. */
  lemma WordlessIsPastBytes(encode: Encode, head: Head, times: Times, n: nat, reason: string, prompt: nat,
                            completion: nat)
    requires IsFinish(reason) && n >= 250_000
    ensures var events := Wordless(head.model, n, reason, prompt, completion);
            var t := Translate(head.model, events);
            && t.Some? && t.value.0.finish.Some? && t.value.0.usage.Some?
            && EngineContent(events) == "" && EngineReasoning(events) == ""
            && |EventBody(AnswerTexts(encode, head, t.value.1, t.value.0.usage.value, times))| > STREAM_BYTES
  {
    hide Translate, Wordless, EngineContent, EngineReasoning, ContentOf, ReasoningOf, EventBody, OneFinish;
    var events := Wordless(head.model, n, reason, prompt, completion);
    WordlessIsTaken(head.model, n, reason, prompt, completion);
    TranslateKeepsText(head.model, events);
    var (t, chunks) := Translate(head.model, events).value;
    BodyAtLeast(AnswerTexts(encode, head, chunks, t.usage.value, times));
  }

  // ----- The whole way

  /** What the engine sent is what the client has: for every event sequence that the translator takes to its end, and
      for every way its text is cut on the way. The client finds the stream in order exactly when it counts a prompt,
      and stays within the client's bounds of text and of bytes. */
  method ReadsBack(encode: Encode, parse: Parse, head: Head, ghost events: seq<Fields>, ghost chunks: seq<Chunk>,
                   ghost end: State, ghost times: Times, pieces: seq<Bytes>) returns (stream: Stream)
    requires Faithful(encode, parse)
    requires Translate(head.model, events) == Some((end, chunks)) && end.finish.Some? && end.usage.Some?
    requires Joined(pieces) == EventBody(AnswerTexts(encode, head, chunks, end.usage.value, times))
    ensures IsOk(stream.View()) <==>
              && end.usage.value.promptTokens >= 1
              && |EngineContent(events)| + |EngineReasoning(events)| <= TEXT_CHARS
              && |Joined(pieces)| <= STREAM_BYTES
    ensures IsOk(stream.View()) ==>
              && stream.View().finish == end.finish
              && stream.View().content == EngineContent(events) && stream.View().reasoning == EngineReasoning(events)
              && stream.View().usage.Some? && UsageOf(Obj(stream.View().usage.value)) == end.usage
  {
    hide Faithful, Translate, EventBody, AnswerTexts, UsageFields, UsageOf, ContentOf, ReasoningOf, ReadBody,
         LastFinish, OneFinish, EngineContent, EngineReasoning;
    stream := ReadStream(parse, head.model, OK, None, true, pieces, true);
    TranslateKeepsText(head.model, events);
    ReadsAnswer(encode, parse, head, chunks, end.usage.value, times);
    UsageIsShaped(head, end.usage.value, times);
  }
}
