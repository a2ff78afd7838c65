/** A client of the gateway that reads a generation's stream and checks it against contract section 4 (smoke.py). It
    shares nothing with the gateway's translator but the form of JSON. */
module Consumer {

  import opened Wrappers
  import opened Wire
  import opened Chunks

  const STREAM_BYTES: nat := 2_000_000
  const TEXT_CHARS: nat := 100_000

  const DONE: Bytes := [0x5b, 0x44, 0x4f, 0x4e, 0x45, 0x5d]   // "[DONE]"

  const CODES: set<string> := {
    "invalid_request", "unsupported_field", "limit_exceeded", "context_limit", "min_p_unavailable",
    "thinking_budget_unavailable", "graph_refused", "graph_rejected", "unauthorized", "class_not_allowed",
    "scope_not_allowed", "vision_not_allowed", "forbidden", "not_found", "stale_boot", "stale_generation",
    "sleep_pending", "body_too_large", "queue_full", "internal_error", "picture_failed", "starting", "draining",
    "drained", "engine_unavailable", "socket_unavailable", "stop_unconfirmed", "timeout"}

  type Parse = Bytes -> Option<Json>

  /** A generation as the client has read it. `broken`: the rules that the stream broke. */
  datatype Seen = Seen(
    code: Option<string>, chunks: nat, content: string, reasoning: string, finish: Option<string>,
    usage: Option<Fields>, done: bool, broken: seq<string>)

  const NOTHING := Seen(None, 0, "", "", None, None, false, [])

  predicate IsOk(s: Seen) {
    s.code.None? && s.done && s.broken == []
  }

  function Fail(s: Seen, rule: string): (r: Seen)
    ensures r == s.(broken := r.broken) && r.broken != []
  {
    if rule in s.broken then s else s.(broken := s.broken + [rule])
  }

  function FailIf(s: Seen, broke: bool, rule: string): (r: Seen)
    ensures r == s.(broken := r.broken) && (r.broken == [] <==> s.broken == [] && !broke)
  {
    if broke then Fail(s, rule) else s
  }

  function ErrorCode(event: Fields): string {
    var error := Get(event, "error");
    var code := if error.Obj? then Get(error.fields, "code") else Null;
    if code.Str? && code.s in CODES then code.s else "error"
  }

  /** What the client asks of the counts: no field it does not know, and a prompt of at least one token. */
  predicate UsageShaped(usage: Json) {
    && usage.Obj?
    && (forall name :: name in usage.fields ==>
          name == "prompt_tokens" || name == "completion_tokens" || name == "prompt_tokens_details"
          || name == "simple_serving")
    && IsCount(Get(usage.fields, "prompt_tokens")) && Get(usage.fields, "prompt_tokens").n >= 1
    && IsCount(Get(usage.fields, "completion_tokens"))
    && ("prompt_tokens_details" in usage.fields ==>
          var details := usage.fields["prompt_tokens_details"];
          details.Obj? && details.fields.Keys == {"cached_tokens"} && IsCount(details.fields["cached_tokens"]))
    && var measured := Get(usage.fields, "simple_serving");
       && measured.Obj? && measured.fields.Keys == {"wait_ms", "first_token_ms", "total_ms"}
       && forall name :: name in measured.fields ==> IsCount(measured.fields[name])
  }

  predicate DeltaShaped(delta: Json) {
    && delta.Obj? && |delta.fields| <= 1
    && (forall name :: name in delta.fields ==> name == "role" || name == "content" || name == "reasoning_content")
    && ("role" in delta.fields ==> delta.fields["role"] == Str("assistant"))
    && (forall name :: name in delta.fields && name != "role" ==> delta.fields[name].Str?)
  }

  function TakeChoice(s: Seen, choice: Json): Seen {
    if !choice.Obj? || Get(choice.fields, "index") != Int(0) then Fail(s, "choices")
    else
      var delta := Get(choice.fields, "delta");
      if !DeltaShaped(delta) then Fail(s, "delta")
      else if s.finish.Some? then Fail(s, "after_finish")
      else
        var read := s.(content := s.content + TextOf(delta.fields, "content"),
                       reasoning := s.reasoning + TextOf(delta.fields, "reasoning_content"));
        var bounded := FailIf(read, |read.content| + |read.reasoning| > TEXT_CHARS, "too_long");
        var reason := Get(choice.fields, "finish_reason");
        if reason.Str? && IsFinish(reason.s) then bounded.(finish := Some(reason.s))
        else FailIf(bounded, !reason.Null?, "finish")
  }

  /** What every chunk says of itself. */
  function TakeHead(alias: string, s: Seen, event: Fields): Seen {
    var counted := s.(chunks := s.chunks + 1);
    var named := FailIf(FailIf(counted, Get(event, "object") != Str(CHUNK_OBJECT), "object"),
                        Get(event, "model") != Str(alias), "model");
    FailIf(named, s.usage.Some?, "after_usage")
  }

  function TakeUsage(s: Seen, choices: seq<Json>, usage: Json): Seen {
    var placed := FailIf(s, choices != [] || s.finish.None?, "usage_chunk");
    if UsageShaped(usage) then placed.(usage := Some(usage.fields)) else Fail(placed, "usage_fields")
  }

  function TakeChunk(alias: string, s: Seen, event: Fields): Seen {
    var headed := TakeHead(alias, s, event);
    var choices := Get(event, "choices");
    if !choices.Arr? || |choices.items| > 1 then Fail(headed, "choices")
    else if !Get(event, "usage").Null? then TakeUsage(headed, choices.items, Get(event, "usage"))
    else if choices.items == [] then headed
    else TakeChoice(headed, choices.items[0])
  }

  /** The client's reading of one event's data. Whatever follows [DONE] or an error breaks a rule. */
  function Take(parse: Parse, alias: string, s: Seen, data: Bytes): Seen {
    if s.done || s.code.Some? then Fail(s, "after_end")
    else if data == DONE then s.(done := true)
    else
      match parse(data)
      case Some(Obj(event)) =>
        if "error" in event then s.(code := Some(ErrorCode(event))) else TakeChunk(alias, s, event)
      case _ => Fail(s, "json")
  }

  /** What can be told only at the end: that it came with [DONE], and [DONE] with a finish and counts. */
  function End(s: Seen): Seen {
    var closed := FailIf(s, s.code.None? && !s.done, "done");
    FailIf(closed, s.done && (s.finish.None? || s.usage.None?), if s.finish.None? then "finish" else "usage")
  }

  // ----- Lines

  /** The reader between two lines: what it has seen, and the data lines of the event that is open. */
  datatype Reader = Reader(seen: Seen, data: seq<Bytes>)

  function TakeLine(parse: Parse, alias: string, r: Reader, line: Bytes): Reader {
    if StartsWith(line, DATA_LINE) then r.(data := r.data + [line[|DATA_LINE|..]])
    else if line != [] then r.(seen := Fail(r.seen, "event_form"))
    else if r.data != [] then Reader(Take(parse, alias, r.seen, JoinLines(r.data)), [])
    else r
  }

  function TakeLines(parse: Parse, alias: string, r: Reader, lines: seq<Bytes>): Reader {
    if lines == [] then r
    else TakeLine(parse, alias, TakeLines(parse, alias, r, lines[..|lines| - 1]), lines[|lines| - 1])
  }

  lemma {:induction false} TakeTwo(parse: Parse, alias: string, r: Reader, a: seq<Bytes>, b: seq<Bytes>)
    ensures TakeLines(parse, alias, r, a + b) == TakeLines(parse, alias, TakeLines(parse, alias, r, a), b)
    decreases |b|
  {
    hide TakeLine;
    if b == [] {
      assert a + b == a;
    } else {
      var n := |b| - 1;
      assert (a + b)[..|a + b| - 1] == a + b[..n];
      TakeTwo(parse, alias, r, a, b[..n]);
    }
  }

  /** All of the body that came, read as one text. `whole`: the connection did not fail after it. */
  function ReadBody(parse: Parse, alias: string, start: Seen, body: Bytes, whole: bool): Seen {
    var split := Lines(body);
    var r := TakeLines(parse, alias, Reader(start, []), split.lines);
    End(FailIf(FailIf(r.seen, !whole, "connection"), split.rest != [] || r.data != [], "event_form"))
  }

  /** The code of a refusal, whose body may be no JSON. */
  function RefusalCode(refusal: Option<Json>): string {
    if refusal.Some? && refusal.value.Obj? then ErrorCode(refusal.value.fields) else "error"
  }

  /** The client's object for one stream. */
  class Stream {
    var code: Option<string>
    var chunks: nat
    var content: string
    var reasoning: string
    var finish: Option<string>
    var usage: Option<Fields>
    var done: bool
    var broken: seq<string>

    function View(): Seen
      reads this
    {
      Seen(code, chunks, content, reasoning, finish, usage, done, broken)
    }

    constructor ()
      ensures View() == NOTHING
    {
      code, chunks, content, reasoning, finish, usage := None, 0, "", "", None, None;
      done, broken := false, [];
    }

    method Breaks(rule: string)
      modifies this`broken
      ensures View() == Fail(old(View()), rule)
    {
      if rule !in broken {
        broken := broken + [rule];
      }
    }

    method TakeEvent(parse: Parse, alias: string, data: Bytes)
      modifies this
      ensures View() == Take(parse, alias, old(View()), data)
    {
      if done || code.Some? {
        Breaks("after_end");
        return;
      }
      if data == DONE {
        done := true;
        return;
      }
      var value := parse(data);
      if value.None? || !value.value.Obj? {
        Breaks("json");
        return;
      }
      var event := value.value.fields;
      if "error" in event {
        code := Some(ErrorCode(event));
        return;
      }
      TakeChunkEvent(alias, event);
    }

    method TakeChunkEvent(alias: string, event: Fields)
      modifies this
      ensures View() == TakeChunk(alias, old(View()), event)
    {
      hide TakeHead, TakeUsage, UsageShaped, Fail, TakeChoice;
      CheckHead(alias, event);
      var choices := Get(event, "choices");
      if !choices.Arr? || |choices.items| > 1 {
        Breaks("choices");
      } else if !Get(event, "usage").Null? {
        TakeUsageChunk(choices.items, Get(event, "usage"));
      } else if choices.items != [] {
        TakeOneChoice(choices.items[0]);
      }
    }

    method CheckHead(alias: string, event: Fields)
      modifies this
      ensures View() == TakeHead(alias, old(View()), event)
    {
      hide Fail;
      chunks := chunks + 1;
      if Get(event, "object") != Str(CHUNK_OBJECT) {
        Breaks("object");
      }
      if Get(event, "model") != Str(alias) {
        Breaks("model");
      }
      if usage.Some? {
        Breaks("after_usage");
      }
    }

    method TakeUsageChunk(choices: seq<Json>, counts: Json)
      modifies this
      ensures View() == TakeUsage(old(View()), choices, counts)
    {
      hide Fail;
      if choices != [] || finish.None? {
        Breaks("usage_chunk");
      }
      if UsageShaped(counts) {
        usage := Some(counts.fields);
      } else {
        Breaks("usage_fields");
      }
    }

    method TakeOneChoice(choice: Json)
      modifies this
      ensures View() == TakeChoice(old(View()), choice)
    {
      if !choice.Obj? || Get(choice.fields, "index") != Int(0) {
        Breaks("choices");
        return;
      }
      var delta := Get(choice.fields, "delta");
      if !DeltaShaped(delta) {
        Breaks("delta");
      } else if finish.Some? {
        Breaks("after_finish");
      } else {
        content := content + TextOf(delta.fields, "content");
        reasoning := reasoning + TextOf(delta.fields, "reasoning_content");
        if |content| + |reasoning| > TEXT_CHARS {
          Breaks("too_long");
        }
        var reason := Get(choice.fields, "finish_reason");
        if reason.Str? && IsFinish(reason.s) {
          finish := Some(reason.s);
        } else if !reason.Null? {
          Breaks("finish");
        }
      }
    }

    method Ends()
      modifies this`broken
      ensures View() == End(old(View()))
    {
      if code.None? && !done {
        Breaks("done");
      }
      if done && (finish.None? || usage.None?) {
        Breaks(if finish.None? then "finish" else "usage");
      }
    }
  }

  const OK: nat := 200

  /** The client's reading of an answer. A refusal gives its code and nothing else. However a stream is cut, the outcome
      is that of its bytes at once; past the bound of bytes the stream is not in order, nor with a failed connection. */
  method ReadStream(parse: Parse, alias: string, status: nat, refusal: Option<Json>, eventStream: bool,
                    pieces: seq<Bytes>, whole: bool) returns (stream: Stream)
    ensures fresh(stream)
    ensures status != OK ==> stream.View() == NOTHING.(code := Some(RefusalCode(refusal))) && !IsOk(stream.View())
    ensures status == OK && |Joined(pieces)| <= STREAM_BYTES ==>
              var start := FailIf(NOTHING, !eventStream, "content_type");
              && stream.View() == ReadBody(parse, alias, start, Joined(pieces), whole)
              && (IsOk(stream.View()) ==> whole && eventStream)
    ensures status == OK && |Joined(pieces)| > STREAM_BYTES ==> !IsOk(stream.View())
  {
    hide Feed, Lines, TakeLines, TakeLine, Fail, End, StartsWith, JoinLines, FailIf, ErrorCode;
    stream := new Stream();
    if status != OK {
      stream.code := Some(RefusalCode(refusal));
      return;
    }
    OnlyWhole(parse, alias, eventStream, Joined(pieces), whole);
    StartRead(parse, alias);
    IfFails(NOTHING, !eventStream, "content_type");
    if !eventStream {
      stream.Breaks("content_type");
    }
    ghost var start := stream.View();
    var size, pending, data := 0, [], [];
    var i := 0;
    while i < |pieces|
      invariant 0 <= i <= |pieces| && fresh(stream)
      invariant size == |Joined(pieces[..i])| <= STREAM_BYTES
      invariant pending == Lines(Joined(pieces[..i])).rest
      invariant Reader(stream.View(), data)
             == TakeLines(parse, alias, Reader(start, []), Lines(Joined(pieces[..i])).lines)
    {
      assert pieces[..i + 1][..i] == pieces[..i];
      size := size + |pieces[i]|;
      if size > STREAM_BYTES {
        stream.Breaks("too_long");
        JoinedGrows(pieces, i + 1);
        return;
      }
      LinesOfTwo(Joined(pieces[..i]), pieces[i]);
      var split := Lines(pending + pieces[i]);
      TakeTwo(parse, alias, Reader(start, []), Lines(Joined(pieces[..i])).lines, split.lines);
      data := TakeAll(parse, alias, stream, data, split.lines);
      pending := split.rest;
      i := i + 1;
    }
    assert pieces[..i] == pieces;
    IfFails(stream.View(), !whole, "connection");
    if !whole {
      stream.Breaks("connection");
    }
    IfFails(stream.View(), pending != [] || data != [], "event_form");
    if pending != [] || data != [] {
      stream.Breaks("event_form");
    }
    stream.Ends();
  }

  lemma {:induction false} StaysBroken(parse: Parse, alias: string, r: Reader, lines: seq<Bytes>)
    requires r.seen.broken != []
    ensures TakeLines(parse, alias, r, lines).seen.broken != []
  {
    if lines != [] {
      StaysBroken(parse, alias, r, lines[..|lines| - 1]);
    }
  }

  /** A broken rule is never mended, and neither is a failed connection. */
  lemma OnlyWhole(parse: Parse, alias: string, eventStream: bool, body: Bytes, whole: bool)
    ensures IsOk(ReadBody(parse, alias, FailIf(NOTHING, !eventStream, "content_type"), body, whole)) ==>
              whole && eventStream
  {
    hide Fail, TakeLines;
    if !eventStream {
      StaysBroken(parse, alias, Reader(FailIf(NOTHING, true, "content_type"), []), Lines(body).lines);
    }
  }

  lemma StartRead(parse: Parse, alias: string)
    ensures Lines([]) == Split([], [])
    ensures forall r :: TakeLines(parse, alias, r, []) == r
  {
  }

  lemma IfFails(s: Seen, broke: bool, rule: string)
    ensures FailIf(s, broke, rule) == if broke then Fail(s, rule) else s
  {
  }

  method TakeAll(parse: Parse, alias: string, stream: Stream, open: seq<Bytes>, lines: seq<Bytes>)
    returns (data: seq<Bytes>)
    modifies stream
    ensures Reader(stream.View(), data) == TakeLines(parse, alias, Reader(old(stream.View()), open), lines)
  {
    data := open;
    var i := 0;
    while i < |lines|
      invariant 0 <= i <= |lines|
      invariant Reader(stream.View(), data) == TakeLines(parse, alias, Reader(old(stream.View()), open), lines[..i])
    {
      assert lines[..i + 1][..i] == lines[..i];
      var line := lines[i];
      if StartsWith(line, DATA_LINE) {
        data := data + [line[|DATA_LINE|..]];
      } else if line != [] {
        stream.Breaks("event_form");
      } else if data != [] {
        stream.TakeEvent(parse, alias, JoinLines(data));
        data := [];
      }
      i := i + 1;
    }
    assert lines[..i] == lines;
  }

  lemma {:induction false} JoinedGrows(pieces: seq<Bytes>, i: nat)
    requires i <= |pieces|
    ensures |Joined(pieces[..i])| <= |Joined(pieces)|
  {
    if i < |pieces| {
      assert pieces[..|pieces| - 1][..i] == pieces[..i];
      JoinedGrows(pieces[..|pieces| - 1], i);
    } else {
      assert pieces[..i] == pieces;
    }
  }
}
