/** The gateway's own stream of a generation, rebuilt event by event from the engine's (contract section 4; stream.py).
    JSON is a tree of values here: its text is the codec's, which `RoundTrip.Faithful` takes as given. */
module Chunks {

  import opened Wrappers

  datatype Json =
    | Null | Bool(b: bool) | Int(n: int) | Float(literal: string) | Str(s: string)
    | Arr(items: seq<Json>) | Obj(fields: Fields)

  type Fields = map<string, Json>

  /** `dict.get`: a field that is left out reads as null. */
  function Get(f: Fields, name: string): Json {
    if name in f then f[name] else Null
  }

  const CHUNK_OBJECT := "chat.completion.chunk"

  predicate IsFinish(reason: string) {
    reason == "stop" || reason == "length"
  }

  predicate IsCount(value: Json) {
    value.Int? && value.n >= 0
  }

  datatype Usage = Usage(promptTokens: nat, completionTokens: nat, cachedTokens: Option<nat>)

  /** One field of a delta. */
  datatype Part = Role | Reasoning(text: string) | Content(text: string)

  /** A chunk to send: its delta, empty for none, and its finish. */
  datatype Chunk = Chunk(delta: Option<Part>, finish: Option<string>)

  // ----- What the engine's events must be

  /** The fields of a delta that are not null. */
  function NonNull(f: Fields): Fields {
    map name | name in f && !f[name].Null? :: f[name]
  }

  predicate DeltaField(name: string) {
    name == "role" || name == "content" || name == "reasoning_content" || name == "reasoning"
  }

  predicate DeltaAllowed(f: Fields) {
    && (forall name :: name in f ==> DeltaField(name))
    && ("role" in f ==> f["role"] == Str("assistant"))
    && (forall name :: name in f && name != "role" ==> f[name].Str?)
  }

  function TextOf(f: Fields, name: string): string {
    if name in f && f[name].Str? then f[name].s else ""
  }

  /** The engine's reasoning, under either of its names, the first that is there. */
  function ReasoningText(f: Fields): string {
    if "reasoning_content" in f then TextOf(f, "reasoning_content") else TextOf(f, "reasoning")
  }

  function TextPart(part: Part): seq<Part>
    requires !part.Role?
  {
    if part.text == "" then [] else [part]
  }

  /** What a delta becomes on the way to the client, who gets one field at a time; none if a rule is broken. */
  function Parts(delta: Json): Option<seq<Part>> {
    if !delta.Obj? || !DeltaAllowed(NonNull(delta.fields)) then None
    else
      var f := NonNull(delta.fields);
      Some((if "role" in f then [Role] else [])
           + TextPart(Reasoning(ReasoningText(f))) + TextPart(Content(TextOf(f, "content"))))
  }

  /** Reads the counts; none if one that must be there is not a natural number. */
  function UsageOf(value: Json): Option<Usage> {
    if !value.Obj? then None
    else
      var details := Get(value.fields, "prompt_tokens_details");
      if !details.Null? && !details.Obj? then None
      else
        var prompt, completion := Get(value.fields, "prompt_tokens"), Get(value.fields, "completion_tokens");
        var cached := if details.Null? then Null else Get(details.fields, "cached_tokens");
        if IsCount(prompt) && IsCount(completion) && (cached.Null? || IsCount(cached))
        then Some(Usage(prompt.n, completion.n, if cached.Null? then None else Some(cached.n)))
        else None
  }

  // ----- The translator

  datatype State = State(finish: Option<string>, usage: Option<Usage>, generated: bool)

  const START := State(None, None, false)

  function ChunksOf(parts: seq<Part>): (chunks: seq<Chunk>)
    ensures |chunks| == |parts|
  {
    if parts == [] then [] else ChunksOf(parts[..|parts| - 1]) + [Chunk(Some(parts[|parts| - 1]), None)]
  }

  predicate AnyText(parts: seq<Part>) {
    exists i :: 0 <= i < |parts| && !parts[i].Role?
  }

  function Finished(chunks: seq<Chunk>, reason: string): seq<Chunk>
    requires chunks != []
  {
    chunks[|chunks| - 1 := chunks[|chunks| - 1].(finish := Some(reason))]
  }

  /** The chunks of one choice, or none if it breaks the rules. */
  function ChoiceStep(t: State, choice: Json): Option<(State, seq<Chunk>)> {
    if !choice.Obj? || Get(choice.fields, "index") != Int(0) then None
    else
      var parts, reason := Parts(Get(choice.fields, "delta")), Get(choice.fields, "finish_reason");
      if parts.None? then None
      else if t.finish.Some? then
        if parts.value != [] || !reason.Null? then None else Some((t, []))
      else if !reason.Null? && !(reason.Str? && IsFinish(reason.s)) then None
      else
        var chunks := if parts.value == [] then [Chunk(None, None)] else ChunksOf(parts.value);
        var generated := t.generated || AnyText(parts.value);
        if reason.Null? then Some((t.(generated := generated), chunks))
        else Some((t.(generated := generated, finish := Some(reason.s)), Finished(chunks, reason.s)))
  }

  /** The chunks of one engine event, or none if it breaks the rules. */
  function Step(alias: string, t: State, event: Fields): Option<(State, seq<Chunk>)> {
    if "error" in event || Get(event, "object") != Str(CHUNK_OBJECT) || Get(event, "model") != Str(alias) then None
    else
      var usage := Get(event, "usage");
      if !usage.Null? && UsageOf(usage).None? then None
      else
        var seen := if usage.Null? then t else t.(usage := UsageOf(usage));
        var choices := Get(event, "choices");
        if !choices.Arr? || |choices.items| > 1 then None
        else if choices.items == [] then Some((seen, []))
        else ChoiceStep(seen, choices.items[0])
  }

  /** The chunks of a whole stream of events, as long as each of them keeps the rules. */
  function Translate(alias: string, events: seq<Fields>): Option<(State, seq<Chunk>)> {
    if events == [] then Some((START, []))
    else
      var before := Translate(alias, events[..|events| - 1]);
      if before.None? then None
      else
        var step := Step(alias, before.value.0, events[|events| - 1]);
        if step.None? then None else Some((step.value.0, before.value.1 + step.value.1))
  }

  function EngineChunk(alias: string, choices: seq<Json>): Fields {
    map["object" := Str(CHUNK_OBJECT), "model" := Str(alias), "choices" := Arr(choices)]
  }

  function EngineChoice(delta: Fields, finish: Json): Json {
    Obj(map["index" := Int(0), "delta" := Obj(delta), "finish_reason" := finish])
  }

  /** The three events that every stream of the engine is made of are taken: text before the finish, the finish, and the
      counts. */
  lemma TextIsTaken(alias: string, t: State, text: string)
    requires t.finish.None? && text != ""
    ensures Step(alias, t, EngineChunk(alias, [EngineChoice(map["content" := Str(text)], Null)]))
         == Some((t.(generated := true), [Chunk(Some(Content(text)), None)]))
  {
    hide Parts, ChunksOf, AnyText;
    var delta: Fields := map["content" := Str(text)];
    TextParts(text);
  }

  lemma TextParts(text: string)
    requires text != ""
    ensures Parts(Obj(map["content" := Str(text)])) == Some([Content(text)])
    ensures AnyText([Content(text)]) && ChunksOf([Content(text)]) == [Chunk(Some(Content(text)), None)]
  {
    var delta: Fields := map["content" := Str(text)];
    assert NonNull(delta) == delta;
    var none: seq<Part> := [];
    var parts := [Content(text)];
    assert none + none + parts == parts;
    assert Parts(Obj(delta)) == Some(none + none + parts);
    assert !parts[0].Role?;
    assert parts[..0] == [];
  }

  lemma FinishIsTaken(alias: string, t: State, reason: string)
    requires t.finish.None? && IsFinish(reason)
    ensures Step(alias, t, EngineChunk(alias, [EngineChoice(map[], Str(reason))]))
         == Some((t.(finish := Some(reason)), [Chunk(None, Some(reason))]))
  {
    hide Parts, ChunksOf;
    NoParts();
    assert !AnyText([]);
    assert Finished([Chunk(None, None)], reason) == [Chunk(None, Some(reason))];
  }

  lemma NoParts()
    ensures Parts(Obj(map[])) == Some([])
  {
    var delta: Fields := map[];
    assert NonNull(delta) == delta;
    var none: seq<Part> := [];
    assert none + none + none == none;
    assert Parts(Obj(delta)) == Some(none + none + none);
  }

  lemma CountsAreTaken(alias: string, t: State, prompt: nat, completion: nat)
    ensures Step(alias, t, EngineChunk(alias, [])["usage" :=
                   Obj(map["prompt_tokens" := Int(prompt), "completion_tokens" := Int(completion)])])
         == Some((t.(usage := Some(Usage(prompt, completion, None))), []))
  {
    hide ChoiceStep;
  }

  /** What breaks the rules once is not made good by what follows. */
  lemma {:induction false} NoneAfter(alias: string, events: seq<Fields>, i: nat)
    requires i <= |events| && Translate(alias, events[..i]).None?
    ensures Translate(alias, events).None?
  {
    if i == |events| {
      assert events[..i] == events;
    } else {
      assert events[..|events| - 1][..i] == events[..i];
      NoneAfter(alias, events[..|events| - 1], i);
    }
  }

  // ----- What is sent

  datatype Head = Head(id: string, created: int, model: string)

  datatype Times = Times(waitMs: nat, firstTokenMs: nat, totalMs: nat)

  function HeadFields(head: Head): Fields {
    map["id" := Str(head.id), "object" := Str(CHUNK_OBJECT), "created" := Int(head.created), "model" := Str(head.model)]
  }

  function DeltaFields(delta: Option<Part>): Fields {
    match delta
    case None => map[]
    case Some(Role) => map["role" := Str("assistant")]
    case Some(Reasoning(text)) => map["reasoning_content" := Str(text)]
    case Some(Content(text)) => map["content" := Str(text)]
  }

  function ChunkFields(head: Head, chunk: Chunk): Fields {
    HeadFields(head)[
      "choices" := Arr([Obj(map["index" := Int(0), "delta" := Obj(DeltaFields(chunk.delta)),
                                "finish_reason" := if chunk.finish.None? then Null else Str(chunk.finish.value)])])]
  }

  function TimesFields(times: Times): Fields {
    map["wait_ms" := Int(times.waitMs), "first_token_ms" := Int(times.firstTokenMs), "total_ms" := Int(times.totalMs)]
  }

  function UsageFields(usage: Usage, times: Times): Fields {
    var counts: Fields := map["prompt_tokens" := Int(usage.promptTokens),
                              "completion_tokens" := Int(usage.completionTokens)];
    var cached := if usage.cachedTokens.None? then counts
                  else counts["prompt_tokens_details" := Obj(map["cached_tokens" := Int(usage.cachedTokens.value)])];
    cached["simple_serving" := Obj(TimesFields(times))]
  }

  function UsageChunkFields(head: Head, usage: Usage, times: Times): Fields {
    HeadFields(head)["choices" := Arr([])]["usage" := Obj(UsageFields(usage, times))]
  }

  /** The translator as the gateway keeps it for a stream. */
  class Translator {
    const alias: string
    var finishReason: Option<string>
    var usage: Option<Usage>
    var generated: bool

    ghost function View(): State
      reads this
    {
      State(finishReason, usage, generated)
    }

    constructor (alias: string)
      ensures this.alias == alias && View() == START
    {
      this.alias := alias;
      finishReason, usage, generated := None, None, false;
    }

    /** Takes the step of `Step`, or refuses the event where it does: none is the source's `EngineError`. */
    method ChunksOfEvent(event: Fields) returns (chunks: Option<seq<Chunk>>)
      modifies this
      ensures chunks.None? <==> Step(alias, old(View()), event).None?
      ensures chunks.Some? ==> Step(alias, old(View()), event) == Some((View(), chunks.value))
    {
      if "error" in event || Get(event, "object") != Str(CHUNK_OBJECT) || Get(event, "model") != Str(alias) {
        return None;
      }
      if !Get(event, "usage").Null? {
        var counted := UsageOf(Get(event, "usage"));
        if counted.None? {
          return None;
        }
        usage := counted;
      }
      var choices := Get(event, "choices");
      if !choices.Arr? || |choices.items| > 1 {
        return None;
      }
      if choices.items == [] {
        return Some([]);
      }
      chunks := Choice(choices.items[0]);
    }

    method Choice(choice: Json) returns (chunks: Option<seq<Chunk>>)
      modifies this
      ensures chunks.None? <==> ChoiceStep(old(View()), choice).None?
      ensures chunks.Some? ==> ChoiceStep(old(View()), choice) == Some((View(), chunks.value))
    {
      if !choice.Obj? || Get(choice.fields, "index") != Int(0) {
        return None;
      }
      var parts, reason := Parts(Get(choice.fields, "delta")), Get(choice.fields, "finish_reason");
      if parts.None? {
        return None;
      }
      if finishReason.Some? {
        if parts.value != [] || !reason.Null? {
          return None;
        }
        return Some([]);
      }
      if !reason.Null? && !(reason.Str? && IsFinish(reason.s)) {
        return None;
      }
      if AnyText(parts.value) {
        generated := true;
      }
      var built := if parts.value == [] then [Chunk(None, None)] else ChunksOf(parts.value);
      if !reason.Null? {
        built := Finished(built, reason.s);
        finishReason := Some(reason.s);
      }
      return Some(built);
    }
  }
}
