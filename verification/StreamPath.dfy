/** A generation's text from the engine's body to the client's: read in pieces, translated event by event, sent as
    server-sent events, and read in pieces again. */
module StreamPath {

  import opened Wrappers
  import opened Wire
  import opened Chunks
  import Consumer
  import EngineEvents
  import RoundTrip

  /** How many of the events the translator takes: all, or those before the first that breaks a rule. */
  function TakenBy(alias: string, events: seq<Fields>): (n: nat)
    ensures n <= |events| && Translate(alias, events[..n]).Some?
    decreases |events|
  {
    if Translate(alias, events).Some? then assert events[..|events|] == events; |events|
    else
      var before := events[..|events| - 1];
      var n := TakenBy(alias, before);
      assert before[..n] == events[..n];
      n
  }

  lemma {:induction false} TakenIs(alias: string, events: seq<Fields>, n: nat)
    requires n <= |events| && Translate(alias, events[..n]).Some?
    requires n < |events| ==> Translate(alias, events[..n + 1]).None?
    ensures TakenBy(alias, events) == n
    decreases |events|
  {
    hide Translate;
    if n == |events| {
      assert events[..n] == events;
    } else {
      NoneAfter(alias, events, n + 1);
      var before := events[..|events| - 1];
      assert before[..n] == events[..n] && (n < |before| ==> before[..n + 1] == events[..n + 1]);
      TakenIs(alias, before, n);
    }
  }

  /** The engine's stream came to [DONE] and kept the rules to its finish and its usage. */
  predicate Complete(alias: string, r: EngineEvents.Reader) {
    var t := Translate(alias, r.events);
    r.status.Done? && t.Some? && t.value.0.finish.Some? && t.value.0.usage.Some?
  }

  /** What the gateway streams for what it read from the engine: a whole answer, or the chunks up to the first broken
      rule and an error; nothing if the first event breaks one, as the client gets a plain answer then. */
  function RelayedTexts(encode: RoundTrip.Encode, head: Head, times: Times, code: string, r: EngineEvents.Reader)
    : seq<Bytes>
  {
    var n := TakenBy(head.model, r.events);
    var (t, chunks) := Translate(head.model, r.events[..n]).value;
    if Complete(head.model, r) then CompleteIsTaken(head.model, r);
      RoundTrip.AnswerTexts(encode, head, chunks, t.usage.value, times)
    else if n == 0 then []
    else RoundTrip.FailedTexts(encode, head, chunks, code)
  }

  lemma CompleteIsTaken(alias: string, r: EngineEvents.Reader)
    requires Complete(alias, r)
    ensures TakenBy(alias, r.events) == |r.events| && r.events[..|r.events|] == r.events
  {
    hide Translate;
    assert r.events[..|r.events|] == r.events;
    TakenIs(alias, r.events, |r.events|);
  }

  /** The relay's loop: each piece of the engine's body may bring events, and each event's chunks are sent before the
      next is looked at. `code` is the error's, should there be one. */
  method Relayed(parse: Consumer.Parse, encode: RoundTrip.Encode, head: Head, times: Times, code: string,
                 pieces: seq<Bytes>) returns (sent: seq<Bytes>)
    ensures var r := EngineEvents.Close(EngineEvents.ReadOf(parse, pieces).reader);
            sent == RelayedTexts(encode, head, times, code, r)
  {
    hide Step, Translate, EngineEvents.ReadPiece, RoundTrip.ChunkTexts, RoundTrip.AnswerTexts, RoundTrip.FailedTexts;
    ghost var r := EngineEvents.Close(EngineEvents.ReadOf(parse, pieces).reader);
    var translator := new Translator(head.model);
    ghost var chunks: seq<Chunk> := [];
    var p, n, i := EngineEvents.Progress(EngineEvents.NEW, []), 0, 0;
    sent := [];
    NothingRelayed(encode, head);
    while i < |pieces| && p.reader.status.Open?
      invariant 0 <= i <= |pieces| && p == EngineEvents.ReadOf(parse, pieces[..i]) && n == |p.reader.events|
      invariant fresh(translator) && translator.alias == head.model
      invariant Translate(head.model, p.reader.events) == Some((translator.View(), chunks))
      invariant sent == RoundTrip.ChunkTexts(encode, head, chunks)
    {
      assert pieces[..i + 1][..i] == pieces[..i];
      ghost var before := p.reader.events;
      p := EngineEvents.ReadOne(parse, p, pieces[i]);
      i := i + 1;
      EngineEvents.ReadsOn(parse, pieces, i);
      EngineEvents.ReadsOn(parse, pieces[..i], i - 1);
      assert p.reader.events[..n] == before;
      while n < |p.reader.events|
        invariant |before| <= n <= |p.reader.events| && translator.alias == head.model
        invariant Translate(head.model, p.reader.events[..n]) == Some((translator.View(), chunks))
        invariant sent == RoundTrip.ChunkTexts(encode, head, chunks)
      {
        OneEventMore(head.model, p.reader.events, n);
        var more := translator.ChunksOfEvent(p.reader.events[n]);
        if more.None? {
          assert r.events[..n] == p.reader.events[..n] && r.events[..n + 1] == p.reader.events[..n + 1];
          NoneAfter(head.model, r.events, n + 1);
          sent := Failed(encode, head, times, code, r, n, chunks, sent);
          return;
        }
        RoundTrip.ChunkTextsOfTwo(encode, head, chunks, more.value);
        sent := sent + RoundTrip.ChunkTexts(encode, head, more.value);
        chunks := chunks + more.value;
        n := n + 1;
      }
      assert p.reader.events[..n] == p.reader.events;
    }
    EngineEvents.Settled(parse, pieces, i);
    assert r.events[..n] == r.events;
    TakenIs(head.model, r.events, n);
    if p.reader.status.Done? && translator.finishReason.Some? && translator.usage.Some? {
      var counts := encode(UsageChunkFields(head, translator.usage.value, times));
      sent := sent + [counts] + [Consumer.DONE];
      AnswerIs(encode, head, chunks, translator.usage.value, times);
    } else {
      sent := Failed(encode, head, times, code, r, n, chunks, sent);
    }
  }

  /** The end of a stream that broke a rule: an error event if the stream has begun. */
  method Failed(encode: RoundTrip.Encode, head: Head, times: Times, code: string, ghost r: EngineEvents.Reader, n: nat,
                ghost chunks: seq<Chunk>, sent: seq<Bytes>) returns (texts: seq<Bytes>)
    requires !Complete(head.model, r) && n <= |r.events| && Translate(head.model, r.events[..n]).Some?
    requires Translate(head.model, r.events[..n]).value.1 == chunks
    requires n < |r.events| ==> Translate(head.model, r.events[..n + 1]).None?
    requires sent == RoundTrip.ChunkTexts(encode, head, chunks)
    ensures texts == RelayedTexts(encode, head, times, code, r)
  {
    hide Translate, RoundTrip.ChunkTexts;
    TakenIs(head.model, r.events, n);
    texts := if n == 0 then [] else sent + [encode(RoundTrip.ErrorFields(code))];
  }

  lemma NothingRelayed(encode: RoundTrip.Encode, head: Head)
    ensures RoundTrip.ChunkTexts(encode, head, []) == [] && forall alias :: Translate(alias, []) == Some((START, []))
  {
  }

  lemma OneEventMore(alias: string, events: seq<Fields>, n: nat)
    requires n < |events| && Translate(alias, events[..n]).Some?
    ensures var (t, chunks) := Translate(alias, events[..n]).value;
            var step := Step(alias, t, events[n]);
            && (step.None? ==> Translate(alias, events[..n + 1]).None?)
            && (step.Some? ==>
                  Translate(alias, events[..n + 1]) == Some((step.value.0, chunks + step.value.1)))
  {
    hide Step;
    assert events[..n + 1][..n] == events[..n];
  }

  lemma AnswerIs(encode: RoundTrip.Encode, head: Head, chunks: seq<Chunk>, usage: Usage, times: Times)
    ensures RoundTrip.AnswerTexts(encode, head, chunks, usage, times)
         == RoundTrip.ChunkTexts(encode, head, chunks) + [encode(UsageChunkFields(head, usage, times))]
            + [Consumer.DONE]
  {
  }

  /** The whole way: whatever pieces the engine's body comes in, and whatever pieces the gateway's body is read in, the
      client ends with the engine's own text, finish and counts, and finds the stream in order, exactly when the engine
      counts a prompt and the stream is within the client's bounds. */
  method WholeWay(parse: Consumer.Parse, encode: RoundTrip.Encode, head: Head, times: Times, code: string,
                  ghost payloads: seq<Bytes>, ghost events: seq<Fields>, ghost chunks: seq<Chunk>, ghost end: State,
                  enginePieces: seq<Bytes>, clientPieces: seq<Bytes>)
    returns (sent: seq<Bytes>, stream: Consumer.Stream)
    requires RoundTrip.Faithful(encode, parse)
    requires EngineEvents.Parses(parse, payloads, events)
    requires forall payload :: payload in payloads ==> EngineEvents.OneLine(payload)
    requires Joined(enginePieces) == EventBody(payloads + [Consumer.DONE])
    requires Translate(head.model, events) == Some((end, chunks)) && end.finish.Some? && end.usage.Some?
    requires var r := EngineEvents.Reader(events, [], EngineEvents.Done);
             Joined(clientPieces) == EventBody(RelayedTexts(encode, head, times, code, r))
    ensures Joined(clientPieces) == EventBody(sent)
    ensures Consumer.IsOk(stream.View()) <==>
              && end.usage.value.promptTokens >= 1
              && |RoundTrip.EngineContent(events)| + |RoundTrip.EngineReasoning(events)| <= Consumer.TEXT_CHARS
              && |Joined(clientPieces)| <= Consumer.STREAM_BYTES
    ensures Consumer.IsOk(stream.View()) ==>
              && stream.View().finish == end.finish
              && stream.View().content == RoundTrip.EngineContent(events)
              && stream.View().reasoning == RoundTrip.EngineReasoning(events)
              && stream.View().usage.Some? && UsageOf(Obj(stream.View().usage.value)) == end.usage
  {
    hide RoundTrip.Faithful, EngineEvents.Parses, EngineEvents.OneLine, Translate, EventBody, UsageOf,
         RoundTrip.AnswerTexts, EngineEvents.Close, EngineEvents.ReadOf, RoundTrip.EngineContent,
         RoundTrip.EngineReasoning;
    sent := Relayed(parse, encode, head, times, code, enginePieces);
    EngineEvents.ReadsEngine(parse, payloads, events, enginePieces);
    CompleteIsTaken(head.model, EngineEvents.Reader(events, [], EngineEvents.Done));
    stream := RoundTrip.ReadsBack(encode, parse, head, events, chunks, end, times, clientPieces);
  }

  /** And the way of a stream that breaks a rule after it has begun, whatever the engine's body is and however both
      bodies are cut: the client never finds it in order, and within its bound of bytes it has the error's code and
      exactly the text of the events before the break. */
  method BrokenWay(parse: Consumer.Parse, encode: RoundTrip.Encode, head: Head, times: Times, code: string,
                   enginePieces: seq<Bytes>, clientPieces: seq<Bytes>)
    returns (sent: seq<Bytes>, stream: Consumer.Stream)
    requires RoundTrip.Faithful(encode, parse) && code in Consumer.CODES
    requires var r := EngineEvents.Close(EngineEvents.ReadOf(parse, enginePieces).reader);
             && !Complete(head.model, r) && TakenBy(head.model, r.events) > 0
             && Joined(clientPieces) == EventBody(RelayedTexts(encode, head, times, code, r))
    ensures Joined(clientPieces) == EventBody(sent)
    ensures !Consumer.IsOk(stream.View())
    ensures var r := EngineEvents.Close(EngineEvents.ReadOf(parse, enginePieces).reader);
            var taken := r.events[..TakenBy(head.model, r.events)];
            |Joined(clientPieces)| <= Consumer.STREAM_BYTES ==>
              && stream.View().code == Some(code) && stream.View().usage.None? && !stream.View().done
              && stream.View().content == RoundTrip.EngineContent(taken)
              && stream.View().reasoning == RoundTrip.EngineReasoning(taken)
              && stream.View().finish == Translate(head.model, taken).value.0.finish
  {
    hide RoundTrip.Faithful, Translate, EventBody, RoundTrip.FailedTexts, EngineEvents.Close, EngineEvents.ReadOf,
         RoundTrip.EngineContent, RoundTrip.EngineReasoning, Consumer.ReadBody, Complete, TakenBy;
    sent := Relayed(parse, encode, head, times, code, enginePieces);
    ghost var r := EngineEvents.Close(EngineEvents.ReadOf(parse, enginePieces).reader);
    ghost var taken := r.events[..TakenBy(head.model, r.events)];
    RoundTrip.TranslateKeepsText(head.model, taken);
    RoundTrip.ReadsFailure(encode, parse, head, Translate(head.model, taken).value.1, code);
    stream := Consumer.ReadStream(parse, head.model, Consumer.OK, None, true, clientPieces, true);
  }
}
