/** The measurements of a generation (inference.py, `_relay` and `_measure`): its wait, its first token and its total,
    in whole milliseconds from its acceptance, on a clock that never runs back. */
module Relay {

  import opened Wrappers
  import opened Chunks

  /** A moment as whole milliseconds after another, not before it. */
  function Ms(accepted: real, moment: real): nat
    requires accepted <= moment
  {
    ((moment - accepted) * 1000.0).Floor
  }

  lemma MsGrows(accepted: real, a: real, b: real)
    requires accepted <= a <= b
    ensures 0 <= Ms(accepted, a) <= Ms(accepted, b)
  {
    var x, y := (a - accepted) * 1000.0, (b - accepted) * 1000.0;
    assert x.Floor as real <= x <= y < y.Floor as real + 1.0;
  }

  /** The events arrive one after another, and the clock is read as each is relayed and at the end. */
  ghost predicate InTime(accepted: real, handed: real, moments: seq<real>, end: real) {
    && accepted <= handed
    && (forall i :: 0 <= i < |moments| ==> handed <= moments[i] <= end)
    && (forall i, j :: 0 <= i < j < |moments| ==> moments[i] <= moments[j])
    && handed <= end
  }

  /** Whether a token or the finish has come by the first `n` events. */
  ghost predicate TokenBy(alias: string, events: seq<Fields>, n: nat)
    requires n <= |events|
  {
    var t := Translate(alias, events[..n]);
    t.Some? && (t.value.0.generated || t.value.0.finish.Some?)
  }

  /** The first event by which a token or the finish has come. */
  ghost predicate FirstToken(alias: string, events: seq<Fields>, n: nat) {
    0 < n <= |events| && TokenBy(alias, events, n) && forall m :: 0 <= m < n ==> !TokenBy(alias, events, m)
  }

  ghost predicate NoToken(alias: string, events: seq<Fields>, n: nat) {
    n <= |events| && forall m :: 0 <= m <= n ==> !TokenBy(alias, events, m)
  }

  /** The relay's loop over the engine's events, up to the usage chunk's measurements: none is the source's
      `EngineError`. The first token is measured as the first event with a token or the finish is relayed. */
  method Measure(alias: string, events: seq<Fields>, accepted: real, handed: real, moments: seq<real>, end: real)
    returns (times: Option<Times>, ghost first: nat)
    requires |moments| == |events| && InTime(accepted, handed, moments, end)
    ensures times.Some? <==>
              var t := Translate(alias, events);
              t.Some? && t.value.0.finish.Some? && t.value.0.usage.Some?
    ensures times.Some? ==>
              && times.value.waitMs == Ms(accepted, handed) && times.value.totalMs == Ms(accepted, end)
              && FirstToken(alias, events, first) && times.value.firstTokenMs == Ms(accepted, moments[first - 1])
    ensures times.Some? ==> 0 <= times.value.waitMs <= times.value.firstTokenMs <= times.value.totalMs
  {
    hide Step, Translate, TokenBy, FirstToken, NoToken, Ms;
    var translator := new Translator(alias);
    var firstTokenAt: Option<real> := None;
    first := 0;
    var i := 0;
    NothingYet(alias, events);
    while i < |events|
      invariant 0 <= i <= |events| && fresh(translator) && translator.alias == alias
      invariant Translate(alias, events[..i]).Some? && Translate(alias, events[..i]).value.0 == translator.View()
      invariant firstTokenAt.None? ==> NoToken(alias, events, i)
      invariant firstTokenAt.Some? ==>
                  0 < first <= i && FirstToken(alias, events, first) && firstTokenAt == Some(moments[first - 1])
      invariant firstTokenAt.Some? <==> translator.generated || translator.finishReason.Some?
    {
      OneMore(alias, events, i);
      var chunks := translator.ChunksOfEvent(events[i]);
      if chunks.None? {
        NoneAfter(alias, events, i + 1);
        return None, first;
      }
      i := i + 1;
      if firstTokenAt.None? && (translator.generated || translator.finishReason.Some?) {
        firstTokenAt := Some(moments[i - 1]);
        first := i;
      }
    }
    assert events[..i] == events;
    if translator.finishReason.None? || translator.usage.None? {
      return None, first;
    }
    MsGrows(accepted, handed, firstTokenAt.value);
    MsGrows(accepted, firstTokenAt.value, end);
    return Some(Times(Ms(accepted, handed), Ms(accepted, firstTokenAt.value), Ms(accepted, end))), first;
  }

  lemma NothingYet(alias: string, events: seq<Fields>)
    ensures Translate(alias, events[..0]) == Some((START, [])) && NoToken(alias, events, 0)
  {
  }

  /** One event more: what the translator makes of it, and whether it brings the first token. */
  lemma OneMore(alias: string, events: seq<Fields>, i: nat)
    requires i < |events| && Translate(alias, events[..i]).Some?
    ensures var t := Translate(alias, events[..i]).value.0;
            var step := Step(alias, t, events[i]);
            && (step.None? ==> Translate(alias, events[..i + 1]).None?)
            && (step.Some? ==>
                  && Translate(alias, events[..i + 1]).Some?
                  && Translate(alias, events[..i + 1]).value.0 == step.value.0
                  && (t.generated || t.finish.Some? ==> step.value.0.generated || step.value.0.finish.Some?)
                  && (NoToken(alias, events, i) ==>
                        if step.value.0.generated || step.value.0.finish.Some?
                        then FirstToken(alias, events, i + 1) else NoToken(alias, events, i + 1)))
  {
    hide Step;
    assert events[..i + 1][..i] == events[..i];
    var t := Translate(alias, events[..i]).value.0;
    if Step(alias, t, events[i]).Some? {
      StaysToken(alias, t, events[i]);
    }
  }

  /** A token stays one: neither a generated token nor a finish is taken back. */
  lemma StaysToken(alias: string, t: State, event: Fields)
    requires Step(alias, t, event).Some?
    ensures t.generated ==> Step(alias, t, event).value.0.generated
    ensures t.finish.Some? ==> Step(alias, t, event).value.0.finish == t.finish
  {
  }
}
