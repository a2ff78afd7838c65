/** One request's response on ASGI (asgi.py, `Exchange`), and every way an accepted request uses it (inference.py): the
    relay of its stream, its answer or its error, each send whole or cut short by a stop. */
module Exchanges {

  import opened Wrappers
  import opened Wire

  datatype Message = Start(status: nat) | Body(data: Bytes, more: bool)

  /** What becomes of a send: it goes out and returns, a stop cuts it, or it raises; the server may have taken the
      message of a cut or a raising send all the same. */
  datatype Sent = Went | Cut(happened: bool) | Raised(happened: bool) {
    predicate Taken() {
      Went? || happened
    }
  }

  datatype Channel = Channel(started: bool, ending: bool, out: seq<Message>)

  const FRESH := Channel(false, false, [])

  const EVENT_STATUS: nat := 200

  // ----- The exchange's sends: the channel after them, and whether they returned

  function Sending(c: Channel, m: Message, how: Sent): (Channel, bool) {
    (if how.Taken() then c.(out := c.out + [m]) else c, how.Went?)
  }

  function SendingJson(c: Channel, status: nat, body: Bytes, first: Sent, second: Sent): (Channel, bool) {
    var begun := Sending(c.(started := true, ending := true), Start(status), first);
    if begun.1 then Sending(begun.0, Body(body, false), second) else begun
  }

  function StartingStream(c: Channel, how: Sent): (Channel, bool) {
    var begun := Sending(c, Start(EVENT_STATUS), how);
    if begun.1 then (begun.0.(started := true), true) else begun
  }

  function SendingEvent(c: Channel, data: Bytes, last: bool, how: Sent): (Channel, bool) {
    Sending(if last then c.(ending := true) else c, Body(data, !last), how)
  }

  /** An error: a plain answer before the stream, the last event of it after, and nothing once the end has begun. */
  function SendingError(c: Channel, status: nat, body: Bytes, first: Sent, second: Sent): (Channel, bool) {
    if c.ending then (c, true)
    else if c.started then SendingEvent(c, body, true, first)
    else SendingJson(c, status, body, first, second)
  }

  function EndingStream(c: Channel, how: Sent): (Channel, bool) {
    if c.started && !c.ending then Sending(c.(ending := true), Body([], false), how) else (c, true)
  }

  class Exchange {
    var started: bool
    var ending: bool
    ghost var out: seq<Message>

    ghost function View(): Channel
      reads this
    {
      Channel(started, ending, out)
    }

    constructor ()
      ensures View() == FRESH
    {
      started, ending, out := false, false, [];
    }

    method Send(m: Message, how: Sent) returns (whole: bool)
      modifies this`out
      ensures (View(), whole) == Sending(old(View()), m, how)
    {
      if how.Taken() {
        out := out + [m];
      }
      whole := how.Went?;
    }

    method SendJson(status: nat, body: Bytes, first: Sent, second: Sent) returns (whole: bool)
      modifies this
      ensures (View(), whole) == SendingJson(old(View()), status, body, first, second)
    {
      started, ending := true, true;
      whole := Send(Start(status), first);
      if whole {
        whole := Send(Body(body, false), second);
      }
    }

    method StartStream(how: Sent) returns (whole: bool)
      modifies this
      ensures (View(), whole) == StartingStream(old(View()), how)
    {
      whole := Send(Start(EVENT_STATUS), how);
      if whole {
        started := true;
      }
    }

    method SendEvent(data: Bytes, last: bool, how: Sent) returns (whole: bool)
      modifies this
      ensures (View(), whole) == SendingEvent(old(View()), data, last, how)
    {
      if last {
        ending := true;
      }
      whole := Send(Body(data, !last), how);
    }

    method SendError(status: nat, body: Bytes, first: Sent, second: Sent) returns (whole: bool)
      modifies this
      ensures (View(), whole) == SendingError(old(View()), status, body, first, second)
    {
      if ending {
        return true;
      }
      if started {
        whole := SendEvent(body, true, first);
      } else {
        whole := SendJson(status, body, first, second);
      }
    }

    method EndStream(how: Sent) returns (whole: bool)
      modifies this
      ensures (View(), whole) == EndingStream(old(View()), how)
    {
      if started && !ending {
        ending := true;
        whole := Send(Body([], false), how);
      } else {
        whole := true;
      }
    }
  }

  // ----- An accepted request

  datatype Kind = Count | Generation | Picture

  /** How its task ended: well, with an error, or stopped, which may have a code for a client that still listens. */
  datatype Ending = Answers | Fails(status: nat, body: Bytes) | Stopped(status: nat, body: Bytes) | Unheard | ByClient

  /** One run: the stream's start unless the task ended before it, the events relayed until one does not go, the task's
      end, and what became of the sends of the terminal message. The theorems hold of all scripts, which are more than
      the code has runs: those are the `Possible` ones. */
  datatype Script = Script(
    start: Option<Sent>, events: seq<(Bytes, Sent)>, ending: Ending, usage: Bytes, done: Bytes, answer: Bytes,
    first: Sent, second: Sent)

  /** The sends of the task itself. */
  function TaskSendings(script: Script): seq<Sent> {
    if script.start.None? then []
    else [script.start.value] + seq(|script.events|, i requires 0 <= i < |script.events| => script.events[i].1)
  }

  /** Whether a run of the code can go like this: a count has no stream and a stream comes after its start, the task
      ends with its first send that does not go, and as that send tells: cut by a stop it is cancelled, and else it
      fails. Only a picture is stopped by its own client, and a stream's answer comes after the stream. */
  predicate Possible(kind: Kind, script: Script) {
    var sends := TaskSendings(script);
    && (kind.Count? ==> script.start.None?) && (script.start.None? ==> script.events == [])
    && (forall i :: 0 <= i < |sends| - 1 ==> sends[i].Went?)
    && (script.ending.ByClient? ==> kind.Picture?)
    && (script.ending.Answers? && !kind.Count? ==> sends != [])
    && (sends != [] ==>
          match sends[|sends| - 1]
          case Went => true
          case Cut(_) => !script.ending.Answers? && !script.ending.Fails?
          case Raised(_) => script.ending.Fails?)
  }

  /** The relayed events, and whether all of them went. */
  function Relayed(c: Channel, events: seq<(Bytes, Sent)>): (Channel, bool)
    decreases |events|
  {
    if events == [] then (c, true)
    else
      var sent := SendingEvent(c, events[0].0, false, events[0].1);
      if sent.1 then Relayed(sent.0, events[1..]) else sent
  }

  /** The task's own sends, and whether its stream went whole. */
  function TaskSends(script: Script): (Channel, bool) {
    if script.start.None? then (FRESH, false)
    else
      var begun := StartingStream(FRESH, script.start.value);
      if begun.1 then Relayed(begun.0, script.events) else begun
  }

  /** The answer of a task that ended well, which a generation or a picture does only with its stream whole. */
  function Answered(kind: Kind, script: Script, c: Channel, whole: bool): Channel {
    match kind
    case Count => if script.start.None? then SendingJson(c, 200, script.answer, script.first, script.second).0 else c
    case Generation =>
      if !whole then c
      else
        var counted := SendingEvent(c, script.usage, false, script.first);
        if counted.1 then SendingEvent(counted.0, script.done, true, script.second).0 else counted.0
    case Picture => if whole then SendingEvent(c, script.done, true, script.first).0 else c
  }

  function Served(kind: Kind, script: Script): Channel {
    var (c, whole) := TaskSends(script);
    match script.ending
    case Answers => Answered(kind, script, c, whole)
    case Fails(status, body) => SendingError(c, status, body, script.first, script.second).0
    case Stopped(status, body) => SendingError(c, status, body, script.first, script.second).0
    case Unheard => c
    case ByClient => EndingStream(c, script.first).0
  }

  method Serve(kind: Kind, script: Script) returns (exchange: Exchange)
    ensures fresh(exchange) && exchange.View() == Served(kind, script)
  {
    exchange := new Exchange();
    var whole := false;
    if script.start.Some? {
      whole := exchange.StartStream(script.start.value);
      if whole {
        whole := RelayAll(exchange, script.events);
      }
    }
    match script.ending
    case Answers => Answer(kind, script, exchange, whole);
    case Fails(status, body) => var _ := exchange.SendError(status, body, script.first, script.second);
    case Stopped(status, body) => var _ := exchange.SendError(status, body, script.first, script.second);
    case Unheard =>
    case ByClient => var _ := exchange.EndStream(script.first);
  }

  method RelayAll(exchange: Exchange, events: seq<(Bytes, Sent)>) returns (whole: bool)
    modifies exchange
    ensures (exchange.View(), whole) == Relayed(old(exchange.View()), events)
  {
    whole := true;
    var i := 0;
    while i < |events|
      invariant 0 <= i <= |events| && whole
      invariant Relayed(exchange.View(), events[i..]) == Relayed(old(exchange.View()), events)
    {
      whole := exchange.SendEvent(events[i].0, false, events[i].1);
      if !whole {
        return;
      }
      assert events[i..][1..] == events[i + 1..];
      i := i + 1;
    }
  }

  method Answer(kind: Kind, script: Script, exchange: Exchange, whole: bool)
    modifies exchange
    ensures exchange.View() == Answered(kind, script, old(exchange.View()), whole)
  {
    match kind
    case Count =>
      if script.start.None? {
        var _ := exchange.SendJson(200, script.answer, script.first, script.second);
      }
    case Generation =>
      if whole {
        var counted := exchange.SendEvent(script.usage, false, script.first);
        if counted {
          var _ := exchange.SendEvent(script.done, true, script.second);
        }
      }
    case Picture =>
      if whole {
        var _ := exchange.SendEvent(script.done, true, script.first);
      }
  }

  // ----- The order of its messages

  /** A beginning of one start, bodies and one last body. */
  ghost predicate InOrder(out: seq<Message>) {
    && (forall i :: 0 <= i < |out| ==> (out[i].Start? <==> i == 0))
    && (forall i :: 0 < i < |out| - 1 ==> out[i].more)
  }

  /** A response that has not begun to end: nothing sent, or a stream's start and bodies with more to come. */
  ghost predicate Running(c: Channel) {
    && !c.ending && InOrder(c.out)
    && (if c.started then c.out != [] else c.out == [])
    && (forall i :: 0 < i < |c.out| ==> c.out[i].more)
  }

  lemma EventKeepsRunning(c: Channel, data: Bytes, how: Sent)
    requires Running(c) && c.started
    ensures Running(SendingEvent(c, data, false, how).0) && SendingEvent(c, data, false, how).0.started
  {
  }

  lemma {:induction false} RelayKeepsRunning(c: Channel, events: seq<(Bytes, Sent)>)
    requires Running(c) && c.started
    ensures Running(Relayed(c, events).0) && Relayed(c, events).0.started
    decreases |events|
  {
    if events != [] {
      EventKeepsRunning(c, events[0].0, events[0].1);
      var sent := SendingEvent(c, events[0].0, false, events[0].1);
      if sent.1 {
        RelayKeepsRunning(sent.0, events[1..]);
      }
    }
  }

  /** The server has taken the stream's start, and the exchange has not noted it. */
  predicate LostStart(script: Script) {
    script.start.Some? && !script.start.value.Went? && script.start.value.happened
  }

  lemma TaskKeepsRunning(script: Script)
    requires !LostStart(script)
    ensures Running(TaskSends(script).0)
    ensures TaskSends(script).1 ==> TaskSends(script).0.started
    ensures script.start.None? ==> TaskSends(script).0 == FRESH
  {
    if script.start.Some? {
      var begun := StartingStream(FRESH, script.start.value);
      if begun.1 {
        RelayKeepsRunning(begun.0, script.events);
      }
    }
  }

  lemma ErrorInOrder(c: Channel, status: nat, body: Bytes, first: Sent, second: Sent)
    requires Running(c)
    ensures InOrder(SendingError(c, status, body, first, second).0.out)
  {
  }

  lemma AnswerInOrder(kind: Kind, script: Script, c: Channel, whole: bool)
    requires Running(c) && (whole ==> c.started) && (script.start.None? ==> c == FRESH)
    ensures InOrder(Answered(kind, script, c, whole).out)
  {
  }

  /** Whether an error goes out after such a start. */
  predicate SecondStart(script: Script) {
    LostStart(script) && (script.ending.Fails? || script.ending.Stopped?) && script.first.Taken()
  }

  /** In every run the messages are a beginning of one start, bodies and one last body, with nothing after it, whatever
      send is cut or raises and whatever comes of it: but for one case, a stream's start that the server took although
      its send did not return, and an error after it. */
  lemma MessagesInOrder(kind: Kind, script: Script)
    ensures InOrder(Served(kind, script).out) <==> !SecondStart(script)
  {
    if LostStart(script) {
      StartWentAnyway(kind, script);
    } else {
      var (c, whole) := TaskSends(script);
      TaskKeepsRunning(script);
      AnswerInOrder(kind, script, c, whole);
      match script.ending
      case Fails(status, body) => ErrorInOrder(c, status, body, script.first, script.second);
      case Stopped(status, body) => ErrorInOrder(c, status, body, script.first, script.second);
      case _ =>
    }
  }

  lemma StartWentAnyway(kind: Kind, script: Script)
    requires LostStart(script)
    ensures InOrder(Served(kind, script).out) <==> !SecondStart(script)
  {
    var c := Channel(false, false, [Start(EVENT_STATUS)]);
    assert FRESH.out + [Start(EVENT_STATUS)] == c.out;
    assert TaskSends(script) == (c, false);
    if SecondStart(script) {
      assert Served(kind, script).out[1].Start?;
    }
  }

  /** Of the runs the code can make those are two kinds: a stop cut the start's send and its code is sent, or that send
      raised and the failure is. */
  lemma PossibleInOrder(kind: Kind, script: Script)
    requires Possible(kind, script)
    ensures !InOrder(Served(kind, script).out) <==>
              && script.first.Taken()
              && (if script.ending.Stopped? then script.start == Some(Cut(true))
                  else script.ending.Fails? && script.start == Some(Raised(true)))
  {
    MessagesInOrder(kind, script);
    if script.start.Some? && !script.start.value.Went? {
      assert TaskSendings(script)[0] == script.start.value;
      assert |TaskSendings(script)| == 1;
    }
  }

  /** A stream whose start the server took although a stop cut its send, and whose stop is then answered with its code.
      */
  function CutAfterTaken(status: nat, error: Bytes): Script {
    Script(Some(Cut(true)), [], Stopped(status, error), [], [], [], Went, Went)
  }

  /** The code can make that run, of a generation or a picture, and the client is sent two starts. */
  lemma TwoStarts(kind: Kind, status: nat, error: Bytes)
    requires !kind.Count?
    ensures Possible(kind, CutAfterTaken(status, error))
    ensures Served(kind, CutAfterTaken(status, error)).out == [Start(EVENT_STATUS), Start(status), Body(error, false)]
    ensures !InOrder(Served(kind, CutAfterTaken(status, error)).out)
  {
    var out := Served(kind, CutAfterTaken(status, error)).out;
    assert out == [Start(EVENT_STATUS), Start(status), Body(error, false)];
    assert out[1].Start?;
  }

  /** A server that takes a message only once nothing can keep its send from returning keeps the order always. */
  lemma CutMeansUnsent(kind: Kind, script: Script)
    requires script.start.Some? && !script.start.value.Went? ==> !script.start.value.happened
    ensures InOrder(Served(kind, script).out)
  {
    MessagesInOrder(kind, script);
  }

  // ----- What goes out when nothing is cut

  function Bodies(events: seq<(Bytes, Sent)>): (bodies: seq<Message>)
    ensures |bodies| == |events|
  {
    seq(|events|, i requires 0 <= i < |events| => Body(events[i].0, true))
  }

  ghost predicate Uncut(script: Script) {
    && (script.start.Some? ==> script.start.value.Went?)
    && (forall i :: 0 <= i < |script.events| ==> script.events[i].1.Went?)
    && script.first.Went? && script.second.Went?
  }

  lemma {:induction false} RelayedWhole(c: Channel, events: seq<(Bytes, Sent)>)
    requires forall i :: 0 <= i < |events| ==> events[i].1.Went?
    ensures Relayed(c, events) == (c.(out := c.out + Bodies(events)), true)
    decreases |events|
  {
    if events == [] {
      assert c.out + Bodies(events) == c.out;
    } else {
      var sent := c.(out := c.out + [Body(events[0].0, true)]);
      RelayedWhole(sent, events[1..]);
      assert Bodies(events) == [Body(events[0].0, true)] + Bodies(events[1..]);
      assert sent.out + Bodies(events[1..]) == c.out + Bodies(events);
    }
  }

  /** When no send is cut, everything goes out whole: a stream's start and events, and then the usage and [DONE] of an
      answer, or its error as the last event, or its plain end; and without a stream the plain answer or error. */
  lemma UncutIsWhole(kind: Kind, script: Script)
    requires Uncut(script)
    ensures var stream := [Start(EVENT_STATUS)] + Bodies(script.events);
            var out := Served(kind, script).out;
            match script.ending
            case Answers =>
              if script.start.Some? then
                (match kind
                 case Generation => out == stream + [Body(script.usage, true), Body(script.done, false)]
                 case Picture => out == stream + [Body(script.done, false)]
                 case Count => out == stream)
              else out == if kind.Count? then [Start(200), Body(script.answer, false)] else []
            case Fails(status, body) =>
              out == if script.start.Some? then stream + [Body(body, false)] else [Start(status), Body(body, false)]
            case Stopped(status, body) =>
              out == if script.start.Some? then stream + [Body(body, false)] else [Start(status), Body(body, false)]
            case Unheard => out == if script.start.Some? then stream else []
            case ByClient => out == if script.start.Some? then stream + [Body([], false)] else []
  {
    if script.start.Some? {
      RelayedWhole(Channel(true, false, [] + [Start(EVENT_STATUS)]), script.events);
      assert TaskSends(script).0.out == [Start(EVENT_STATUS)] + Bodies(script.events);
    }
  }
}
