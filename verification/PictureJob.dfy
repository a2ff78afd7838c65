/** A picture's job as the gateway follows it (pictures/jobs.py), and the order of the events its client gets. What the
    socket tells, what reads of the queue and of the record answer, which timers are due and which send is cut are the
    rounds' to say, in any order. */
module PictureJob {

  import opened Wrappers
  import opened Exchanges

  datatype Phase = Preparing | Submitting | Pending | Drawing | Over

  function Rank(phase: Phase): nat {
    match phase
    case Preparing => 0
    case Submitting => 1
    case Pending => 2
    case Drawing => 3
    case Over => 4
  }

  /** The events of the stream, by name. */
  datatype Event = Accepted | Place | Cached | Node | Progress | Started | TheOver | Image

  datatype Message =
    | ExecutionStart | ExecutionCached | ExecutingNode | ExecutingNone | Executed
    | ExecutionSuccess | ExecutionFailed | ProgressTold | Otherwise

  /** A read of the queue: whether it holds the job as waiting, and as the one being drawn. */
  datatype QueueView = QueueView(pending: bool, running: bool)

  /** What a poll finds: nothing came back, the queue holds the job, or its record, if there is one, and whether that
      says the job is over. */
  datatype Found = Unanswered | Held(running: bool) | NoRecord | Record(over: bool)

  /** One turn of the follow loop. */
  datatype Round = Round(
    news: seq<Message>, view: Option<QueueView>, vouched: bool, graceOver: bool, placeDue: bool, pollDue: bool,
    poll: Found)

  datatype Result = Following | Recorded | Failed | CutOff | Delivered

  const RECORD_TRIES: nat := 3

  // ----- The order of the events

  /** Where a stream stands: before `accepted`, waiting, drawing, and delivered with so many images. */
  datatype Stage = Before | Waiting | AtWork | Shown(images: nat) | Broken

  function Then(stage: Stage, e: Event): Stage {
    match (stage, e)
    case (Before, Accepted) => Waiting
    case (Waiting, Place) => Waiting
    case (Waiting, Started) => AtWork
    case (Waiting, Cached) => Waiting
    case (Waiting, Node) => Waiting
    case (Waiting, Progress) => Waiting
    case (AtWork, Cached) => AtWork
    case (AtWork, Node) => AtWork
    case (AtWork, Progress) => AtWork
    case (AtWork, TheOver) => Shown(0)
    case (Shown(images), Image) => Shown(images + 1)
    case _ => Broken
  }

  function StageOf(events: seq<Event>): Stage {
    if events == [] then Before else Then(StageOf(events[..|events| - 1]), events[|events| - 1])
  }

  lemma OneMore(events: seq<Event>, e: Event)
    ensures StageOf(events + [e]) == Then(StageOf(events), e)
  {
    assert (events + [e])[..|events|] == events;
  }

  /** What the job has heard and told: `told`, that it started. */
  datatype Ears = Ears(told: bool, start: bool, success: bool, over: bool, look: bool)

  function Hear(ears: Ears, message: Message): Ears {
    match message
    case ExecutionStart => ears.(told := true, start := true)
    case ExecutionSuccess => ears.(success := true)
    case ExecutingNone => ears.(over := true, look := true)
    case ExecutionFailed => ears.(look := true)
    case _ => ears
  }

  function HearAll(ears: Ears, news: seq<Message>): Ears {
    if news == [] then ears else Hear(HearAll(ears, news[..|news| - 1]), news[|news| - 1])
  }

  /** What the client is told of a message. */
  function Tells(ears: Ears, message: Message): seq<Event> {
    match message
    case ExecutionStart => if ears.told then [] else [Started]
    case ExecutionCached => [Cached]
    case ExecutingNode => [Node]
    case ProgressTold => [Progress]
    case _ => []
  }

  function TellsAll(ears: Ears, news: seq<Message>): seq<Event> {
    if news == [] then []
    else
      var n := |news| - 1;
      TellsAll(ears, news[..n]) + Tells(HearAll(ears, news[..n]), news[n])
  }

  ghost predicate SomeRecord(rounds: seq<Round>) {
    exists i :: 0 <= i < |rounds| && rounds[i].poll == Record(true)
  }

  lemma RecordAt(rounds: seq<Round>, i: nat)
    requires i < |rounds| && rounds[i].poll == Record(true)
    ensures SomeRecord(rounds)
  {
  }

  /** What a delivery tells. */
  function DeliveryEvents(told: bool, images: nat): seq<Event> {
    (if told then [] else [Started]) + [TheOver] + seq(images, _ => Image)
  }

  lemma OneMoreImage(told: bool, images: nat)
    ensures DeliveryEvents(told, images + 1) == DeliveryEvents(told, images) + [Image]
    ensures DeliveryEvents(told, 0) == (if told then [] else [Started]) + [TheOver]
  {
  }

  /** The job of one request, with what it has heard, and the events its client has. */
  class Picture {
    var phase: Phase
    var toldStarted: bool
    var heardStart: bool
    var heardSuccess: bool
    var heardOver: bool
    var placed: bool       // some read found it pending in the queue
    var left: bool         // a later one did not
    var look: bool
    var missing: nat
    var failures: nat
    var lost: bool
    const sends: nat -> Sent
    var count: nat
    ghost var sent: seq<Event>

    /** While the task runs: what the client has fits what the job knows. */
    ghost predicate Follows()
      reads this
    {
      && (phase.Pending? ==> !toldStarted && StageOf(sent) == Waiting)
      && (phase.Drawing? ==> toldStarted && StageOf(sent) == AtWork)
      && (phase.Over? ==> StageOf(sent).Shown? || StageOf(sent) == (if toldStarted then AtWork else Waiting))
      && (phase.Preparing? || phase.Submitting? ==> sent == [] && !toldStarted)
    }

    /** The client takes every event. */
    ghost predicate Uncut() {
      forall n :: sends(n).Went?
    }

    constructor (sends: nat -> Sent)
      ensures Follows() && phase.Preparing? && sent == [] && this.sends == sends
    {
      this.sends := sends;
      phase, toldStarted, heardStart, heardSuccess, heardOver := Preparing, false, false, false, false;
      placed, left, look, missing, failures, lost, count, sent := false, false, false, 0, 0, false, 0, [];
    }

    /** One event to the client; a cut send ends the task, whether the client has it or not. */
    method Send(e: Event) returns (whole: bool)
      modifies this`sent, this`count
      ensures sent == old(sent) || sent == old(sent) + [e]
      ensures whole ==> sent == old(sent) + [e]
      ensures StageOf(old(sent) + [e]) == Then(StageOf(old(sent)), e)
      ensures Uncut() ==> whole
    {
      var how := sends(count);
      count := count + 1;
      OneMore(sent, e);
      if how.Taken() {
        sent := sent + [e];
      }
      whole := how.Went?;
    }

    /** Sends `started` unless it was sent; after it no place is told. */
    method Start() returns (whole: bool)
      requires Follows() && (phase.Pending? || phase.Drawing? || (phase.Over? && !StageOf(sent).Shown?))
      modifies this
      ensures StageOf(sent) != Broken && Rank(old(phase)) <= Rank(phase)
      ensures whole ==> Follows() && toldStarted && StageOf(sent) == AtWork
      ensures phase == (if old(phase).Pending? then Drawing else old(phase))
      ensures left == old(left) && placed == old(placed) && look == old(look) && missing == old(missing)
      ensures failures == old(failures) && heardStart == old(heardStart) && heardSuccess == old(heardSuccess)
      ensures heardOver == old(heardOver) && (Uncut() ==> whole)
      ensures toldStarted && (whole ==> sent == old(sent) + if old(toldStarted) then [] else [Started])
    {
      hide Uncut;
      if toldStarted {
        return true;
      }
      toldStarted := true;
      if phase.Pending? {
        phase := Drawing;
      }
      whole := Send(Started);
    }

    /** Goes through the socket's messages: each may end the wait, add an event or ask for a poll; none ends the job. */
    method TakeNews(news: seq<Message>) returns (whole: bool)
      requires Follows() && (phase.Pending? || phase.Drawing?)
      modifies this
      ensures StageOf(sent) != Broken && Rank(old(phase)) <= Rank(phase) <= Rank(Drawing)
      ensures whole ==> Follows() && (phase.Pending? || phase.Drawing?)
      ensures Uncut() ==> whole
      ensures whole ==> Hears() == HearAll(old(Hears()), news) && sent == old(sent) + TellsAll(old(Hears()), news)
    {
      hide Uncut, StageOf, Hear, Tells;
      var i := 0;
      while i < |news|
        invariant 0 <= i <= |news| && Follows() && (phase.Pending? || phase.Drawing?)
        invariant StageOf(sent) != Broken && Rank(old(phase)) <= Rank(phase)
        invariant Hears() == HearAll(old(Hears()), news[..i])
        invariant sent == old(sent) + TellsAll(old(Hears()), news[..i])
      {
        assert news[..i + 1][..i] == news[..i];
        whole := TakeOne(news[i]);
        if !whole {
          return;
        }
        i := i + 1;
      }
      assert news[..i] == news;
      whole := true;
    }

    ghost function Hears(): Ears
      reads this
    {
      Ears(toldStarted, heardStart, heardSuccess, heardOver, look)
    }

    method TakeOne(message: Message) returns (whole: bool)
      requires Follows() && (phase.Pending? || phase.Drawing?)
      modifies this
      ensures StageOf(sent) != Broken && Rank(old(phase)) <= Rank(phase) <= Rank(Drawing)
      ensures whole ==> Follows() && (phase.Pending? || phase.Drawing?)
      ensures Uncut() ==> whole
      ensures whole ==> Hears() == Hear(old(Hears()), message) && sent == old(sent) + Tells(old(Hears()), message)
    {
      hide Uncut, StageOf;
      whole := true;
      match message
      case ExecutionStart =>
        heardStart := true;
        whole := Start();
      case ExecutionCached => whole := Send(Cached);
      case ExecutingNode => whole := Send(Node);
      case ExecutingNone => heardOver, look := true, true;
      case ExecutionSuccess => heardSuccess := true;
      case ExecutionFailed => look := true;
      case ProgressTold => whole := Send(Progress);
      case Executed =>
      case Otherwise =>
    }

    /** What a queue read changes: where the job was seen, and whether a poll is due. */
    method TakeView(view: Option<QueueView>)
      requires Follows()
      modifies this`left, this`look, this`placed
      ensures Follows()
      ensures placed == (old(placed) || (view.Some? && view.value.pending))
      ensures left == (old(left) || (view.Some? && !view.value.pending))
      ensures look == (old(look) || (view.Some? && !view.value.pending && !view.value.running))
    {
      if view.Some? {
        if view.value.pending {
          placed := true;
        } else {
          left := true;
          if !view.value.running {
            look := true;
          }
        }
      }
    }

    /** Sends a place only of a job that some read found pending. */
    method TellPlace() returns (whole: bool)
      requires Follows() && phase.Pending?
      modifies this`sent, this`count
      ensures StageOf(sent) != Broken
      ensures whole ==> Follows() && sent == old(sent) + if placed then [Place] else []
      ensures Uncut() ==> whole
    {
      hide Uncut;
      if !placed {
        return true;
      }
      whole := Send(Place);
    }

    /** One poll. What it found decides between a record, a loss at the second miss in a row, a failure past
        RECORD_TRIES, and going on; any answer but a miss starts the count of misses again. */
    method Poll(found: Found) returns (r: Result)
      requires Follows()
      modifies this`missing, this`failures, this`lost, this`left
      ensures Follows()
      ensures r.Recorded? <==> found == Record(true)
      ensures r.Failed? <==>
                (found.Unanswered? && old(failures) >= RECORD_TRIES) || (found.NoRecord? && old(missing) >= 1)
      ensures r.Recorded? || r.Failed? || r.Following?
      ensures lost == (old(lost) || (found.NoRecord? && old(missing) >= 1))
      ensures missing == (if found.Unanswered? then old(missing) else if found.NoRecord? then old(missing) + 1 else 0)
      ensures failures == (if found.Unanswered? then old(failures) + 1 else 0)
    {
      match found
      case Unanswered =>
        failures := failures + 1;
        return if failures > RECORD_TRIES then Failed else Following;
      case Held(running) =>
        failures, missing := 0, 0;
        if running && !left {
          left := true;
        }
        return Following;
      case NoRecord =>
        failures, missing := 0, missing + 1;
        if missing > 1 {
          lost := true;
          return Failed;
        }
        return Following;
      case Record(over) =>
        failures, missing := 0, 0;
        return if over then Recorded else Following;
    }

    /** The rounds of a job's watch, up to its record, its loss or a failure. `Following`: the rounds ran out. */
    method Follow(rounds: seq<Round>) returns (r: Result)
      requires Follows() && phase.Pending?
      modifies this
      ensures StageOf(sent) != Broken && Rank(old(phase)) <= Rank(phase) <= Rank(Drawing)
      ensures r.Recorded? ==> Follows() && (phase.Pending? || phase.Drawing?)
      ensures !r.Delivered? && (Uncut() ==> !r.CutOff?)
      ensures r.Recorded? ==>
                (heardStart && heardSuccess && heardOver) || SomeRecord(rounds)
      ensures r.Failed? ==> lost || failures > RECORD_TRIES
    {
      hide Uncut, SomeRecord, TellsAll, HearAll, StageOf;
      var i := 0;
      while i < |rounds|
        invariant 0 <= i <= |rounds| && Follows() && (phase.Pending? || phase.Drawing?)
      {
        var round := rounds[i];
        i := i + 1;
        var whole := TakeNews(round.news);
        if !whole {
          return CutOff;
        }
        if heardStart && heardSuccess && heardOver {
          return Recorded;
        }
        TakeView(round.view);
        if phase.Pending? {
          if left && (!round.vouched || round.graceOver) {
            whole := Start();
          } else if round.placeDue {
            whole := TellPlace();
          }
          if !whole {
            return CutOff;
          }
        }
        if look || round.pollDue {
          look := false;
          r := Poll(round.poll);
          if !r.Following? {
            if r.Recorded? {
              RecordAt(rounds, i - 1);
            }
            return;
          }
        }
      }
      r := Following;
    }

    /** The end of a stream that goes well: `started` if it is still owed, `over`, and then nothing but images.
        `images`: for each, whether it could be read and is a picture. */
    method Deliver(framed: bool, images: seq<bool>) returns (r: Result)
      requires Follows() && (phase.Pending? || phase.Drawing?)
      modifies this
      ensures StageOf(sent) != Broken && phase.Over?
      ensures r.Delivered? ==> StageOf(sent) == Shown(|images|)
      ensures r.Delivered? ==> sent == old(sent) + DeliveryEvents(old(toldStarted), |images|)
      ensures r.Failed? || r.CutOff? || r.Delivered?
      ensures Uncut() ==> (r.Delivered? <==> framed && forall i :: 0 <= i < |images| ==> images[i]) && !r.CutOff?
    {
      hide Uncut, DeliveryEvents, StageOf;
      OneMoreImage(toldStarted, 0);
      phase := Over;
      var whole := Start();
      if !whole {
        return CutOff;
      }
      if !framed {
        return Failed;
      }
      whole := Send(TheOver);
      if !whole {
        return CutOff;
      }
      var i := 0;
      while i < |images|
        invariant 0 <= i <= |images| && StageOf(sent) == Shown(i) && phase.Over?
        invariant forall k :: 0 <= k < i ==> images[k]
        invariant sent == old(sent) + DeliveryEvents(old(toldStarted), i)
      {
        if !images[i] {
          return Failed;
        }
        whole := Send(Image);
        if !whole {
          return CutOff;
        }
        OneMoreImage(old(toldStarted), i);
        i := i + 1;
      }
      r := Delivered;
    }

    /** From its submit to its last event. */
    method Run(taken: bool, startSent: Sent, rounds: seq<Round>, framed: bool, images: seq<bool>) returns (r: Result)
      requires Follows() && phase.Preparing?
      modifies this
      ensures StageOf(sent) != Broken && Rank(old(phase)) <= Rank(phase)
      ensures r.Delivered? ==> phase.Over? && StageOf(sent) == Shown(|images|)
      ensures !r.Recorded? && (Uncut() && startSent.Went? ==> !r.CutOff?)
    {
      hide Uncut;
      phase := Submitting;
      if !taken {
        return Failed;
      }
      phase := Pending;
      if !startSent.Went? {
        return CutOff;
      }
      var whole := Send(Accepted);
      if !whole {
        return CutOff;
      }
      r := Follow(rounds);
      if r.Recorded? {
        r := Deliver(framed, images);
      }
    }
  }
}
