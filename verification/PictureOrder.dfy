/** What the order of a picture's events means, and the check of it that a client of the lane makes (pictures/smoke.py,
    `Course`), which knows nothing of how the gateway keeps it. */
module PictureOrder {

  import opened Wrappers
  import opened PictureJob

  ghost predicate AcceptedFirst(events: seq<Event>) {
    forall i :: 0 <= i < |events| ==> (events[i].Accepted? <==> i == 0)
  }

  ghost predicate StartedOnce(events: seq<Event>) {
    forall i, j :: 0 <= i < j < |events| && events[i].Started? ==> !events[j].Started? && !events[j].Place?
  }

  ghost predicate ThenImages(events: seq<Event>) {
    forall i, j :: 0 <= i < j < |events| && events[i].TheOver? ==> events[j].Image?
  }

  ghost predicate EachAfter(events: seq<Event>, later: Event, earlier: Event) {
    forall j :: 0 <= j < |events| && events[j] == later ==> earlier in events[..j]
  }

  /** The order in words: `accepted` first and once; `started` at most once and no place after it; `over` at most once,
      after `started`, and behind it images alone, which come nowhere else. */
  ghost predicate InOrder(events: seq<Event>) {
    && AcceptedFirst(events) && StartedOnce(events) && ThenImages(events)
    && EachAfter(events, TheOver, Started) && EachAfter(events, Image, TheOver)
  }

  /** What a stage says of the events before it. */
  ghost predicate Says(events: seq<Event>, stage: Stage) {
    match stage
    case Before => events == []
    case Waiting => events != [] && Started !in events && TheOver !in events
    case AtWork => Started in events && TheOver !in events
    case Shown(images) => Started in events && TheOver in events
    case Broken => true
  }

  lemma {:induction false} StagesKeepOrder(events: seq<Event>)
    requires StageOf(events) != Broken
    ensures InOrder(events) && Says(events, StageOf(events))
  {
    if events != [] {
      var n := |events| - 1;
      var before, e := events[..n], events[n];
      assert events == before + [e];
      StagesKeepOrder(before);
      OrderGrows(before, e, StageOf(before));
    }
  }

  lemma OrderGrows(before: seq<Event>, e: Event, stage: Stage)
    requires InOrder(before) && Says(before, stage) && stage != Broken && Then(stage, e) != Broken
    ensures InOrder(before + [e]) && Says(before + [e], Then(stage, e))
  {
    hide AcceptedFirst, StartedOnce, ThenImages, EachAfter;
    assert e in before + [e] && forall x :: x in before + [e] <==> x in before || x == e;
    if e.Accepted? || before != [] {
      AcceptedGrows(before, e);
    }
    if Started !in before || !(e.Started? || e.Place?) {
      StartedGrows(before, e);
    }
    if TheOver !in before || e.Image? {
      ImagesGrow(before, e);
    }
    AfterGrows(before, e, TheOver, Started);
    AfterGrows(before, e, Image, TheOver);
  }

  lemma AcceptedGrows(before: seq<Event>, e: Event)
    requires AcceptedFirst(before) && (e.Accepted? <==> before == [])
    ensures AcceptedFirst(before + [e])
  {
  }

  lemma StartedGrows(before: seq<Event>, e: Event)
    requires StartedOnce(before) && (Started in before ==> !e.Started? && !e.Place?)
    ensures StartedOnce(before + [e])
  {
  }

  lemma ImagesGrow(before: seq<Event>, e: Event)
    requires ThenImages(before) && (TheOver in before ==> e.Image?)
    ensures ThenImages(before + [e])
  {
  }

  lemma AfterGrows(before: seq<Event>, e: Event, later: Event, earlier: Event)
    requires EachAfter(before, later, earlier) && (e == later ==> earlier in before)
    ensures EachAfter(before + [e], later, earlier)
  {
    var events := before + [e];
    forall j | 0 <= j < |events| && events[j] == later
      ensures earlier in events[..j]
    {
      assert events[..j] == before[..j];
      assert before[..|before|] == before;
    }
  }

  /** A delivered job's events: exactly one `started`, then exactly one `over`, then its images and nothing else. */
  lemma {:induction false} DeliveredShape(events: seq<Event>, images: nat)
    requires StageOf(events) == Shown(images)
    ensures images < |events| && events[|events| - 1 - images] == TheOver
    ensures forall i :: |events| - images <= i < |events| ==> events[i] == Image
    ensures StageOf(events[..|events| - 1 - images]) == AtWork
  {
    var n := |events| - 1;
    assert events == events[..n] + [events[n]];
    if images > 0 {
      DeliveredShape(events[..n], images - 1);
      assert events[..n][..n - images] == events[..n - images];
    }
  }

  // ----- The client's check

  const EVENTS: nat := 4096

  /** What one event's data parses to. `formed`: its fields are what the client knows of such an event. */
  datatype Told = Told(event: Event, formed: bool) | AnError | NoEvent | EndOfStream

  datatype Standing = Standing(accepted: bool, started: bool, over: bool, done: bool, images: nat, events: nat)

  const UNSTARTED := Standing(false, false, false, false, 0, 0)

  /** The client's automaton: where it stands after one event more; none is the source's `Failure`. */
  function Check(c: Standing, told: Told): Option<Standing> {
    if c.done || c.events + 1 > EVENTS || told.AnError? || told.NoEvent? then None
    else
      var counted := c.(events := c.events + 1);
      if told.EndOfStream? then if c.over && c.images == 1 then Some(counted.(done := true)) else None
      else if !told.formed then None
      else if told.event.Accepted? then if c.accepted then None else Some(counted.(accepted := true))
      else if !c.accepted then None
      else if told.event.Started? then if c.started || c.over then None else Some(counted.(started := true))
      else if told.event.TheOver? then if !c.started || c.over then None else Some(counted.(over := true))
      else if told.event.Image? then if !c.over || c.images > 0 then None else Some(counted.(images := 1))
      else if c.over then None
      else Some(counted)
  }

  /** The client's object for one stream. */
  class Course {
    var accepted: bool
    var started: bool
    var over: bool
    var done: bool
    var images: nat
    var events: nat

    ghost function View(): Standing
      reads this
    {
      Standing(accepted, started, over, done, images, events)
    }

    constructor ()
      ensures View() == UNSTARTED
    {
      accepted, started, over, done, images, events := false, false, false, false, 0, 0;
    }

    /** Takes an event exactly if the automaton does; whether it was `accepted`, or none for a failure. */
    method Event(told: Told) returns (taken: Option<bool>)
      modifies this
      ensures taken.None? <==> Check(old(View()), told).None?
      ensures taken.Some? ==> Check(old(View()), told) == Some(View())
      ensures taken.Some? ==> (taken.value <==> told.Told? && told.event.Accepted?)
    {
      if done {
        return None;
      }
      events := events + 1;
      if events > EVENTS {
        return None;
      }
      match told
      case EndOfStream =>
        if !over || images != 1 {
          return None;
        }
        done := true;
        return Some(false);
      case AnError => return None;
      case NoEvent => return None;
      case Told(event, formed) =>
        if event.Accepted? {
          if accepted {
            return None;
          }
          accepted := true;
          return if formed then Some(true) else None;
        }
        if !accepted || !formed {
          return None;
        }
        match event {
          case Started =>
            if started || over {
              return None;
            }
            started := true;
          case TheOver =>
            if !started || over {
              return None;
            }
            over := true;
          case Image =>
            if !over || images > 0 {
              return None;
            }
            images := 1;
          case _ =>
            if over {
              return None;
            }
        }
        return Some(false);
    }
  }

  function Checked(told: seq<Told>): Option<Standing> {
    if told == [] then Some(UNSTARTED)
    else
      var before := Checked(told[..|told| - 1]);
      if before.None? then None else Check(before.value, told[|told| - 1])
  }

  function AsTold(events: seq<Event>): (told: seq<Told>)
    ensures |told| == |events|
  {
    seq(|events|, i requires 0 <= i < |events| => Told(events[i], true))
  }

  /** Where the client stands at a stage of the stream. */
  ghost predicate Stands(c: Standing, stage: Stage, events: nat) {
    && !c.done && c.events == events
    && match stage
       case Before => c == UNSTARTED
       case Waiting => c.accepted && !c.started && !c.over && c.images == 0
       case AtWork => c.accepted && c.started && !c.over && c.images == 0
       case Shown(images) => c.accepted && c.started && c.over && c.images == images
       case Broken => false
  }

  lemma {:induction false} CourseFollows(events: seq<Event>)
    requires StageOf(events) != Broken && |events| <= EVENTS && (StageOf(events).Shown? ==> StageOf(events).images <= 1)
    ensures Checked(AsTold(events)).Some? && Stands(Checked(AsTold(events)).value, StageOf(events), |events|)
  {
    if events != [] {
      var n := |events| - 1;
      assert AsTold(events)[..n] == AsTold(events[..n]);
      CourseFollows(events[..n]);
    }
  }

  /** A second image is one too many for the client. */
  lemma {:induction false} SecondImageFails(events: seq<Event>)
    requires StageOf(events).Shown? && StageOf(events).images >= 2
    ensures Checked(AsTold(events)).None?
  {
    var n := |events| - 1;
    assert AsTold(events)[..n] == AsTold(events[..n]);
    if StageOf(events).images > 2 {
      SecondImageFails(events[..n]);
    } else if |events[..n]| <= EVENTS {
      CourseFollows(events[..n]);
    } else {
      TooManyFail(events[..n]);
    }
  }

  lemma {:induction false} TooManyFail(events: seq<Event>)
    requires |events| > EVENTS
    ensures Checked(AsTold(events)).None?
  {
    var n := |events| - 1;
    assert AsTold(events)[..n] == AsTold(events[..n]);
    if n > EVENTS {
      TooManyFail(events[..n]);
    } else {
      CountsEvents(events[..n]);
    }
  }

  lemma {:induction false} CountsEvents(events: seq<Event>)
    ensures Checked(AsTold(events)).Some? ==> Checked(AsTold(events)).value.events == |events|
  {
    if events != [] {
      assert AsTold(events)[..|events| - 1] == AsTold(events[..|events| - 1]);
      CountsEvents(events[..|events| - 1]);
    }
  }

  /** Exactly which finished streams of the gateway the client passes: those with one image, within its bound of
      events. */
  lemma FinishedPasses(events: seq<Event>, images: nat)
    requires StageOf(events) == Shown(images)
    ensures Checked(AsTold(events) + [EndOfStream]).Some? <==> images == 1 && |events| + 1 <= EVENTS
  {
    var told := AsTold(events) + [EndOfStream];
    assert told[..|events|] == AsTold(events);
    if |events| > EVENTS {
      TooManyFail(events);
    } else if images >= 2 {
      SecondImageFails(events);
    } else {
      CourseFollows(events);
    }
  }
}
