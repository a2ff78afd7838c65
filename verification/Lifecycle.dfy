/** The text gateway's service as it keeps its state: one object that every request, timer and control route changes in
    place, over the places of Admission.dfy. There is a method for every event of Gateway.dfy, whose step is proved to
    be the machine's, and any list of events brings the object to the state of the machine's run (`AfterRun`): what is
    proved of every run of the machine holds of the service. */
module Lifecycle {

  import opened Wrappers
  import opened PlaceRules
  import CountRules
  import opened Gateway
  import Admission

  ghost function TagsOf(held: map<Id, Admission.Ticket>): (tags: map<Id, Tag>)
    ensures tags.Keys == held.Keys && forall id :: id in held ==> tags[id] == held[id].Tag()
  {
    map id | id in held :: held[id].Tag()
  }

  lemma TagsWithout(held: map<Id, Admission.Ticket>, id: Id)
    ensures TagsOf(held - {id}) == TagsOf(held) - {id}
  {
  }

  lemma TagsWith(held: map<Id, Admission.Ticket>, id: Id, t: Admission.Ticket)
    ensures TagsOf(held[id := t]) == TagsOf(held)[id := t.Tag()]
  {
  }

  class Service {
    const cfg: Config
    const admission: Admission.Admission
    const countPlaces: Admission.CountPlaces
    var work: map<Id, Work>
    var countTickets: map<Id, Admission.Ticket>
    var tickets: map<Id, Admission.Ticket>
    var draining: bool
    var drainGeneration: nat
    var deadline: Option<nat>
    var sleepRequested: bool
    var noWork: bool
    var sleeper: Sleeper
    var now: nat
    var engineStatus: EngineStatus
    var engineChanged: bool

    ghost predicate Valid()
      reads this, admission, admission.line, admission.tickets, countPlaces, countPlaces.line, countPlaces.tickets
    {
      && admission.Valid() && countPlaces.Valid() && admission.cfg == cfg && countPlaces.cfg == cfg
      && admission.line != countPlaces.line && admission.tickets !! countPlaces.tickets
      && (forall id :: id in tickets ==> tickets[id] in admission.tickets)
      && (forall id :: id in countTickets ==> countTickets[id] in countPlaces.tickets)
    }

    ghost function View(): State
      reads this, admission, countPlaces
    {
      State(work, countPlaces.spec, countPlaces.next, TagsOf(countTickets),
            admission.spec, admission.next, TagsOf(tickets),
            draining, drainGeneration, deadline, sleepRequested, noWork, sleeper, now, engineStatus, engineChanged)
    }

    /** What a step may change. */
    ghost function Owned(): set<object>
      reads this, admission, countPlaces
    {
      {this, admission, admission.line, countPlaces, countPlaces.line} + admission.tickets + countPlaces.tickets
    }

    constructor (cfg: Config)
      ensures Valid() && this.cfg == cfg && View() == INITIAL && fresh(Owned())
    {
      hide Admission.Admission.Valid, Admission.CountPlaces.Valid, TagsOf;
      this.cfg := cfg;
      admission := new Admission.Admission(cfg);
      countPlaces := new Admission.CountPlaces(cfg);
      work, countTickets, tickets := map[], map[], map[];
      draining, drainGeneration, deadline, sleepRequested, noWork := false, 0, None, false, true;
      sleeper, now, engineStatus, engineChanged := NoSleep, 0, EngineStarting, false;
      new;
      assert TagsOf(tickets) == map[] && TagsOf(countTickets) == map[];
    }

    method LeavePlace(id: Id)
      requires Valid()
      modifies this`tickets, admission, admission.line, admission.tickets
      ensures Valid() && View() == Gateway.LeavePlace(cfg, old(View()), id)
      ensures admission.tickets == old(admission.tickets)
    {
      hide Admission.Admission.Valid, Admission.CountPlaces.Valid, PlaceRules.Leave, CountRules.Leave, TagsOf;
      if id in tickets {
        TagsWithout(tickets, id);
        admission.Leave(tickets[id]);
        tickets := tickets - {id};
      }
    }

    method LeaveCount(id: Id)
      requires Valid()
      modifies this`countTickets, countPlaces, countPlaces.line, countPlaces.tickets
      ensures Valid() && View() == Gateway.LeaveCount(cfg, old(View()), id)
      ensures countPlaces.tickets == old(countPlaces.tickets)
    {
      hide Admission.Admission.Valid, Admission.CountPlaces.Valid, PlaceRules.Leave, CountRules.Leave, TagsOf;
      if id in countTickets {
        TagsWithout(countTickets, id);
        countPlaces.Leave(countTickets[id]);
        countTickets := countTickets - {id};
      }
    }

    method EndTask(id: Id)
      requires Valid() && id in work
      modifies this`work, this`countTickets, countPlaces, countPlaces.line, countPlaces.tickets
      ensures Valid() && View() == Gateway.EndTask(cfg, old(View()), id)
      ensures countPlaces.tickets == old(countPlaces.tickets)
    {
      hide Admission.Admission.Valid, Admission.CountPlaces.Valid, PlaceRules.Leave, CountRules.Leave, TagsOf;
      LeaveCount(id);
      work := work[id := work[id].(phase := Ended)];
    }

    method Release(id: Id)
      requires Valid()
      modifies this`work, this`noWork, this`sleeper
      ensures Valid() && View() == Gateway.Release(old(View()), id)
    {
      hide Admission.Admission.Valid, Admission.CountPlaces.Valid, PlaceRules.Leave, CountRules.Leave, TagsOf;
      work := work - {id};
      if work == map[] {
        noWork := true;
        if sleeper.Waits? {
          sleeper := Wakes;
        }
      }
    }

    // ----- The task

    /** A request is counted in a count place: at once, when its turn comes, or not at all past its key's cap. */
    method EnterCount(id: Id)
      requires Valid() && id in work
      modifies this`work, this`countTickets, countPlaces, countPlaces.line, countPlaces.tickets
      ensures Valid() && View() == Gateway.EnterCount(cfg, old(View()), id)
      ensures fresh(countPlaces.tickets - old(countPlaces.tickets))
    {
      hide Admission.Admission.Valid, Admission.CountPlaces.Valid, CountRules.Enter, Gateway.EndTask, TagsOf;
      var ticket := countPlaces.Enter(work[id].cls, work[id].owner);
      if ticket.None? {
        EndTask(id);
      } else {
        TagsWith(countTickets, id, ticket.value);
        countTickets := countTickets[id := ticket.value];
        countPlaces.StateOf(ticket.value);
        work := work[id := work[id].(phase := if ticket.value.state == Admission.Active then Counting else CountWait)];
      }
    }

    /** The task runs for the first time, if no stop has come before it. */
    method Begin(id: Id)
      requires Valid()
      modifies this`work, this`countTickets, countPlaces, countPlaces.line, countPlaces.tickets
      ensures Valid() && View() == Next(cfg, old(View()), Start(id))
      ensures fresh(countPlaces.tickets - old(countPlaces.tickets))
    {
      hide Admission.Admission.Valid, Admission.CountPlaces.Valid, TagsOf, Gateway.EnterCount;
      if id in work && work[id].phase == Created && work[id].stop.None? {
        EnterCount(id);
      }
    }

    /** A counted generation asks for its place. */
    method EnterPlace(id: Id)
      requires Valid() && id in work
      modifies this, admission, admission.line, admission.tickets, countPlaces, countPlaces.line, countPlaces.tickets
      ensures Valid() && View() == Gateway.EnterPlace(cfg, old(View()), id)
      ensures fresh(admission.tickets - old(admission.tickets))
      ensures countPlaces.tickets == old(countPlaces.tickets)
    {
      hide Admission.Admission.Valid, Admission.CountPlaces.Valid, TagsOf, PlaceRules.Enter, Gateway.EndTask;
      var ticket := admission.Enter(work[id].cls, work[id].owner);
      if ticket.None? {
        EndTask(id);
      } else {
        TagsWith(tickets, id, ticket.value);
        tickets := tickets[id := ticket.value];
        admission.StateOf(ticket.value);
        work := work[id := work[id].(phase := if ticket.value.state == Admission.Active then Starting else GenWait)];
      }
    }

    method CountAnswers(id: Id, ok: bool, fits: bool)
      requires Valid()
      modifies this, admission, admission.line, admission.tickets, countPlaces, countPlaces.line, countPlaces.tickets
      ensures Valid() && View() == Next(cfg, old(View()), CountAnswered(id, ok, fits))
      ensures fresh(admission.tickets - old(admission.tickets))
      ensures countPlaces.tickets == old(countPlaces.tickets)
    {
      hide Admission.Admission.Valid, Admission.CountPlaces.Valid, TagsOf, Gateway.EnterPlace, Gateway.LeaveCount,
           Gateway.EndTask;
      if id !in work || work[id].phase != Counting || work[id].stop.Some? {
        return;
      }
      if !ok || !fits || work[id].kind == Count {
        EndTask(id);
      } else {
        LeaveCount(id);
        EnterPlace(id);
      }
    }

    /** Reads the ticket's own state, and finds what `Gateway.Active` finds in the pools. */
    method IsActive(id: Id) returns (active: bool)
      requires Valid() && id in work
      ensures active == Active(View(), id)
    {
      hide Admission.Admission.Valid, Admission.CountPlaces.Valid, TagsOf;
      if work[id].kind == Count {
        active := false;
        if id in countTickets {
          countPlaces.StateOf(countTickets[id]);
          active := countTickets[id].state == Admission.Active;
        }
      } else {
        active := false;
        if id in tickets {
          admission.StateOf(tickets[id]);
          active := tickets[id].state == Admission.Active;
        }
      }
    }

    method CountIsGranted(id: Id)
      requires Valid()
      modifies this`work
      ensures Valid() && View() == Next(cfg, old(View()), CountGranted(id))
    {
      hide Admission.Admission.Valid, Admission.CountPlaces.Valid, TagsOf;
      if id in work && work[id].phase == CountWait && work[id].stop.None? && id in countTickets {
        countPlaces.StateOf(countTickets[id]);
        if countTickets[id].state == Admission.Active {
          work := work[id := work[id].(phase := Counting)];
        }
      }
    }

    method PlaceIsGranted(id: Id)
      requires Valid()
      modifies this`work
      ensures Valid() && View() == Next(cfg, old(View()), PlaceGranted(id))
    {
      hide Admission.Admission.Valid, Admission.CountPlaces.Valid, TagsOf;
      if id in work && work[id].phase == GenWait && work[id].stop.None? && id in tickets {
        admission.StateOf(tickets[id]);
        if tickets[id].state == Admission.Active {
          work := work[id := work[id].(phase := Starting)];
        }
      }
    }

    method EngineAnswersGeneration(id: Id, ok: bool)
      requires Valid()
      modifies this`work, this`countTickets, countPlaces, countPlaces.line, countPlaces.tickets
      ensures Valid() && View() == Next(cfg, old(View()), EngineAnswered(id, ok))
      ensures countPlaces.tickets == old(countPlaces.tickets)
    {
      hide Admission.Admission.Valid, Admission.CountPlaces.Valid, TagsOf, Gateway.EndTask;
      if id in work && work[id].phase == Starting && work[id].stop.None? {
        if ok {
          work := work[id := work[id].(phase := Streaming, streams := true)];
        } else {
          EndTask(id);
        }
      }
    }

    /** The engine's stream ends, well or not, and the task with it; the stream is not closed yet. */
    method StreamEnds(id: Id)
      requires Valid()
      modifies this`work, this`countTickets, countPlaces, countPlaces.line, countPlaces.tickets
      ensures Valid() && View() == Next(cfg, old(View()), StreamEnded(id))
      ensures countPlaces.tickets == old(countPlaces.tickets)
    {
      hide Admission.Admission.Valid, Admission.CountPlaces.Valid, TagsOf, Gateway.EndTask;
      if id in work && work[id].phase == Streaming && work[id].stop.None? {
        EndTask(id);
      }
    }

    /** The cancel of a stopped work reaches its task. */
    method CancelReaches(id: Id)
      requires Valid()
      modifies this`work, this`countTickets, countPlaces, countPlaces.line, countPlaces.tickets
      ensures Valid() && View() == Next(cfg, old(View()), CancelLands(id))
      ensures countPlaces.tickets == old(countPlaces.tickets)
    {
      hide Admission.Admission.Valid, Admission.CountPlaces.Valid, TagsOf, Gateway.EndTask;
      if id in work && work[id].phase.TaskRuns() && work[id].stop.Some? {
        EndTask(id);
      }
    }

    // ----- Stops

    /** The machine's `Stop`: the first reason stays, and no stopped generation is left in the line. */
    method Stop(id: Id, reason: Reason)
      requires Valid()
      modifies this`work, this`tickets, admission, admission.line, admission.tickets
      ensures Valid() && View() == Gateway.Stop(cfg, old(View()), id, reason)
      ensures admission.tickets == old(admission.tickets)
    {
      hide Admission.Admission.Valid, Admission.CountPlaces.Valid, TagsOf, Gateway.LeavePlace;
      if id !in work || work[id].stop.Some? {
        return;
      }
      work := work[id := work[id].(stop := Some(reason))];
      if work[id].phase.TaskRuns() && id in tickets {
        admission.StateOf(tickets[id]);
        if tickets[id].state == Admission.Waiting {
          LeavePlace(id);
        }
      }
    }

    method StopAll(order: seq<Id>, reason: Reason)
      requires Valid()
      modifies this`work, this`tickets, admission, admission.line, admission.tickets
      ensures Valid() && View() == Gateway.StopAll(cfg, old(View()), order, reason)
      ensures admission.tickets == old(admission.tickets)
    {
      hide Admission.Admission.Valid, Admission.CountPlaces.Valid, TagsOf, Gateway.Stop;
      var i := 0;
      while i < |order|
        invariant 0 <= i <= |order| && Valid() && admission.tickets == old(admission.tickets)
        invariant Gateway.StopAll(cfg, View(), order[i..], reason) == Gateway.StopAll(cfg, old(View()), order, reason)
      {
        assert order[i..][0] == order[i] && order[i..][1..] == order[i + 1..];
        Stop(order[i], reason);
        i := i + 1;
      }
    }

    /** A drain stops a work that waits, and an outside one. */
    method CloseOne(id: Id)
      requires Valid()
      modifies this`work, this`tickets, admission, admission.line, admission.tickets
      ensures Valid() && admission.tickets == old(admission.tickets)
      ensures var s := old(View());
              View() == if id in s.works && (IsWaiting(s, id) || Outside(s.works[id]))
                        then Gateway.Stop(cfg, s, id, Draining) else s
    {
      hide Admission.Admission.Valid, Admission.CountPlaces.Valid, TagsOf, Gateway.Stop;
      if id in work {
        var active := IsActive(id);
        if (work[id].phase.TaskRuns() && !active) || work[id].owner.Some? {
          Stop(id, Draining);
        }
      }
    }

    /** The machine's `Close`: the loop may meet the work in any order, and a drain that is on is left as it is. */
    method Close(order: seq<Id>)
      requires Valid()
      modifies this`work, this`tickets, this`draining, this`drainGeneration, this`deadline,
               admission, admission.line, admission.tickets
      ensures Valid() && View() == Gateway.Close(cfg, old(View()), order)
      ensures admission.tickets == old(admission.tickets)
    {
      hide Admission.Admission.Valid, Admission.CountPlaces.Valid, TagsOf, Gateway.Stop, IsWaiting, Outside;
      if draining {
        return;
      }
      draining, drainGeneration := true, drainGeneration + 1;
      ghost var begun := View();
      var i := 0;
      while i < |order|
        invariant 0 <= i <= |order| && Valid() && admission.tickets == old(admission.tickets)
        invariant draining && drainGeneration == begun.generation && deadline == begun.deadline
        invariant CloseLoop(cfg, View(), order[i..]) == CloseLoop(cfg, begun, order)
      {
        assert order[i..][0] == order[i] && order[i..][1..] == order[i + 1..];
        CloseOne(order[i]);
        i := i + 1;
      }
      deadline := Some(drainGeneration);
    }

    // ----- The service's own steps

    /** The machine's `Accept`, in place: while the service does not serve, nothing changes. */
    method Accept(id: Id, kind: Kind, cls: Class, owner: Option<Key>)
      requires Valid() && id !in work
      modifies this`work, this`noWork
      ensures Valid() && View() == Next(cfg, old(View()), Event.Accept(id, kind, cls, owner))
    {
      hide Admission.Admission.Valid, Admission.CountPlaces.Valid, TagsOf;
      if draining || !engineStatus.EngineReady? {
        return;
      }
      work := work[id := Work(kind, cls, owner, Created, None, false, false)];
      noWork := false;
    }

    method Drain(order: seq<Id>)
      requires Valid() && Lists(order, work)
      modifies this`work, this`tickets, this`draining, this`drainGeneration, this`deadline,
               admission, admission.line, admission.tickets
      ensures Valid() && View() == Next(cfg, old(View()), Event.Drain(order))
      ensures admission.tickets == old(admission.tickets)
    {
      hide Admission.Admission.Valid, Admission.CountPlaces.Valid, TagsOf, Gateway.Close, Lists;
      Close(order);
    }

    lemma SleepIs(s: State, order: seq<Id>)
      requires !s.sleepRequested && Lists(order, s.works)
      ensures var closed, r := Gateway.Close(cfg, s, order), Next(cfg, s, Event.Sleep(order));
              r == closed.(sleepRequested := true, sleeper := if closed.noWork then Wakes else Waits(s.now))
    {
      hide Gateway.StopAll, Gateway.Close, Lists;
    }

    /** The first sleep closes the service and starts its wait; any later one leaves the state as it is. */
    method Sleep(order: seq<Id>)
      requires Valid() && Lists(order, work)
      modifies this`work, this`tickets, this`draining, this`drainGeneration, this`deadline, this`sleepRequested,
               this`sleeper, admission, admission.line, admission.tickets
      ensures Valid() && View() == Next(cfg, old(View()), Event.Sleep(order))
      ensures admission.tickets == old(admission.tickets)
    {
      hide Admission.Admission.Valid, Admission.CountPlaces.Valid, TagsOf, Gateway.Close, Lists;
      if sleepRequested {
        return;
      }
      hide Next;
      SleepIs(View(), order);
      sleepRequested := true;
      Close(order);
      sleeper := if noWork then Wakes else Waits(now);
      CloseApart(cfg, old(View()), order);
    }

    /** An open ends only the drain it names, and none once a sleep was asked for. */
    method Open(generation: nat) returns (done: bool)
      requires Valid()
      modifies this`draining, this`deadline
      ensures Valid() && View() == Next(cfg, old(View()), Event.Open(generation))
      ensures done <==> !sleepRequested && generation == drainGeneration
    {
      hide Admission.Admission.Valid, Admission.CountPlaces.Valid, TagsOf;
      if sleepRequested || generation != drainGeneration {
        return false;
      }
      draining, deadline := false, None;
      return true;
    }

    method DrainDeadline(order: seq<Id>)
      requires Valid() && Lists(order, work) && deadline.Some?
      modifies this`work, this`tickets, this`deadline, admission, admission.line, admission.tickets
      ensures Valid() && View() == Next(cfg, old(View()), DeadlineFires(order))
      ensures admission.tickets == old(admission.tickets)
    {
      hide Admission.Admission.Valid, Admission.CountPlaces.Valid, TagsOf, Gateway.EndTask, Gateway.EnterCount,
           Gateway.EnterPlace, Gateway.LeaveCount, Cleaned,
           Gateway.Release, Gateway.Stop, Gateway.StopAll, Gateway.Close, Lists;
      deadline := None;
      StopAll(order, Draining);
    }

    lemma ChangeIs(s: State, order: seq<Id>)
      requires !s.engineChanged && Lists(order, s.works)
      ensures Next(cfg, s, EngineChanges(order))
           == Gateway.StopAll(cfg, s.(engineChanged := true, engine := EngineFailed), order, EngineChanged)
    {
      hide Gateway.StopAll, Gateway.Close, Lists;
    }

    method EngineIsAnother(order: seq<Id>)
      requires Valid() && Lists(order, work)
      modifies this`work, this`tickets, this`engineChanged, this`engineStatus,
               admission, admission.line, admission.tickets
      ensures Valid() && View() == Next(cfg, old(View()), EngineChanges(order))
      ensures admission.tickets == old(admission.tickets)
    {
      hide Admission.Admission.Valid, Admission.CountPlaces.Valid, TagsOf, Gateway.StopAll, Lists;
      if engineChanged {
        return;
      }
      hide Next;
      ChangeIs(View(), order);
      engineChanged, engineStatus := true, EngineFailed;
      StopAll(order, EngineChanged);
    }

    /** A check finds the engine this boot verified. */
    method EngineIsReady()
      requires Valid()
      modifies this`engineStatus, this`engineChanged
      ensures Valid() && View() == Next(cfg, old(View()), EngineAnswers)
    {
      hide Admission.Admission.Valid, Admission.CountPlaces.Valid, TagsOf;
      engineStatus, engineChanged := EngineReady, false;
    }

    /** A check fails: only a ready service becomes a failed one. */
    method CheckFails()
      requires Valid()
      modifies this`engineStatus
      ensures Valid() && View() == Next(cfg, old(View()), EngineFails)
    {
      hide Admission.Admission.Valid, Admission.CountPlaces.Valid, TagsOf;
      if engineStatus == EngineReady {
        engineStatus := EngineFailed;
      }
    }

    method TimePasses()
      requires Valid()
      modifies this`now
      ensures Valid() && View() == Next(cfg, old(View()), Tick)
    {
      hide Admission.Admission.Valid, Admission.CountPlaces.Valid, TagsOf;
      now := now + 1;
    }

    /** The sleep's task goes on to stop the instance: woken by the end of all work, or after its own time. */
    method SleeperGoesOn()
      requires Valid()
      modifies this`sleeper
      ensures Valid() && View() == Next(cfg, old(View()), SleeperResumes)
    {
      hide Admission.Admission.Valid, Admission.CountPlaces.Valid, TagsOf;
      match sleeper {
        case Wakes => sleeper := Stops(false);
        case Waits(since) =>
          if now >= since + FORCED_STOP_S {
            sleeper := Stops(true);
          }
        case _ =>
      }
    }

    // ----- The handler

    /** The task is done: the handler closes the engine's stream, if there is one, and else cleans up at once. */
    method HandlerWakes(id: Id)
      requires Valid()
      modifies this`work, this`tickets, this`noWork, this`sleeper, admission, admission.line, admission.tickets
      ensures Valid() && View() == Next(cfg, old(View()), Wake(id))
      ensures admission.tickets == old(admission.tickets)
    {
      hide Admission.Admission.Valid, Admission.CountPlaces.Valid, TagsOf, Cleaned;
      if id !in work || work[id].phase != Ended {
        return;
      }
      if work[id].streams {
        work := work[id := work[id].(phase := Closing)];
      } else {
        CleanUp(id);
      }
    }

    method StreamIsClosed(id: Id)
      requires Valid()
      modifies this`work, this`tickets, this`noWork, this`sleeper, admission, admission.line, admission.tickets
      ensures Valid() && View() == Next(cfg, old(View()), Closed(id))
      ensures admission.tickets == old(admission.tickets)
    {
      hide Admission.Admission.Valid, Admission.CountPlaces.Valid, TagsOf, Cleaned;
      if id in work && work[id].phase == Closing {
        CleanUp(id);
      }
    }

    /** The terminal message is sent, or given up: the work has answered. */
    method HasAnswered(id: Id)
      requires Valid()
      modifies this`work, this`noWork, this`sleeper
      ensures Valid() && View() == Next(cfg, old(View()), Answered(id))
    {
      hide Admission.Admission.Valid, Admission.CountPlaces.Valid, TagsOf, Gateway.Release;
      if id in work && work[id].phase == Answering {
        Release(id);
      }
    }

    /** After the task: the engine's stream is closed, and then the place is free. */
    method CleanUp(id: Id)
      requires Valid() && id in work
      modifies this`work, this`tickets, this`noWork, this`sleeper, admission, admission.line, admission.tickets
      ensures Valid() && View() == Cleaned(cfg, old(View()), id)
      ensures admission.tickets == old(admission.tickets)
    {
      hide Admission.Admission.Valid, Admission.CountPlaces.Valid, TagsOf, Gateway.LeavePlace, Gateway.Release;
      var leaving := work[id].leaving;
      work := work[id := work[id].(phase := Answering, streams := false)];
      LeavePlace(id);
      if leaving {
        Release(id);
      }
    }

    /** The server shuts down and cancels the request's handler. */
    method CancelHandler(id: Id)
      requires Valid() && id in work
      modifies this`work, this`tickets, this`noWork, this`sleeper, admission, admission.line, admission.tickets
      ensures Valid() && View() == Next(cfg, old(View()), HandlerCancelled(id))
      ensures admission.tickets == old(admission.tickets)
    {
      hide Admission.Admission.Valid, Admission.CountPlaces.Valid, TagsOf, Cleaned, Gateway.Stop, Gateway.Release;
      if work[id].leaving {
        return;
      }
      match work[id].phase {
        case Answering => Release(id);
        case Closing =>
          work := work[id := work[id].(leaving := true)];
          CleanUp(id);
        case Ended => work := work[id := work[id].(leaving := true)];
        case _ =>
          work := work[id := work[id].(leaving := true)];
          Stop(id, Shutdown);
      }
    }

    // ----- Any event

    method StepOfTask(e: Event)
      requires Valid() && OfTask(e)
      modifies Owned()
      ensures Valid() && View() == Next(cfg, old(View()), e) && fresh(Owned() - old(Owned()))
    {
      hide Admission.Admission.Valid, Admission.CountPlaces.Valid, TagsOf, Next;
      match e
      case Start(id) => Begin(id);
      case CountGranted(id) => CountIsGranted(id);
      case CountAnswered(id, ok, fits) => CountAnswers(id, ok, fits);
      case PlaceGranted(id) => PlaceIsGranted(id);
      case EngineAnswered(id, ok) => EngineAnswersGeneration(id, ok);
      case StreamEnded(id) => StreamEnds(id);
      case CancelLands(id) => CancelReaches(id);
    }

    method StepOfHandler(e: Event)
      requires Valid() && OfHandler(e)
      modifies Owned()
      ensures Valid() && View() == Next(cfg, old(View()), e) && fresh(Owned() - old(Owned()))
    {
      hide Admission.Admission.Valid, Admission.CountPlaces.Valid, TagsOf, Next, Gateway.Stop;
      Ignored(cfg, View(), e);
      match e {
        case Accept(id, kind, cls, owner) =>
          if id !in work {
            Accept(id, kind, cls, owner);
          }
        case Wake(id) => HandlerWakes(id);
        case Closed(id) => StreamIsClosed(id);
        case Answered(id) => HasAnswered(id);
        case HandlerCancelled(id) =>
          if id in work {
            CancelHandler(id);
          }
        case StopOne(id, reason) => Stop(id, reason);
      }
    }

    method StepOfService(e: Event)
      requires Valid() && !OfTask(e) && !OfHandler(e)
      modifies Owned()
      ensures Valid() && View() == Next(cfg, old(View()), e) && fresh(Owned() - old(Owned()))
    {
      hide Admission.Admission.Valid, Admission.CountPlaces.Valid, TagsOf, Next, Lists;
      Ignored(cfg, View(), e);
      match e {
        case Drain(order) =>
          if Lists(order, work) {
            Drain(order);
          }
        case Sleep(order) =>
          if Lists(order, work) {
            Sleep(order);
          }
        case Open(generation) => var _ := Open(generation);
        case DeadlineFires(order) =>
          if deadline.Some? && Lists(order, work) {
            DrainDeadline(order);
          }
        case EngineAnswers => EngineIsReady();
        case EngineFails => CheckFails();
        case EngineChanges(order) =>
          if Lists(order, work) {
            EngineIsAnother(order);
          }
        case Tick => TimePasses();
        case SleeperResumes => SleeperGoesOn();
      }
    }

    /** Whatever the event, the object takes the machine's step. */
    method Step(e: Event)
      requires Valid()
      modifies Owned()
      ensures Valid() && View() == Next(cfg, old(View()), e) && fresh(Owned() - old(Owned()))
    {
      hide *;
      if OfTask(e) {
        StepOfTask(e);
      } else if OfHandler(e) {
        StepOfHandler(e);
      } else {
        StepOfService(e);
      }
    }
  }

  predicate OfTask(e: Event) {
    e.Start? || e.CountGranted? || e.CountAnswered? || e.PlaceGranted? || e.EngineAnswered? || e.StreamEnded?
    || e.CancelLands?
  }

  predicate OfHandler(e: Event) {
    e.Accept? || e.Wake? || e.Closed? || e.Answered? || e.HandlerCancelled? || e.StopOne?
  }

  /** The events that a state leaves as they find it before any of the object's own branches, and a stop, whose step has
      a name. */
  lemma Ignored(cfg: Config, s: State, e: Event)
    ensures e.Accept? && e.id in s.works ==> Next(cfg, s, e) == s
    ensures e.HandlerCancelled? && e.id !in s.works ==> Next(cfg, s, e) == s
    ensures (e.Drain? || e.Sleep? || e.DeadlineFires? || e.EngineChanges?) && !Lists(e.order, s.works) ==>
              Next(cfg, s, e) == s
    ensures e.DeadlineFires? && s.deadline.None? ==> Next(cfg, s, e) == s
    ensures e.StopOne? ==> Next(cfg, s, e) == Gateway.Stop(cfg, s, e.id, e.reason)
  {
    hide Lists, Gateway.Stop, Gateway.StopAll, Gateway.Close, Cleaned;
  }

  /** The service after any list of events is where the machine is. */
  method AfterRun(cfg: Config, events: seq<Event>) returns (service: Service)
    ensures fresh(service) && service.Valid() && service.View() == Gateway.Run(cfg, events)
  {
    hide Next, Service.Valid, Service.View;
    service := new Service(cfg);
    var i := 0;
    while i < |events|
      invariant 0 <= i <= |events| && fresh(service.Owned()) && service.cfg == cfg && service.Valid()
      invariant service.View() == Gateway.Run(cfg, events[..i])
    {
      assert events[..i + 1][..i] == events[..i];
      service.Step(events[i]);
      i := i + 1;
    }
    assert events[..i] == events;
  }

  /** A close does not read whether a sleep was asked for. */
  lemma CloseApart(cfg: Config, s: State, order: seq<Id>)
    ensures Gateway.Close(cfg, s.(sleepRequested := true), order)
         == Gateway.Close(cfg, s, order).(sleepRequested := true)
    ensures Gateway.Close(cfg, s, order).now == s.now
  {
    if !s.draining {
      LoopApart(cfg, s.(draining := true, generation := s.generation + 1), order);
    }
  }

  lemma {:induction false} LoopApart(cfg: Config, s: State, order: seq<Id>)
    ensures CloseLoop(cfg, s.(sleepRequested := true), order) == CloseLoop(cfg, s, order).(sleepRequested := true)
    ensures CloseLoop(cfg, s, order).now == s.now
    decreases |order|
  {
    hide Gateway.Stop;
    if order != [] {
      var id := order[0];
      StopApart(cfg, s, id, Draining);
      var stop := id in s.works && (IsWaiting(s, id) || Outside(s.works[id]));
      LoopApart(cfg, if stop then Gateway.Stop(cfg, s, id, Draining) else s, order[1..]);
    }
  }

  lemma StopApart(cfg: Config, s: State, id: Id, reason: Reason)
    ensures Gateway.Stop(cfg, s.(sleepRequested := true), id, reason)
         == Gateway.Stop(cfg, s, id, reason).(sleepRequested := true)
    ensures Gateway.Stop(cfg, s, id, reason).now == s.now
  {
    hide Gateway.LeavePlace;
    if id in s.works {
      LeaveApart(cfg, s.(works := s.works[id := s.works[id].(stop := Some(reason))]), id);
    }
  }

  lemma LeaveApart(cfg: Config, s: State, id: Id)
    ensures Gateway.LeavePlace(cfg, s.(sleepRequested := true), id)
         == Gateway.LeavePlace(cfg, s, id).(sleepRequested := true)
    ensures Gateway.LeavePlace(cfg, s, id).now == s.now
  {
    hide PlaceRules.Leave;
  }
}
