/** What the gateway promises of every run: a drain only lets work end, the engine never has more than the caps allow,
    and drains, opens and the sleep follow one another in order. */
module GatewayTheorems {

  import opened Wrappers
  import opened PlaceRules
  import CountRules
  import opened Gateway
  import opened GatewayProofs

  // ----- What a drain stops

  /** Whether a drain that begins in `s` stops the work. */
  predicate DrainStops(s: State, id: Id)
    requires id in s.works
  {
    s.works[id].stop.None? && (IsWaiting(s, id) || Outside(s.works[id]))
  }

  lemma StopIsOne(cfg: Config, s: State, id: Id, reason: Reason, j: Id)
    requires Core(cfg, s) && id in s.works && j in s.works
    ensures var m := Stop(cfg, s, id, reason);
            && j in m.works
            && m.works[j].stop == (if j == id && s.works[j].stop.None? then Some(reason) else s.works[j].stop)
            && (m.works[j].stop.None? ==> DrainStops(m, j) == DrainStops(s, j))
  {
    hide Core, DrainStops;
    StopKeeps(cfg, s, id, reason);
    StopOthers(cfg, s, id, reason, j);
    if Stop(cfg, s, id, reason).works[j].stop.None? {
      SameForDrain(s, Stop(cfg, s, id, reason), j);
    }
  }

  lemma PoolsApart(cfg: Config, s: State, id: Id)
    ensures LeaveCount(cfg, s, id).works == s.works && LeavePlace(cfg, s, id).works == s.works
  {
    hide PlaceRules.Leave, CountRules.Leave;
  }

  lemma StopOthers(cfg: Config, s: State, id: Id, reason: Reason, j: Id)
    requires id in s.works && j in s.works
    ensures j in Stop(cfg, s, id, reason).works
    ensures Stop(cfg, s, id, reason).works[j].stop
         == if j == id && s.works[j].stop.None? then Some(reason) else s.works[j].stop
  {
    hide LeavePlace;
    PoolsApart(cfg, s.(works := s.works[id := s.works[id].(stop := Some(reason))]), id);
  }

  lemma SameForDrain(s: State, m: State, j: Id)
    requires OnlyStops(s, m) && j in s.works && m.works[j].stop.None?
    ensures DrainStops(m, j) == DrainStops(s, j)
  {
    hide SameLife;
  }

  lemma {:induction false} LoopStopsExactly(cfg: Config, s: State, order: seq<Id>, id: Id)
    requires Core(cfg, s) && id in s.works
    ensures id in CloseLoop(cfg, s, order).works
    ensures CloseLoop(cfg, s, order).works[id].stop
         == if id in order && DrainStops(s, id) then Some(Draining) else s.works[id].stop
    decreases |order|
  {
    hide Core, Stop, DrainStops;
    if order != [] {
      var first := order[0];
      assert id in order <==> id == first || id in order[1..];
      var stop := first in s.works && (IsWaiting(s, first) || Outside(s.works[first]));
      var m := if stop then Stop(cfg, s, first, Draining) else s;
      if stop {
        StopIsOne(cfg, s, first, Draining, id);
        StopKeeps(cfg, s, first, Draining);
      }
      WhatIsStopped(s, id);
      WhatIsStopped(m, id);
      LoopStopsExactly(cfg, m, order[1..], id);
    }
  }

  lemma WhatIsStopped(s: State, id: Id)
    requires id in s.works
    ensures DrainStops(s, id) <==> s.works[id].stop.None? && (IsWaiting(s, id) || Outside(s.works[id]))
  {
  }

  /** A drain stops exactly the work that waits and the outside work, whatever the order of its loop, and its loop
      promotes no waiter on the way. */
  lemma DrainStopsExactly(cfg: Config, s: State, order: seq<Id>, id: Id)
    requires Inv(cfg, s) && !s.draining && Lists(order, s.works) && id in s.works
    ensures id in Close(cfg, s, order).works
    ensures Close(cfg, s, order).works[id].stop == if DrainStops(s, id) then Some(Draining) else s.works[id].stop
    ensures Close(cfg, s, order).places.active == s.places.active && Close(cfg, s, order).counts == s.counts
  {
    hide Inv, Core, CloseLoop, OnlyStops, DrainStops;
    var begun := s.(draining := true, generation := s.generation + 1);
    CoreOf(cfg, s);
    DrainBegins(cfg, s, begun);
    LoopStopsExactly(cfg, begun, order, id);
    CloseKeeps(cfg, s, order);
    assert id in (set i | i in order);
    SameToStop(s, begun, id);
  }

  lemma SameToStop(s: State, begun: State, id: Id)
    requires id in s.works && begun == s.(draining := true, generation := s.generation + 1)
    ensures DrainStops(begun, id) == DrainStops(s, id)
  {
  }

  // ----- What holds while a drain is on

  /** While a drain is on, nothing waits for a generation place, and every work that is not stopped is ours and has its
      place at the engine or its task done. */
  lemma WhileDraining(cfg: Config, events: seq<Event>)
    requires Gateway.Run(cfg, events).draining
    ensures Gateway.Run(cfg, events).places.line.Waiting() == {}
    ensures var s := Gateway.Run(cfg, events);
            forall id :: id in s.works && s.works[id].stop.None? ==>
              s.works[id].owner.None? && (s.works[id].phase.TaskRuns() ==> Active(s, id))
  {
    RunKeeps(cfg, events);
    NothingWaits(cfg, Gateway.Run(cfg, events));
  }

  lemma NothingWaits(cfg: Config, s: State)
    requires Inv(cfg, s) && s.draining
    ensures s.places.line.Waiting() == {}
  {
    hide Inv;
    WaitsOrActive(cfg, s);
    forall t | t in Tickets(s.places)
      ensures t in s.places.active
    {
      HeldWhileDraining(cfg, s, t);
    }
    assert forall t :: t in s.places.line.Waiting() ==> t in Tickets(s.places);
  }

  lemma WaitsOrActive(cfg: Config, s: State)
    requires Inv(cfg, s)
    ensures forall t :: t in s.places.line.Waiting() ==> t !in s.places.active
  {
    hide CountRules.Good, Bound, Fits, DrainOk, LifeOk;
    WaitingIs(s.places, s.nextTicket);
  }

  lemma HeldWhileDraining(cfg: Config, s: State, t: Tag)
    requires Inv(cfg, s) && s.draining && t in Tickets(s.places)
    ensures t in s.places.active
  {
    hide Good, CountRules.Good, Tickets;
    assert t in s.tickets.Values;
    var id :| id in s.tickets && s.tickets[id] == t;
    assert Fits(s, id);
  }

  /** The drain, the clock and the sleep are as they were, but that the end of all work wakes a sleep. */
  ghost predicate SameService(s: State, r: State) {
    && r.draining == s.draining && r.generation == s.generation && r.deadline == s.deadline
    && r.sleepRequested == s.sleepRequested && r.now == s.now
    && (r.sleeper == s.sleeper || (r.sleeper.Wakes? && s.sleeper.Waits?))
  }

  predicate CallsEngine(w: Work) {
    w.phase.Counting? || w.phase.Starting?
  }

  /** One step of a drain: no place is granted and none asked for, and a work that now calls the engine had its place
      already and was not stopped. */
  ghost predicate OnlyEnds(s: State, r: State) {
    && r.works.Keys <= s.works.Keys && r.places.active <= s.places.active && r.tickets.Keys <= s.tickets.Keys
    && (forall id :: id in r.tickets && id in s.tickets ==> r.tickets[id] == s.tickets[id])
    && (forall id :: id in r.works && id in s.works && CallsEngine(r.works[id]) && !CallsEngine(s.works[id]) ==>
          s.works[id].stop.None? && Active(s, id))
  }

  lemma EndsItself(s: State)
    ensures OnlyEnds(s, s)
  {
  }

  lemma StopsOnlyEnd(s: State, r: State)
    requires OnlyStops(s, r)
    ensures OnlyEnds(s, r)
  {
  }

  /** A ticket that leaves while nothing waits frees its place for nobody. */
  lemma LeavesToNobody(cfg: Config, s: State, id: Id)
    requires PoolsOk(cfg, s) && s.places.line.Waiting() == {}
    ensures LeavePlace(cfg, s, id).places.active <= s.places.active
  {
    hide CountRules.Good, Bound;
    NoneInLine(s.places.line);
    WaitingIs(s.places, s.nextTicket);
  }

  lemma NoneInLine(line: Line)
    ensures line.InOrder() != [] ==> line.InOrder()[0] in line.Waiting()
  {
    if line.InOrder() != [] {
      assert line.InOrder()[0] in line.InOrder();
    }
  }

  lemma LeavePlaceIs(cfg: Config, s: State, id: Id)
    ensures var r := LeavePlace(cfg, s, id);
            && r.works == s.works && r.tickets == s.tickets - {id} && SameService(s, r) && r.sleeper == s.sleeper
  {
    hide PlaceRules.Leave;
  }

  lemma EndTaskOnlyEnds(cfg: Config, s: State, id: Id)
    requires Inv(cfg, s) && id in s.works
    ensures OnlyEnds(s, EndTask(cfg, s, id))
  {
    hide PoolsOk, Alike, CountRules.Leave, EndTask;
    EndTaskKeeps(cfg, s, id);
    OthersAsTheyWere(s, EndTask(cfg, s, id), id);
  }

  lemma OthersAsTheyWere(s: State, r: State, id: Id)
    requires Alike(s, r, id) && id in r.works && id in s.works && !CallsEngine(r.works[id])
    requires r.tickets == s.tickets && r.places == s.places
    ensures OnlyEnds(s, r)
  {
  }

  lemma CleanedOnlyEnds(cfg: Config, s: State, m: State, id: Id)
    requires Inv(cfg, s) && s.draining && id in s.works && (s.works[id].phase.Ended? || s.works[id].phase.Closing?)
    requires m == s || m == s.(works := s.works[id := s.works[id].(leaving := true)])
    ensures OnlyEnds(s, Cleaned(cfg, m, id))
  {
    hide Inv, OnlyEnds, LeavePlace, Release, SameService, PoolsOk, LifeOk, Alike;
    NothingWaits(cfg, s);
    PoolsOf(cfg, s);
    var w := m.works[id].(phase := Answering, streams := false);
    var closed := m.(works := m.works[id := w]);
    assert closed == s.(works := s.works[id := w]);
    SetWorkKeeps(cfg, s, id, w);
    LeavesToNobody(cfg, closed, id);
    var left := LeavePlace(cfg, closed, id);
    LeavePlaceIs(cfg, closed, id);
    WorkLeaves(s, left, id);
    ReleaseIs(left, id);
    WorkLeaves(s, Release(left, id), id);
  }

  lemma ReleaseIs(s: State, id: Id)
    ensures var r := Release(s, id);
            && r.works == s.works - {id} && r.tickets == s.tickets && r.places == s.places && SameService(s, r)
  {
  }

  lemma PoolsOf(cfg: Config, s: State)
    requires Inv(cfg, s)
    ensures PoolsOk(cfg, s) && LifeOk(s)
  {
  }

  /** One work gives up its ticket and calls the engine no more. */
  lemma WorkLeaves(s: State, r: State, id: Id)
    requires r.works - {id} == s.works - {id} && (id in r.works ==> id in s.works && !CallsEngine(r.works[id]))
    requires r.tickets == s.tickets - {id} && r.places.active <= s.places.active
    ensures OnlyEnds(s, r)
  {
    forall j | j in r.works && j != id
      ensures j in s.works && r.works[j] == s.works[j]
    {
      assert j in r.works - {id} && (r.works - {id})[j] == r.works[j];
      assert j in s.works - {id} && (s.works - {id})[j] == s.works[j];
    }
  }

  lemma TaskOnlyEnds(cfg: Config, s: State, e: Event)
    requires Inv(cfg, s) && s.draining
    requires e.Start? || e.CountAnswered? || e.StreamEnded? || e.CancelLands? || e.EngineAnswered?
    ensures OnlyEnds(s, Next(cfg, s, e))
  {
    hide PoolsOk, EndTask, OnlyEnds, PlaceRules.Enter, CountRules.Enter;
    EndsItself(s);
    var id := e.id;
    if id in s.works {
      assert Fits(s, id);
      EndTaskOnlyEnds(cfg, s, id);
      if e.EngineAnswered? && e.ok && TaskCanStep(s, id, Starting) {
        WorkMovesOn(s, id, s.works[id].(phase := Streaming, streams := true));
      }
    }
  }

  lemma WorkMovesOn(s: State, id: Id, w: Work)
    requires id in s.works && (CallsEngine(w) ==> CallsEngine(s.works[id]) || (s.works[id].stop.None? && Active(s, id)))
    ensures OnlyEnds(s, s.(works := s.works[id := w]))
  {
  }

  lemma HandlerOnlyEnds(cfg: Config, s: State, e: Event)
    requires Inv(cfg, s) && s.draining
    requires e.Wake? || e.Closed? || e.Answered? || e.HandlerCancelled?
    ensures OnlyEnds(s, Next(cfg, s, e))
  {
    hide PoolsOk, Cleaned, Stop, OnlyEnds, AllFit, DrainOk;
    EndsItself(s);
    var id := e.id;
    if id in s.works {
      if e.Wake? && s.works[id].phase.Ended? && s.works[id].streams {
        WorkMovesOn(s, id, s.works[id].(phase := Closing));
      } else if s.works[id].phase.Ended? || s.works[id].phase.Closing? {
        CleanedOnlyEnds(cfg, s, s, id);
        CleanedOnlyEnds(cfg, s, s.(works := s.works[id := s.works[id].(leaving := true)]), id);
        WorkMovesOn(s, id, s.works[id].(leaving := true));
      } else if s.works[id].phase.Answering? {
        ReleaseOnlyEnds(s, id);
      } else if e.HandlerCancelled? && !s.works[id].leaving {
        ShutdownOnlyEnds(cfg, s, id);
      }
    }
  }

  lemma GrantedHasPlace(cfg: Config, s: State, e: Event)
    requires Inv(cfg, s) && s.draining && (e.CountGranted? || e.PlaceGranted?)
    ensures OnlyEnds(s, Next(cfg, s, e))
  {
    hide PoolsOk;
    if e.id in s.works {
      assert Fits(s, e.id);
    }
  }

  lemma ReleaseOnlyEnds(s: State, id: Id)
    requires id in s.works
    ensures OnlyEnds(s, Release(s, id))
  {
  }

  lemma ShutdownOnlyEnds(cfg: Config, s: State, id: Id)
    requires Inv(cfg, s) && id in s.works
    ensures OnlyEnds(s, Stop(cfg, s.(works := s.works[id := s.works[id].(leaving := true)]), id, Shutdown))
  {
    hide Inv, Core, Stop, OnlyStops, OnlyEnds;
    var m := s.(works := s.works[id := s.works[id].(leaving := true)]);
    LeavingKeeps(cfg, s, id);
    CoreOf(cfg, m);
    StopKeeps(cfg, m, id, Shutdown);
    StopsOnlyEnd(m, Stop(cfg, m, id, Shutdown));
    LeavingFirst(s, id, Stop(cfg, m, id, Shutdown));
  }

  lemma LeavingKeeps(cfg: Config, s: State, id: Id)
    requires Inv(cfg, s) && id in s.works
    ensures Inv(cfg, s.(works := s.works[id := s.works[id].(leaving := true)]))
  {
    hide PoolsOk, Fits;
    FitsLeaving(s, id);
    MoveOnKeeps(cfg, s, id, s.works[id].(leaving := true));
  }

  lemma LeavingFirst(s: State, id: Id, r: State)
    requires id in s.works && OnlyEnds(s.(works := s.works[id := s.works[id].(leaving := true)]), r)
    ensures OnlyEnds(s, r)
  {
  }

  lemma StopsStepOnlyEnds(cfg: Config, s: State, e: Event)
    requires Inv(cfg, s) && s.draining && (e.StopOne? || e.DeadlineFires? || e.EngineChanges? || e.Sleep? || e.Drain?)
    ensures OnlyEnds(s, Next(cfg, s, e))
  {
    hide Inv, Stop, StopAll, OnlyStops, OnlyEnds, Core;
    EndsItself(s);
    CoreOf(cfg, s);
    match e
    case StopOne(id, reason) =>
      StopKeeps(cfg, s, id, reason);
      StopsOnlyEnd(s, Next(cfg, s, e));
    case DeadlineFires(order) =>
      var m := s.(deadline := None);
      OtherFields(cfg, s, m);
      StopAllKeeps(cfg, m, order, Draining);
      StopsOnlyEnd(m, StopAll(cfg, m, order, Draining));
      OnlyEndsFrom(s, m, StopAll(cfg, m, order, Draining));
    case EngineChanges(order) =>
      var m := s.(engineChanged := true, engine := EngineFailed);
      OtherFields(cfg, s, m);
      StopAllKeeps(cfg, m, order, EngineChanged);
      StopsOnlyEnd(m, StopAll(cfg, m, order, EngineChanged));
      OnlyEndsFrom(s, m, StopAll(cfg, m, order, EngineChanged));
    case _ => FieldsOnlyEnd(s, Next(cfg, s, e));
  }

  lemma CoreOf(cfg: Config, s: State)
    requires Inv(cfg, s)
    ensures Core(cfg, s)
  {
  }

  lemma OnlyEndsFrom(s: State, m: State, r: State)
    requires OnlyEnds(m, r)
    requires m.works == s.works && m.places == s.places && m.tickets == s.tickets
    requires m.counts == s.counts && m.countTickets == s.countTickets
    ensures OnlyEnds(s, r)
  {
  }

  /** No step of a drain lets anything in: no place is granted, and only a work that had its place can go on to call
      the engine. */
  lemma DrainStepOnlyEnds(cfg: Config, s: State, e: Event)
    requires Inv(cfg, s) && s.draining
    ensures OnlyEnds(s, Next(cfg, s, e))
  {
    hide Inv, OnlyEnds, Next;
    match e
    case Start(_) => TaskOnlyEnds(cfg, s, e);
    case CountAnswered(_, _, _) => TaskOnlyEnds(cfg, s, e);
    case StreamEnded(_) => TaskOnlyEnds(cfg, s, e);
    case CancelLands(_) => TaskOnlyEnds(cfg, s, e);
    case EngineAnswered(_, _) => TaskOnlyEnds(cfg, s, e);
    case Wake(_) => HandlerOnlyEnds(cfg, s, e);
    case Closed(_) => HandlerOnlyEnds(cfg, s, e);
    case Answered(_) => HandlerOnlyEnds(cfg, s, e);
    case HandlerCancelled(_) => HandlerOnlyEnds(cfg, s, e);
    case CountGranted(_) => GrantedHasPlace(cfg, s, e);
    case PlaceGranted(_) => GrantedHasPlace(cfg, s, e);
    case StopOne(_, _) => StopsStepOnlyEnds(cfg, s, e);
    case DeadlineFires(_) => StopsStepOnlyEnds(cfg, s, e);
    case EngineChanges(_) => StopsStepOnlyEnds(cfg, s, e);
    case Sleep(_) => StopsStepOnlyEnds(cfg, s, e);
    case Drain(_) => StopsStepOnlyEnds(cfg, s, e);
    case _ => ServiceOnlyEnds(cfg, s, e);
  }

  lemma ServiceOnlyEnds(cfg: Config, s: State, e: Event)
    requires s.draining
    requires e.Accept? || e.Open? || e.EngineAnswers? || e.EngineFails? || e.Tick? || e.SleeperResumes?
    ensures OnlyEnds(s, Next(cfg, s, e))
  {
    hide OnlyEnds, EndTask, EnterCount, EnterPlace, LeaveCount, Cleaned, Release, Stop, StopAll, Close;
    match e
    case Accept(_, _, _, _) => FieldsOnlyEnd(s, Next(cfg, s, e));
    case Open(_) => FieldsOnlyEnd(s, Next(cfg, s, e));
    case EngineAnswers => FieldsOnlyEnd(s, Next(cfg, s, e));
    case EngineFails => FieldsOnlyEnd(s, Next(cfg, s, e));
    case Tick => FieldsOnlyEnd(s, Next(cfg, s, e));
    case SleeperResumes => FieldsOnlyEnd(s, Next(cfg, s, e));
  }

  lemma FieldsOnlyEnd(s: State, r: State)
    requires r.works == s.works && r.places == s.places && r.tickets == s.tickets
    ensures OnlyEnds(s, r)
  {
  }

  // ----- Drains and opens

  lemma EndTaskSame(cfg: Config, s: State, id: Id)
    requires id in s.works
    ensures SameService(s, EndTask(cfg, s, id))
  {
    hide CountRules.Leave;
  }

  lemma EnterCountSame(cfg: Config, s: State, id: Id)
    requires id in s.works
    ensures SameService(s, EnterCount(cfg, s, id))
  {
    hide CountRules.Leave, CountRules.Enter;
  }

  lemma EnterPlaceSame(cfg: Config, s: State, id: Id)
    requires id in s.works
    ensures SameService(s, EnterPlace(cfg, LeaveCount(cfg, s, id), id))
  {
    hide CountRules.Leave, PlaceRules.Enter;
  }

  lemma CleanedSame(cfg: Config, s: State, id: Id)
    requires id in s.works
    ensures SameService(s, Cleaned(cfg, s, id))
    ensures SameService(s, Cleaned(cfg, s.(works := s.works[id := s.works[id].(leaving := true)]), id))
  {
    hide LeavePlace, Release;
    var m := s.(works := s.works[id := s.works[id].(leaving := true)]);
    CloseSame(cfg, s, id);
    CloseSame(cfg, m, id);
  }

  lemma CloseSame(cfg: Config, s: State, id: Id)
    requires id in s.works
    ensures SameService(s, Cleaned(cfg, s, id))
  {
    hide LeavePlace, Release;
    var closed := s.(works := s.works[id := s.works[id].(phase := Answering, streams := false)]);
    LeavePlaceIs(cfg, closed, id);
    ReleaseIs(LeavePlace(cfg, closed, id), id);
  }

  lemma StopSame(cfg: Config, s: State, id: Id, reason: Reason)
    ensures SameService(s, Stop(cfg, s, id, reason)) && Stop(cfg, s, id, reason).sleeper == s.sleeper
  {
    hide PlaceRules.Leave;
  }

  predicate OfOneRequest(e: Event) {
    !e.Drain? && !e.Sleep? && !e.DeadlineFires? && !e.EngineChanges? && !e.Open? && !e.Tick? && !e.SleeperResumes?
  }

  lemma TaskSame(cfg: Config, s: State, e: Event)
    requires e.Start? || e.CountAnswered? || e.EngineAnswered? || e.StreamEnded? || e.CancelLands?
    ensures SameService(s, Next(cfg, s, e))
  {
    hide EndTask, EnterCount, EnterPlace, LeaveCount, SameService;
    SameItself(s);
    if e.id in s.works {
      EndTaskSame(cfg, s, e.id);
      EnterCountSame(cfg, s, e.id);
      EnterPlaceSame(cfg, s, e.id);
      SetWorkSame(s, e.id, s.works[e.id].(phase := Streaming, streams := true));
    }
  }

  lemma SameItself(s: State)
    ensures SameService(s, s)
  {
  }

  lemma SetWorkSame(s: State, id: Id, w: Work)
    ensures SameService(s, s.(works := s.works[id := w]))
  {
  }

  lemma HandlerSame(cfg: Config, s: State, e: Event)
    requires e.Wake? || e.Closed? || e.Answered?
    ensures SameService(s, Next(cfg, s, e))
  {
    hide Cleaned, Release, SameService;
    SameItself(s);
    if e.id in s.works {
      CleanedSame(cfg, s, e.id);
      ReleaseIs(s, e.id);
      SetWorkSame(s, e.id, s.works[e.id].(phase := Closing));
    }
  }

  lemma CancelledSame(cfg: Config, s: State, id: Id)
    ensures SameService(s, Next(cfg, s, HandlerCancelled(id)))
  {
    hide Cleaned, Release, Stop;
    if id in s.works {
      CleanedSame(cfg, s, id);
      ReleaseIs(s, id);
      StopSame(cfg, s.(works := s.works[id := s.works[id].(leaving := true)]), id, Shutdown);
    }
  }

  /** The steps of a request leave the drain, the clock and a sleep that was asked for as they are. */
  lemma OneRequestOnly(cfg: Config, s: State, e: Event)
    requires OfOneRequest(e)
    ensures SameService(s, Next(cfg, s, e))
  {
    hide EndTask, EnterCount, EnterPlace, LeaveCount, Cleaned, Stop, Release;
    match e
    case Wake(_) => HandlerSame(cfg, s, e);
    case Closed(_) => HandlerSame(cfg, s, e);
    case Answered(_) => HandlerSame(cfg, s, e);
    case HandlerCancelled(id) => CancelledSame(cfg, s, id);
    case StopOne(id, reason) => StopSame(cfg, s, id, reason);
    case Accept(_, _, _, _) =>
    case CountGranted(_) =>
    case PlaceGranted(_) =>
    case EngineAnswers =>
    case EngineFails =>
    case _ => TaskSame(cfg, s, e);
  }

  /** Drains and opens in one step: a drain that begins gets the next number and arms its own deadline; only an open
      of that very drain ends it, and never once a sleep was asked for. */
  ghost predicate InOrder(s: State, e: Event, r: State) {
    && r.generation == s.generation + (if r.draining && !s.draining then 1 else 0)
    && (s.draining ==> (r.draining <==> !(e == Open(s.generation) && !s.sleepRequested)))
    && (s.sleepRequested ==> r.sleepRequested)
    && (r.deadline != s.deadline ==>
          r.deadline == (if r.draining && !s.draining then Some(r.generation) else None))
    && s.now <= r.now
  }

  lemma DrainsAndOpens(cfg: Config, s: State, e: Event)
    requires Inv(cfg, s)
    ensures InOrder(s, e, Next(cfg, s, e))
  {
    hide Inv, Next, InOrder;
    PoolsOf(cfg, s);
    match e
    case Drain(order) => ClosingInOrder(cfg, s, e);
    case Sleep(order) => ClosingInOrder(cfg, s, e);
    case DeadlineFires(order) => DeadlineInOrder(cfg, s, order);
    case EngineChanges(order) => ChangeInOrder(cfg, s, order);
    case Open(_) => ServiceInOrder(cfg, s, e);
    case Tick => ServiceInOrder(cfg, s, e);
    case SleeperResumes => ServiceInOrder(cfg, s, e);
    case _ => RequestInOrder(cfg, s, e);
  }

  lemma ClosingInOrder(cfg: Config, s: State, e: Event)
    requires Inv(cfg, s) && (e.Drain? || e.Sleep?)
    ensures InOrder(s, e, Next(cfg, s, e))
  {
    hide Inv, Close;
    CloseInOrder(cfg, s, e.order);
  }

  lemma ServiceInOrder(cfg: Config, s: State, e: Event)
    requires Inv(cfg, s) && (e.Open? || e.Tick? || e.SleeperResumes?)
    ensures InOrder(s, e, Next(cfg, s, e))
  {
    hide PoolsOk, AllFit, DrainOk;
  }

  lemma RequestInOrder(cfg: Config, s: State, e: Event)
    requires OfOneRequest(e)
    ensures InOrder(s, e, Next(cfg, s, e))
  {
    hide Next;
    OneRequestOnly(cfg, s, e);
  }

  lemma DeadlineInOrder(cfg: Config, s: State, order: seq<Id>)
    requires LifeOk(s)
    ensures InOrder(s, DeadlineFires(order), Next(cfg, s, DeadlineFires(order)))
  {
    hide Inv, EndTask, EnterCount, EnterPlace, LeaveCount, Cleaned, Release, Stop, StopAll, Close;
    StopAllSame(cfg, s.(deadline := None), order, Draining);
  }

  lemma ChangeInOrder(cfg: Config, s: State, order: seq<Id>)
    requires LifeOk(s)
    ensures InOrder(s, EngineChanges(order), Next(cfg, s, EngineChanges(order)))
  {
    hide Inv, EndTask, EnterCount, EnterPlace, LeaveCount, Cleaned, Release, Stop, StopAll, Close;
    StopAllSame(cfg, s.(engineChanged := true, engine := EngineFailed), order, EngineChanged);
  }

  lemma {:induction false} StopAllSame(cfg: Config, s: State, order: seq<Id>, reason: Reason)
    ensures SameService(s, StopAll(cfg, s, order, reason)) && StopAll(cfg, s, order, reason).sleeper == s.sleeper
    decreases |order|
  {
    hide Stop;
    if order != [] {
      StopSame(cfg, s, order[0], reason);
      StopAllSame(cfg, Stop(cfg, s, order[0], reason), order[1..], reason);
    }
  }

  lemma CloseInOrder(cfg: Config, s: State, order: seq<Id>)
    requires Inv(cfg, s)
    ensures Lists(order, s.works) ==>
              var r := Close(cfg, s, order);
              && r.draining && r.generation == s.generation + (if s.draining then 0 else 1)
              && r.sleepRequested == s.sleepRequested && r.now == s.now && r.sleeper == s.sleeper
              && r.noWork == s.noWork
              && r.deadline == (if s.draining then s.deadline else Some(r.generation))
  {
    hide Inv, CloseLoop;
    if Lists(order, s.works) {
      CloseKeeps(cfg, s, order);
    }
  }

  // ----- Whole runs

  /** How many drains a run has begun. */
  function DrainsBegun(cfg: Config, events: seq<Event>): nat {
    if events == [] then 0
    else
      var before := Gateway.Run(cfg, events[..|events| - 1]);
      DrainsBegun(cfg, events[..|events| - 1])
        + (if !before.draining && Gateway.Run(cfg, events).draining then 1 else 0)
  }

  /** The generation counts the drains. */
  lemma {:induction false} GenerationCounts(cfg: Config, events: seq<Event>)
    ensures Gateway.Run(cfg, events).generation == DrainsBegun(cfg, events)
  {
    hide Inv, Next;
    if events != [] {
      var before := events[..|events| - 1];
      GenerationCounts(cfg, before);
      RunKeeps(cfg, before);
      DrainsAndOpens(cfg, Gateway.Run(cfg, before), events[|events| - 1]);
    }
  }

  /** A deadline is armed only in the drain that armed it, so it can fire in no other. */
  lemma DeadlineOfThisDrain(cfg: Config, events: seq<Event>)
    ensures var s := Gateway.Run(cfg, events);
            s.deadline.Some? ==> s.draining && s.deadline.value == DrainsBegun(cfg, events)
  {
    hide Next;
    RunKeeps(cfg, events);
    GenerationCounts(cfg, events);
  }

  /** While the same drain is on, the work and its places only become fewer: no place is granted between its first
      state and any later one, and whoever holds a place held it at the start. */
  lemma {:induction false} DrainOnlyEnds(cfg: Config, events: seq<Event>, i: nat)
    requires i <= |events| && Gateway.Run(cfg, events[..i]).draining && Gateway.Run(cfg, events).draining
    requires Gateway.Run(cfg, events[..i]).generation == Gateway.Run(cfg, events).generation
    ensures Fewer(Gateway.Run(cfg, events[..i]), Gateway.Run(cfg, events))
  {
    hide Inv, Next;
    if i == |events| {
      assert events[..i] == events;
    } else {
      var before := events[..|events| - 1];
      assert before[..i] == events[..i];
      RunKeeps(cfg, before);
      DrainsAndOpens(cfg, Gateway.Run(cfg, before), events[|events| - 1]);
      GenerationGrows(cfg, before, i);
      DrainOnlyEnds(cfg, before, i);
      DrainStepOnlyEnds(cfg, Gateway.Run(cfg, before), events[|events| - 1]);
    }
  }

  ghost predicate Fewer(s: State, r: State) {
    && r.works.Keys <= s.works.Keys && r.places.active <= s.places.active && r.tickets.Keys <= s.tickets.Keys
    && forall id :: id in r.tickets && id in s.tickets ==> r.tickets[id] == s.tickets[id]
  }

  /** No work that waited when a drain began ever calls the engine in it: whoever has an open engine request had its
      place at the start. */
  lemma EngineCallsAreOld(cfg: Config, events: seq<Event>, i: nat, id: Id)
    requires i <= |events| && Gateway.Run(cfg, events[..i]).draining && Gateway.Run(cfg, events).draining
    requires Gateway.Run(cfg, events[..i]).generation == Gateway.Run(cfg, events).generation
    requires id in Gateway.Run(cfg, events).works
    requires Gateway.Run(cfg, events).works[id].phase.Starting? || Gateway.Run(cfg, events).works[id].streams
    ensures var s := Gateway.Run(cfg, events[..i]);
            id in s.works && id in s.tickets && s.tickets[id] in s.places.active
  {
    hide PoolsOk, DrainOk, LifeOk, Next;
    RunKeeps(cfg, events);
    RunKeeps(cfg, events[..i]);
    assert Fits(Gateway.Run(cfg, events), id);
    DrainOnlyEnds(cfg, events, i);
  }

  lemma {:induction false} GenerationGrows(cfg: Config, events: seq<Event>, i: nat)
    requires i <= |events|
    ensures Gateway.Run(cfg, events[..i]).generation <= Gateway.Run(cfg, events).generation
    ensures Gateway.Run(cfg, events[..i]).now <= Gateway.Run(cfg, events).now
  {
    hide Inv, Next;
    if i == |events| {
      assert events[..i] == events;
    } else {
      var before := events[..|events| - 1];
      assert before[..i] == events[..i];
      RunKeeps(cfg, before);
      DrainsAndOpens(cfg, Gateway.Run(cfg, before), events[|events| - 1]);
      GenerationGrows(cfg, before, i);
    }
  }

  /** Once a sleep was asked for the service drains for good: it accepts nothing, and its work only becomes less. */
  lemma {:induction false} SleepIsForGood(cfg: Config, events: seq<Event>, i: nat)
    requires i <= |events| && Gateway.Run(cfg, events[..i]).sleepRequested
    ensures Gateway.Run(cfg, events).sleepRequested && Gateway.Run(cfg, events).draining
    ensures Gateway.Run(cfg, events).generation == Gateway.Run(cfg, events[..i]).generation
    ensures Fewer(Gateway.Run(cfg, events[..i]), Gateway.Run(cfg, events))
  {
    hide PoolsOk, AllFit, DrainOk, Next;
    RunKeeps(cfg, events);
    if i == |events| {
      assert events[..i] == events;
    } else {
      var before := events[..|events| - 1];
      assert before[..i] == events[..i];
      RunKeeps(cfg, before);
      SleepIsForGood(cfg, before, i);
      DrainsAndOpens(cfg, Gateway.Run(cfg, before), events[|events| - 1]);
      DrainStepOnlyEnds(cfg, Gateway.Run(cfg, before), events[|events| - 1]);
    }
  }

  // ----- The sleep's task

  /** The sleep's task moves on only by itself, or as the last work is released. */
  lemma SleeperStep(cfg: Config, s: State, e: Event)
    requires Inv(cfg, s) && s.sleepRequested
    ensures var r := Next(cfg, s, e);
            || r.sleeper == s.sleeper
            || (s.sleeper.Waits? && r.sleeper.Wakes?)
            || (s.sleeper.Wakes? && r.sleeper == Stops(false))
            || (s.sleeper.Waits? && r.sleeper == Stops(true) && s.now >= s.sleeper.since + FORCED_STOP_S)
  {
    hide Inv, Next;
    if OfOneRequest(e) {
      OneRequestOnly(cfg, s, e);
    } else {
      ServiceSleeper(cfg, s, e);
    }
  }

  lemma ServiceSleeper(cfg: Config, s: State, e: Event)
    requires Inv(cfg, s) && !OfOneRequest(e)
    ensures !e.Sleep? ==> Next(cfg, s, e).sleepRequested == s.sleepRequested
    ensures s.sleepRequested && !e.SleeperResumes? ==> Next(cfg, s, e).sleeper == s.sleeper
    ensures e.SleeperResumes? ==>
              var r := Next(cfg, s, e);
              || r.sleeper == s.sleeper
              || (s.sleeper.Wakes? && r.sleeper == Stops(false))
              || (s.sleeper.Waits? && r.sleeper == Stops(true) && s.now >= s.sleeper.since + FORCED_STOP_S)
  {
    hide Inv, EndTask, EnterCount, EnterPlace, LeaveCount, Cleaned, Release, Stop, StopAll, Close;
    match e
    case Drain(order) => CloseInOrder(cfg, s, order);
    case DeadlineFires(order) => StopAllSame(cfg, s.(deadline := None), order, Draining);
    case EngineChanges(order) =>
      StopAllSame(cfg, s.(engineChanged := true, engine := EngineFailed), order, EngineChanged);
    case _ =>
  }

  /** The wait of a sleep begins when the sleep does. */
  lemma SleepStartsTheWait(cfg: Config, s: State, e: Event)
    requires Inv(cfg, s) && !s.sleepRequested && Next(cfg, s, e).sleepRequested
    ensures var r := Next(cfg, s, e);
            r.sleeper == (if s.works == map[] then Wakes else Waits(s.now))
  {
    hide Inv, Close, Next;
    PoolsOf(cfg, s);
    assert e.Sleep? by {
      SleepBegins(cfg, s, e);
    }
    SleepSets(cfg, s, e.order);
  }

  lemma SleepBegins(cfg: Config, s: State, e: Event)
    requires Inv(cfg, s) && !s.sleepRequested && Next(cfg, s, e).sleepRequested
    ensures e.Sleep?
  {
    hide Inv, Next;
    if OfOneRequest(e) {
      OneRequestOnly(cfg, s, e);
    } else {
      ServiceSleeper(cfg, s, e);
    }
  }

  lemma SleepSets(cfg: Config, s: State, order: seq<Id>)
    requires Inv(cfg, s) && !s.sleepRequested && Next(cfg, s, Sleep(order)).sleepRequested
    ensures Next(cfg, s, Sleep(order)).sleeper == (if s.works == map[] then Wakes else Waits(s.now))
  {
    hide PoolsOk, AllFit, DrainOk, Close;
    CloseInOrder(cfg, s, order);
  }

  /** After the step that asks for the sleep: whoever still waits has waited since then, and a forced stop comes no
      earlier than 120 seconds later. */
  lemma {:induction false} WaitsSinceSleep(cfg: Config, events: seq<Event>, i: nat)
    requires i < |events| && !Gateway.Run(cfg, events[..i]).sleepRequested
    requires Gateway.Run(cfg, events[..i + 1]).sleepRequested
    ensures var s, began := Gateway.Run(cfg, events), Gateway.Run(cfg, events[..i]).now;
            && s.sleepRequested
            && (s.sleeper.Waits? ==> s.sleeper.since == began)
            && (s.sleeper == Stops(true) ==> s.now >= began + FORCED_STOP_S)
  {
    hide Inv, Next;
    if i + 1 == |events| {
      assert events[..i + 1] == events;
      assert events[..|events| - 1] == events[..i];
      RunKeeps(cfg, events[..i]);
      SleepStartsTheWait(cfg, Gateway.Run(cfg, events[..i]), events[i]);
    } else {
      var before := events[..|events| - 1];
      assert before[..i] == events[..i] && before[..i + 1] == events[..i + 1];
      RunKeeps(cfg, before);
      WaitsSinceSleep(cfg, before, i);
      DrainsAndOpens(cfg, Gateway.Run(cfg, before), events[|events| - 1]);
      SleeperStep(cfg, Gateway.Run(cfg, before), events[|events| - 1]);
    }
  }

  /** A stop of the instance finds no work, or comes at least 120 seconds after the step that asked for the sleep. */
  lemma StopsEmptyOrLate(cfg: Config, events: seq<Event>, i: nat)
    requires i < |events| && !Gateway.Run(cfg, events[..i]).sleepRequested
    requires Gateway.Run(cfg, events[..i + 1]).sleepRequested && Gateway.Run(cfg, events).sleeper.Stops?
    ensures Gateway.Run(cfg, events).works == map[]
         || Gateway.Run(cfg, events).now >= Gateway.Run(cfg, events[..i]).now + FORCED_STOP_S
  {
    hide PoolsOk, AllFit, DrainOk, Next;
    RunKeeps(cfg, events);
    WaitsSinceSleep(cfg, events, i);
  }

  // ----- The first stop counts

  /** No work is new, and each that is still there keeps the reason it was stopped for, if it was. */
  ghost predicate StopsStay(s: State, r: State) {
    && r.works.Keys <= s.works.Keys
    && forall id :: id in r.works && s.works[id].stop.Some? ==> r.works[id].stop == s.works[id].stop
  }

  lemma EndTaskStopsStay(cfg: Config, s: State, m: State, id: Id)
    requires m.works == s.works && id in s.works
    ensures StopsStay(s, EndTask(cfg, m, id))
  {
    hide LeaveCount;
    PoolsApart(cfg, m, id);
  }

  lemma EnterCountStopsStay(cfg: Config, s: State, id: Id)
    requires id in s.works
    ensures StopsStay(s, EnterCount(cfg, s, id))
  {
    hide EndTask, CountRules.Enter;
    EndTaskStopsStay(cfg, s, s.(nextCount := s.nextCount + 1), id);
  }

  lemma EnterPlaceStopsStay(cfg: Config, s: State, id: Id)
    requires id in s.works
    ensures id in LeaveCount(cfg, s, id).works && StopsStay(s, EnterPlace(cfg, LeaveCount(cfg, s, id), id))
  {
    hide EndTask, LeaveCount, PlaceRules.Enter;
    PoolsApart(cfg, s, id);
    var m := LeaveCount(cfg, s, id);
    EndTaskStopsStay(cfg, s, m.(nextTicket := m.nextTicket + 1), id);
  }

  lemma TaskStopsStay(cfg: Config, s: State, e: Event)
    requires e.Start? || e.CountAnswered? || e.EngineAnswered? || e.StreamEnded? || e.CancelLands?
    ensures StopsStay(s, Next(cfg, s, e))
  {
    hide EndTask, LeaveCount, EnterCount, EnterPlace;
    if e.id in s.works {
      EndTaskStopsStay(cfg, s, s, e.id);
      EnterCountStopsStay(cfg, s, e.id);
      EnterPlaceStopsStay(cfg, s, e.id);
    }
  }

  lemma CleanedStopsStay(cfg: Config, s: State, m: State, id: Id)
    requires id in s.works && id in m.works && m.works == s.works[id := m.works[id]]
    requires m.works[id].stop == s.works[id].stop
    ensures StopsStay(s, Cleaned(cfg, m, id))
  {
    hide LeavePlace, Release;
    var closed := m.(works := m.works[id := m.works[id].(phase := Answering, streams := false)]);
    LeavePlaceIs(cfg, closed, id);
    ReleaseIs(LeavePlace(cfg, closed, id), id);
    ClosedStopsStay(s, closed.works, id);
  }

  /** Closing a work's stream and letting it go touch no stop. */
  lemma ClosedStopsStay(s: State, closed: map<Id, Work>, id: Id)
    requires id in s.works && id in closed && closed == s.works[id := closed[id]]
    requires closed[id].stop == s.works[id].stop
    ensures forall r: State :: r.works == closed || r.works == closed - {id} ==> StopsStay(s, r)
  {
  }

  lemma StopStopsStay(cfg: Config, s: State, m: State, id: Id, reason: Reason)
    requires m == s || (id in s.works && m == s.(works := s.works[id := s.works[id].(leaving := true)]))
    ensures StopsStay(s, Stop(cfg, m, id, reason))
  {
    hide LeavePlace;
    if id in m.works {
      PoolsApart(cfg, m.(works := m.works[id := m.works[id].(stop := Some(reason))]), id);
    }
  }

  lemma HandlerStopsStay(cfg: Config, s: State, e: Event)
    requires e.Wake? || e.Closed? || e.Answered?
    ensures StopsStay(s, Next(cfg, s, e))
  {
    hide Cleaned;
    if e.id in s.works {
      CleanedStopsStay(cfg, s, s, e.id);
    }
  }

  lemma CancelledStopsStay(cfg: Config, s: State, id: Id)
    ensures StopsStay(s, Next(cfg, s, HandlerCancelled(id)))
  {
    hide Cleaned, Stop, StopsStay, Release;
    SameStopsStay(s, s);
    if id in s.works {
      var m := s.(works := s.works[id := s.works[id].(leaving := true)]);
      SameStopsStay(s, m);
      ReleaseIs(s, id);
      SameStopsStay(s, Release(s, id));
      CleanedStopsStay(cfg, s, m, id);
      StopStopsStay(cfg, s, m, id, Shutdown);
    }
  }

  lemma SameStopsStay(s: State, r: State)
    requires forall id :: id in r.works ==> id in s.works && r.works[id].stop == s.works[id].stop
    ensures StopsStay(s, r)
  {
  }

  lemma StopsStayed(s: State, r: State)
    requires OnlyStops(s, r)
    ensures StopsStay(s, r)
  {
  }

  lemma LoopStopsStay(cfg: Config, s: State, order: seq<Id>, reason: Reason)
    requires Core(cfg, s)
    ensures StopsStay(s, StopAll(cfg, s, order, reason)) && StopsStay(s, CloseLoop(cfg, s, order))
  {
    hide Core, OnlyStops, StopAll, CloseLoop;
    StopAllKeeps(cfg, s, order, reason);
    StopsStayed(s, StopAll(cfg, s, order, reason));
    CloseLoopKeeps(cfg, s, order);
    StopsStayed(s, CloseLoop(cfg, s, order));
  }

  lemma ServiceStopsStay(cfg: Config, s: State, e: Event)
    requires Inv(cfg, s) && (e.Drain? || e.Sleep? || e.DeadlineFires? || e.EngineChanges?)
    ensures StopsStay(s, Next(cfg, s, e))
  {
    hide Inv, Core, StopAll, CloseLoop;
    CoreOf(cfg, s);
    var begun := s.(draining := true, generation := s.generation + 1);
    OtherFields(cfg, s, begun);
    LoopStopsStay(cfg, begun, e.order, Draining);
    OtherFields(cfg, s, s.(deadline := None));
    LoopStopsStay(cfg, s.(deadline := None), e.order, Draining);
    var changed := s.(engineChanged := true, engine := EngineFailed);
    OtherFields(cfg, s, changed);
    LoopStopsStay(cfg, changed, e.order, EngineChanged);
  }

  lemma StepStopsStay(cfg: Config, s: State, e: Event)
    requires Inv(cfg, s) && !e.Accept?
    ensures StopsStay(s, Next(cfg, s, e))
  {
    hide Inv, EndTask, EnterCount, EnterPlace, LeaveCount, Cleaned, Stop, StopAll, Close;
    match e
    case Start(_) => TaskStopsStay(cfg, s, e);
    case CountAnswered(_, _, _) => TaskStopsStay(cfg, s, e);
    case EngineAnswered(_, _) => TaskStopsStay(cfg, s, e);
    case StreamEnded(_) => TaskStopsStay(cfg, s, e);
    case CancelLands(_) => TaskStopsStay(cfg, s, e);
    case Wake(_) => HandlerStopsStay(cfg, s, e);
    case Closed(_) => HandlerStopsStay(cfg, s, e);
    case Answered(_) => HandlerStopsStay(cfg, s, e);
    case HandlerCancelled(id) => CancelledStopsStay(cfg, s, id);
    case StopOne(id, reason) => StopStopsStay(cfg, s, s, id, reason);
    case Drain(_) => ServiceStopsStay(cfg, s, e);
    case Sleep(_) => ServiceStopsStay(cfg, s, e);
    case DeadlineFires(_) => ServiceStopsStay(cfg, s, e);
    case EngineChanges(_) => ServiceStopsStay(cfg, s, e);
    case _ =>
  }

  /** Work comes in only by an accept, and an accept takes it exactly while the service serves. */
  lemma OnlyAcceptsAdd(cfg: Config, events: seq<Event>, e: Event, id: Id)
    requires id !in Gateway.Run(cfg, events).works
    ensures id in Next(cfg, Gateway.Run(cfg, events), e).works <==>
              && e.Accept? && e.id == id
              && !Gateway.Run(cfg, events).draining && Gateway.Run(cfg, events).engine.EngineReady?
  {
    hide Inv;
    RunKeeps(cfg, events);
    if e.Accept? {
    } else {
      hide Next;
      StepStopsStay(cfg, Gateway.Run(cfg, events), e);
    }
  }

  lemma AcceptStopsStay(cfg: Config, s: State, e: Event, id: Id)
    requires e.Accept? && id in s.works
    ensures id in Next(cfg, s, e).works && Next(cfg, s, e).works[id] == s.works[id]
  {
  }

  /** Only the first stop counts: once a work is stopped, its reason stays the same for as long as it is there. */
  lemma {:induction false} FirstStopCounts(cfg: Config, events: seq<Event>, i: nat, id: Id)
    requires i <= |events| && forall k :: i <= k <= |events| ==> id in Gateway.Run(cfg, events[..k]).works
    requires Gateway.Run(cfg, events[..i]).works[id].stop.Some?
    ensures id in Gateway.Run(cfg, events).works
    ensures Gateway.Run(cfg, events).works[id].stop == Gateway.Run(cfg, events[..i]).works[id].stop
  {
    hide Inv, Next;
    var n := |events|;
    assert events[..n] == events;
    assert id in Gateway.Run(cfg, events[..n]).works;
    if i < n {
      var before := events[..n - 1];
      forall k | i <= k <= n - 1
        ensures id in Gateway.Run(cfg, before[..k]).works
      {
        assert before[..k] == events[..k];
      }
      assert before[..i] == events[..i];
      FirstStopCounts(cfg, before, i, id);
      RunKeeps(cfg, before);
      if events[n - 1].Accept? {
        AcceptStopsStay(cfg, Gateway.Run(cfg, before), events[n - 1], id);
      } else {
        StepStopsStay(cfg, Gateway.Run(cfg, before), events[n - 1]);
      }
    }
  }
}
