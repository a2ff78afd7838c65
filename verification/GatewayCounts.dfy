/** The engine's counts while a drain is on: which of them can still be open, and whose they are. */
module GatewayCounts {

  import opened Wrappers
  import opened PlaceRules
  import opened Gateway
  import opened GatewayProofs
  import opened GatewayTheorems

  predicate InCount(w: Work) {
    w.phase.CountWait? || w.phase.Counting?
  }

  /** No work comes to the counts, and one goes on to its count only if it waited for it and was not stopped. */
  ghost predicate CountsOnlyEnd(s: State, r: State) {
    forall id :: id in r.works && InCount(r.works[id]) ==>
      && id in s.works && InCount(s.works[id])
      && (s.works[id].stop.Some? ==> r.works[id].stop.Some?)
      && (r.works[id].phase.CountWait? ==> s.works[id].phase.CountWait?)
      && (r.works[id].phase.Counting? && s.works[id].phase.CountWait? ==> s.works[id].stop.None?)
  }

  lemma StopsKeepCounts(s: State, r: State)
    requires OnlyStops(s, r)
    ensures CountsOnlyEnd(s, r)
  {
  }

  /** While a drain is on, a task that has not run yet is stopped. */
  lemma NoneStarts(cfg: Config, s: State, id: Id)
    requires Inv(cfg, s) && s.draining && id in s.works && s.works[id].phase.Created?
    ensures s.works[id].stop.Some?
  {
    hide PoolsOk, LifeOk;
    assert Fits(s, id);
  }

  lemma CountsStay(s: State)
    ensures forall r: State :: r.works == s.works ==> CountsOnlyEnd(s, r)
  {
  }

  lemma EndTaskCounts(cfg: Config, s: State, m: State, id: Id)
    requires m.works == s.works && id in s.works
    ensures CountsOnlyEnd(s, EndTask(cfg, m, id))
  {
    hide LeaveCount;
    PoolsApart(cfg, m, id);
  }

  lemma EnterPlaceCounts(cfg: Config, s: State, id: Id)
    requires id in s.works
    ensures id in LeaveCount(cfg, s, id).works && CountsOnlyEnd(s, EnterPlace(cfg, LeaveCount(cfg, s, id), id))
  {
    hide EndTask, LeaveCount, PlaceRules.Enter;
    PoolsApart(cfg, s, id);
    var m := LeaveCount(cfg, s, id);
    EndTaskCounts(cfg, s, m.(nextTicket := m.nextTicket + 1), id);
  }

  lemma TaskCounts(cfg: Config, s: State, e: Event)
    requires Inv(cfg, s) && s.draining
    requires e.Start? || e.CountAnswered? || e.EngineAnswered? || e.StreamEnded? || e.CancelLands?
    ensures CountsOnlyEnd(s, Next(cfg, s, e))
  {
    hide Inv, EndTask, LeaveCount, EnterCount, EnterPlace;
    if e.id in s.works {
      EndTaskCounts(cfg, s, s, e.id);
      EnterPlaceCounts(cfg, s, e.id);
      if s.works[e.id].phase.Created? {
        NoneStarts(cfg, s, e.id);
      }
    }
  }

  lemma CleanedCounts(cfg: Config, s: State, m: State, id: Id)
    requires id in s.works && id in m.works && m.works == s.works[id := m.works[id]]
    ensures CountsOnlyEnd(s, Cleaned(cfg, m, id))
  {
    hide LeavePlace, Release, CountsOnlyEnd;
    var closed := m.(works := m.works[id := m.works[id].(phase := Answering, streams := false)]);
    LeavePlaceIs(cfg, closed, id);
    ReleaseIs(LeavePlace(cfg, closed, id), id);
    ClosedCounts(s, closed.works, id);
  }

  lemma ClosedCounts(s: State, closed: map<Id, Work>, id: Id)
    requires id in s.works && id in closed && closed == s.works[id := closed[id]] && !InCount(closed[id])
    ensures forall r: State :: r.works == closed || r.works == closed - {id} ==> CountsOnlyEnd(s, r)
  {
  }

  lemma ReleaseCounts(s: State, id: Id)
    ensures CountsOnlyEnd(s, Release(s, id))
  {
    hide Release;
    ReleaseIs(s, id);
  }

  lemma HandlerCounts(cfg: Config, s: State, e: Event)
    requires e.Wake? || e.Closed? || e.Answered?
    ensures CountsOnlyEnd(s, Next(cfg, s, e))
  {
    hide Cleaned, Release, CountsOnlyEnd;
    CountsStay(s);
    if e.id in s.works {
      CleanedCounts(cfg, s, s, e.id);
      ReleaseCounts(s, e.id);
      ClosedCounts(s, s.works[e.id := s.works[e.id].(phase := Closing)], e.id);
    }
  }

  lemma StopCounts(cfg: Config, s: State, m: State, id: Id, reason: Reason)
    requires Core(cfg, m) && CountsOnlyEnd(s, m)
    requires forall j :: j in m.works ==> j in s.works && m.works[j].(leaving := false) == s.works[j].(leaving := false)
    ensures CountsOnlyEnd(s, Stop(cfg, m, id, reason))
  {
    hide Core, Stop;
    StopKeeps(cfg, m, id, reason);
  }

  lemma CancelledCounts(cfg: Config, s: State, id: Id)
    requires Inv(cfg, s)
    ensures CountsOnlyEnd(s, Next(cfg, s, HandlerCancelled(id)))
  {
    hide Inv, Core, Cleaned, Stop, Release;
    CountsStay(s);
    if id in s.works {
      var m := s.(works := s.works[id := s.works[id].(leaving := true)]);
      LeavingKeeps(cfg, s, id);
      CoreOf(cfg, m);
      CleanedCounts(cfg, s, m, id);
      StopCounts(cfg, s, m, id, Shutdown);
      ReleaseCounts(s, id);
    }
  }

  lemma StopsStepCounts(cfg: Config, s: State, e: Event)
    requires Inv(cfg, s) && s.draining && (e.StopOne? || e.DeadlineFires? || e.EngineChanges? || e.Sleep? || e.Drain?)
    ensures CountsOnlyEnd(s, Next(cfg, s, e))
  {
    hide Inv, Stop, StopAll, OnlyStops, CountsOnlyEnd, Core;
    CountsStay(s);
    CoreOf(cfg, s);
    match e
    case StopOne(id, reason) =>
      StopKeeps(cfg, s, id, reason);
      StopsKeepCounts(s, Next(cfg, s, e));
    case DeadlineFires(order) =>
      var m := s.(deadline := None);
      OtherFields(cfg, s, m);
      StopAllKeeps(cfg, m, order, Draining);
      StopsKeepCounts(m, StopAll(cfg, m, order, Draining));
      SameWorks(s, m, StopAll(cfg, m, order, Draining));
    case EngineChanges(order) =>
      var m := s.(engineChanged := true, engine := EngineFailed);
      OtherFields(cfg, s, m);
      StopAllKeeps(cfg, m, order, EngineChanged);
      StopsKeepCounts(m, StopAll(cfg, m, order, EngineChanged));
      SameWorks(s, m, StopAll(cfg, m, order, EngineChanged));
    case _ =>
  }

  lemma SameWorks(s: State, m: State, r: State)
    requires m.works == s.works && CountsOnlyEnd(m, r)
    ensures CountsOnlyEnd(s, r)
  {
  }

  lemma GrantedCounts(cfg: Config, s: State, e: Event)
    requires e.CountGranted? || e.PlaceGranted?
    ensures CountsOnlyEnd(s, Next(cfg, s, e))
  {
    hide EndTask, EnterCount, EnterPlace, LeaveCount, Cleaned, Release, Stop, StopAll, Close;
  }

  lemma ServiceCounts(cfg: Config, s: State, e: Event)
    requires s.draining
    requires e.Accept? || e.Open? || e.EngineAnswers? || e.EngineFails? || e.Tick? || e.SleeperResumes?
    ensures CountsOnlyEnd(s, Next(cfg, s, e))
  {
    hide EndTask, EnterCount, EnterPlace, LeaveCount, Cleaned, Release, Stop, StopAll, Close, CountsOnlyEnd;
    CountsStay(s);
  }

  /** No step of a drain brings a work to the counts, or to its count unless it was not stopped. */
  lemma DrainStepCounts(cfg: Config, s: State, e: Event)
    requires Inv(cfg, s) && s.draining
    ensures CountsOnlyEnd(s, Next(cfg, s, e))
  {
    hide Inv, CountsOnlyEnd, Next;
    match e
    case Start(_) => TaskCounts(cfg, s, e);
    case CountAnswered(_, _, _) => TaskCounts(cfg, s, e);
    case StreamEnded(_) => TaskCounts(cfg, s, e);
    case CancelLands(_) => TaskCounts(cfg, s, e);
    case EngineAnswered(_, _) => TaskCounts(cfg, s, e);
    case Wake(_) => HandlerCounts(cfg, s, e);
    case Closed(_) => HandlerCounts(cfg, s, e);
    case Answered(_) => HandlerCounts(cfg, s, e);
    case HandlerCancelled(id) => CancelledCounts(cfg, s, id);
    case StopOne(_, _) => StopsStepCounts(cfg, s, e);
    case DeadlineFires(_) => StopsStepCounts(cfg, s, e);
    case EngineChanges(_) => StopsStepCounts(cfg, s, e);
    case Sleep(_) => StopsStepCounts(cfg, s, e);
    case Drain(_) => StopsStepCounts(cfg, s, e);
    case CountGranted(_) => GrantedCounts(cfg, s, e);
    case PlaceGranted(_) => GrantedCounts(cfg, s, e);
    case _ => ServiceCounts(cfg, s, e);
  }

  // ----- Whole drains

  /** A work at its count, or in line for it and not stopped. */
  predicate MayCount(s: State, id: Id) {
    id in s.works && InCount(s.works[id]) && (s.works[id].phase.CountWait? ==> s.works[id].stop.None?)
  }

  lemma MayCountBefore(s: State, r: State, id: Id)
    requires CountsOnlyEnd(s, r) && MayCount(r, id)
    ensures MayCount(s, id)
  {
  }

  lemma {:induction false} MayCountThen(cfg: Config, events: seq<Event>, i: nat, id: Id)
    requires i <= |events| && Gateway.Run(cfg, events[..i]).draining && Gateway.Run(cfg, events).draining
    requires Gateway.Run(cfg, events[..i]).generation == Gateway.Run(cfg, events).generation
    requires MayCount(Gateway.Run(cfg, events), id)
    ensures MayCount(Gateway.Run(cfg, events[..i]), id)
  {
    hide Inv, Next, MayCount, CountsOnlyEnd;
    if i == |events| {
      assert events[..i] == events;
    } else {
      var before := events[..|events| - 1];
      assert before[..i] == events[..i];
      RunKeeps(cfg, before);
      DrainsAndOpens(cfg, Gateway.Run(cfg, before), events[|events| - 1]);
      GenerationGrows(cfg, before, i);
      DrainStepCounts(cfg, Gateway.Run(cfg, before), events[|events| - 1]);
      MayCountBefore(Gateway.Run(cfg, before), Gateway.Run(cfg, events), id);
      MayCountThen(cfg, before, i, id);
    }
  }

  /** What a drain leaves of the counts: one that is still open held its count place at the start, and then either ran
      already, or is a count request of ours that had just been granted its place. One that nobody has stopped is a
      count request of ours; a generation's own count goes on only until its cancellation lands. */
  lemma EngineCountsAreOld(cfg: Config, events: seq<Event>, i: nat, id: Id)
    requires i <= |events| && Gateway.Run(cfg, events[..i]).draining && Gateway.Run(cfg, events).draining
    requires Gateway.Run(cfg, events[..i]).generation == Gateway.Run(cfg, events).generation
    requires id in Gateway.Run(cfg, events).works && Gateway.Run(cfg, events).works[id].phase.Counting?
    ensures var s := Gateway.Run(cfg, events[..i]);
            && id in s.works && id in s.countTickets && s.countTickets[id] in s.counts.active
            && (s.works[id].phase.Counting? || (s.works[id].kind.Count? && s.works[id].owner.None?))
    ensures var w := Gateway.Run(cfg, events).works[id];
            w.stop.None? ==> w.kind.Count? && w.owner.None?
  {
    hide PoolsOk, LifeOk, Next;
    RunKeeps(cfg, events);
    RunKeeps(cfg, events[..i]);
    assert Fits(Gateway.Run(cfg, events), id);
    MayCountThen(cfg, events, i, id);
    assert Fits(Gateway.Run(cfg, events[..i]), id);
  }
}
