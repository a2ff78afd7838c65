/** What every run of the gateway keeps. */
module GatewayProofs {

  import opened Wrappers
  import opened PlaceRules
  import CountRules
  import opened Gateway

  // ----- The invariant

  /** The tickets of a pool are exactly the ones its works hold, one each. */
  ghost predicate Bound(held: map<Id, Tag>, tickets: set<Tag>) {
    && held.Values == tickets
    && forall i, j :: i in held && j in held && held[i] == held[j] ==> i == j
  }

  /** A work and its places fit its phase: an open engine request holds a place, an engine count a count place. */
  ghost predicate Fits(s: State, id: Id)
    requires id in s.works
  {
    var w := s.works[id];
    && (id in s.countTickets <==> w.phase.CountWait? || w.phase.Counting?)
    && (w.phase.Counting? ==> s.countTickets[id] in s.counts.active)
    && (id in s.tickets ==> w.kind == Generation && s.tickets[id].cls == w.cls && s.tickets[id].owner == w.owner)
    && (id in s.countTickets ==> s.countTickets[id].cls == w.cls && s.countTickets[id].owner == w.owner)
    && (id in s.tickets ==> w.phase.GenWait? || s.tickets[id] in s.places.active)
    && (id in s.tickets && w.stop.Some? ==> s.tickets[id] in s.places.active)
    && (w.phase.GenWait? && w.stop.None? ==> id in s.tickets)
    && (w.phase.Starting? ==> id in s.tickets)
    && (w.streams ==> id in s.tickets && (w.phase.Streaming? || w.phase.Ended? || w.phase.Closing?))
    && (w.phase.Streaming? || w.phase.Closing? ==> w.streams)
    && (w.phase.Created? || w.phase.CountWait? || w.phase.Counting? || w.phase.Answering? ==> id !in s.tickets)
  }

  ghost predicate AllFit(s: State) {
    forall id :: id in s.works ==> Fits(s, id)
  }

  ghost predicate PoolsOk(cfg: Config, s: State) {
    && PlaceRules.Good(cfg, s.places, s.nextTicket)
    && CountRules.Good(cfg, s.counts, s.nextCount)
    && Bound(s.tickets, Tickets(s.places)) && s.tickets.Keys <= s.works.Keys
    && Bound(s.countTickets, Tickets(s.counts)) && s.countTickets.Keys <= s.works.Keys
  }

  /** While a drain is on, work that is not stopped is ours, and the engine has it or its task is done. */
  ghost predicate DrainOk(s: State) {
    s.draining ==> forall id :: id in s.works && s.works[id].stop.None? ==>
      !Outside(s.works[id]) && (s.works[id].phase.TaskRuns() ==> Active(s, id))
  }

  ghost predicate LifeOk(s: State) {
    && (s.deadline.Some? ==> s.draining && s.deadline.value == s.generation)
    && (s.sleepRequested ==> s.draining)
    && (s.sleepRequested <==> !s.sleeper.NoSleep?)
    && (s.noWork <==> s.works == map[])
    && (s.sleeper.Waits? ==> !s.noWork && s.sleeper.since <= s.now)
    && (s.sleeper.Wakes? || (s.sleeper.Stops? && !s.sleeper.late) ==> s.works == map[])
  }

  ghost predicate Inv(cfg: Config, s: State) {
    PoolsOk(cfg, s) && AllFit(s) && DrainOk(s) && LifeOk(s)
  }

  // ----- Bindings

  lemma BoundDrop(held: map<Id, Tag>, tickets: set<Tag>, id: Id)
    requires Bound(held, tickets) && id in held
    ensures Bound(held - {id}, tickets - {held[id]})
    ensures held[id] in tickets
  {
    var after := held - {id};
    forall t | t in tickets - {held[id]}
      ensures t in after.Values
    {
      var i :| i in held && held[i] == t;
      assert i in after && after[i] == t;
    }
  }

  lemma BoundAdd(held: map<Id, Tag>, tickets: set<Tag>, id: Id, t: Tag)
    requires Bound(held, tickets) && id !in held && t !in tickets
    ensures Bound(held[id := t], tickets + {t})
  {
    var after := held[id := t];
    forall u | u in tickets + {t}
      ensures u in after.Values
    {
      if u == t {
        assert after[id] == t;
      } else {
        var i :| i in held && held[i] == u;
        assert after[i] == u;
      }
    }
    forall u | u in after.Values
      ensures u in tickets + {t}
    {
      var i :| i in after && after[i] == u;
      assert i == id || held[i] in held.Values;
    }
    forall i, j | i in after && j in after && after[i] == after[j]
      ensures i == j
    {
      assert i == id || held[i] in held.Values;
      assert j == id || held[j] in held.Values;
    }
  }

  lemma HeldIn(held: map<Id, Tag>, tickets: set<Tag>, id: Id)
    requires Bound(held, tickets) && id in held
    ensures held[id] in tickets
  {
  }

  // ----- One work at a time

  /** Two states differ in the work `id` at most: every other work is as it was, with its places, and no active place
      was lost. */
  ghost predicate Alike(s: State, r: State, id: Id) {
    && (forall j :: j != id ==> (j in r.works <==> j in s.works) && (j in r.tickets <==> j in s.tickets)
                                && (j in r.countTickets <==> j in s.countTickets))
    && (forall j :: j in s.works && j in r.works && j != id ==> r.works[j] == s.works[j])
    && (forall j :: j in s.tickets && j in r.tickets && j != id ==>
          r.tickets[j] == s.tickets[j] && (s.tickets[j] in s.places.active ==> s.tickets[j] in r.places.active))
    && (forall j :: j in s.countTickets && j in r.countTickets && j != id ==>
          && r.countTickets[j] == s.countTickets[j]
          && (s.countTickets[j] in s.counts.active ==> s.countTickets[j] in r.counts.active))
  }

  lemma AlikeChains(s: State, m: State, r: State, id: Id)
    requires Alike(s, m, id) && Alike(m, r, id)
    ensures Alike(s, r, id)
  {
  }

  lemma OthersFit(s: State, r: State, id: Id, j: Id)
    requires AllFit(s) && Alike(s, r, id) && j in r.works && j != id
    ensures j in s.works && Fits(r, j)
    ensures r.works[j].stop.None? && Active(s, j) ==> Active(r, j)
  {
    assert Fits(s, j);
  }

  /** Drain, sleep and the clock are untouched, and so is whether there is work. */
  ghost predicate SameLife(s: State, r: State) {
    && r.draining == s.draining && r.generation == s.generation && r.deadline == s.deadline
    && r.sleepRequested == s.sleepRequested && r.noWork == s.noWork && r.sleeper == s.sleeper && r.now == s.now
    && (r.works == map[] <==> s.works == map[])
  }

  /** A step of one work keeps the invariant once its own part is shown. */
  lemma OneWorkKeeps(cfg: Config, s: State, r: State, id: Id)
    requires Inv(cfg, s) && PoolsOk(cfg, r) && Alike(s, r, id) && SameLife(s, r)
    requires id in r.works ==> Fits(r, id)
    requires s.draining && id in r.works && r.works[id].stop.None? ==>
               !Outside(r.works[id]) && (r.works[id].phase.TaskRuns() ==> Active(r, id))
    ensures Inv(cfg, r)
  {
    hide PoolsOk, Fits, Alike, Active;
    forall j | j in r.works && j != id
      ensures Fits(r, j)
      ensures s.draining && r.works[j].stop.None? ==>
                !Outside(r.works[j]) && (r.works[j].phase.TaskRuns() ==> Active(r, j))
    {
      OthersFit(s, r, id, j);
      SameWork(s, r, id, j);
    }
  }

  lemma SameWork(s: State, r: State, id: Id, j: Id)
    requires Alike(s, r, id) && j in r.works && j != id
    ensures j in s.works && r.works[j] == s.works[j]
  {
  }

  // ----- The pools

  lemma LeavePlaceKeeps(cfg: Config, s: State, id: Id)
    requires PoolsOk(cfg, s)
    ensures PoolsOk(cfg, LeavePlace(cfg, s, id)) && Alike(s, LeavePlace(cfg, s, id), id)
    ensures id !in LeavePlace(cfg, s, id).tickets
  {
    hide Good, CountRules.Good, PlaceRules.Leave, Tickets;
    if id in s.tickets {
      LeaveKeeps(cfg, s.places, s.tickets[id], s.nextTicket);
      BoundDrop(s.tickets, Tickets(s.places), id);
    }
  }

  lemma LeaveCountKeeps(cfg: Config, s: State, id: Id)
    requires PoolsOk(cfg, s)
    ensures PoolsOk(cfg, LeaveCount(cfg, s, id)) && Alike(s, LeaveCount(cfg, s, id), id)
    ensures id !in LeaveCount(cfg, s, id).countTickets
  {
    hide Good, CountRules.Good, CountRules.Leave, Tickets;
    if id in s.countTickets {
      CountRules.LeaveKeeps(cfg, s.counts, s.countTickets[id], s.nextCount);
      BoundDrop(s.countTickets, Tickets(s.counts), id);
    }
  }

  lemma SetWorkKeeps(cfg: Config, s: State, id: Id, w: Work)
    requires PoolsOk(cfg, s) && id in s.works
    ensures PoolsOk(cfg, s.(works := s.works[id := w])) && Alike(s, s.(works := s.works[id := w]), id)
  {
    hide Good, CountRules.Good, Tickets, Bound;
  }

  lemma EndTaskKeeps(cfg: Config, s: State, id: Id)
    requires PoolsOk(cfg, s) && id in s.works
    ensures PoolsOk(cfg, EndTask(cfg, s, id)) && Alike(s, EndTask(cfg, s, id), id) && SameLife(s, EndTask(cfg, s, id))
    ensures var r := EndTask(cfg, s, id);
            && id in r.works && r.works[id] == s.works[id].(phase := Ended) && id !in r.countTickets
            && r.tickets == s.tickets && r.places == s.places
  {
    hide PoolsOk, Alike, CountRules.Leave;
    LeaveCountKeeps(cfg, s, id);
    var left := LeaveCount(cfg, s, id);
    SetWorkKeeps(cfg, left, id, s.works[id].(phase := Ended));
    AlikeChains(s, left, EndTask(cfg, s, id), id);
  }

  // ----- The task's steps

  lemma EnterCountKeeps(cfg: Config, s: State, id: Id)
    requires Inv(cfg, s) && TaskCanStep(s, id, Created)
    ensures Inv(cfg, EnterCount(cfg, s, id))
  {
    hide PoolsOk, CountRules.Enter, Alike, EnterCount;
    assert Fits(s, id);
    EnterCountPool(cfg, s, id);
    OneWorkKeeps(cfg, s, EnterCount(cfg, s, id), id);
  }

  /** The request was refused a count place, or has one and the engine counts, or waits. */
  ghost predicate EnteredCount(s: State, r: State, id: Id)
    requires id in s.works
  {
    && id in r.works && r.tickets == s.tickets
    && if id in r.countTickets
       then && r.countTickets[id].cls == s.works[id].cls && r.countTickets[id].owner == s.works[id].owner
            && var counts := r.countTickets[id] in r.counts.active;
               r.works[id] == s.works[id].(phase := if counts then Counting else CountWait)
       else r.works[id] == s.works[id].(phase := Ended)
  }

  lemma EnterCountPool(cfg: Config, s: State, id: Id)
    requires PoolsOk(cfg, s) && id in s.works && id !in s.countTickets
    ensures PoolsOk(cfg, EnterCount(cfg, s, id)) && Alike(s, EnterCount(cfg, s, id), id)
    ensures SameLife(s, EnterCount(cfg, s, id)) && EnteredCount(s, EnterCount(cfg, s, id), id)
  {
    hide PoolsOk, CountRules.Enter, Alike, EnterCount;
    var t := Tag(s.nextCount, s.works[id].cls, s.works[id].owner);
    if CountRules.Enter(cfg, s.counts, t).None? {
      CountRefused(cfg, s, id, t);
    } else {
      CountTaken(cfg, s, id, t);
    }
  }

  lemma CountRefused(cfg: Config, s: State, id: Id, t: Tag)
    requires PoolsOk(cfg, s) && id in s.works && id !in s.countTickets
    requires t == Tag(s.nextCount, s.works[id].cls, s.works[id].owner) && CountRules.Enter(cfg, s.counts, t).None?
    ensures PoolsOk(cfg, EnterCount(cfg, s, id)) && Alike(s, EnterCount(cfg, s, id), id)
    ensures SameLife(s, EnterCount(cfg, s, id)) && EnteredCount(s, EnterCount(cfg, s, id), id)
  {
    hide Good, CountRules.Good, CountRules.Enter, Tickets, Bound, Alike, EndTask;
    var numbered := s.(nextCount := s.nextCount + 1);
    CountRules.GoodLater(cfg, s.counts, s.nextCount);
    EndTaskKeeps(cfg, numbered, id);
    AlikeRefl(s, numbered, id);
    AlikeChains(s, numbered, EndTask(cfg, numbered, id), id);
  }

  lemma CountTaken(cfg: Config, s: State, id: Id, t: Tag)
    requires PoolsOk(cfg, s) && id in s.works && id !in s.countTickets
    requires t == Tag(s.nextCount, s.works[id].cls, s.works[id].owner) && CountRules.Enter(cfg, s.counts, t).Some?
    ensures PoolsOk(cfg, EnterCount(cfg, s, id)) && Alike(s, EnterCount(cfg, s, id), id)
    ensures SameLife(s, EnterCount(cfg, s, id)) && EnteredCount(s, EnterCount(cfg, s, id), id)
  {
    hide Good, CountRules.Good, CountRules.Enter, Tickets, Bound, Alike;
    CountRules.EnterKeeps(cfg, s.counts, t);
    NewCount(cfg, s, t);
    BoundAdd(s.countTickets, Tickets(s.counts), id, t);
    CountEntered(s, EnterCount(cfg, s, id), id);
  }

  lemma AlikeRefl(s: State, r: State, id: Id)
    requires r.works == s.works && r.tickets == s.tickets && r.countTickets == s.countTickets
    requires s.places.active <= r.places.active && s.counts.active <= r.counts.active
    ensures Alike(s, r, id)
  {
  }

  lemma CountEntered(s: State, r: State, id: Id)
    requires r.tickets == s.tickets && r.places == s.places && s.counts.active <= r.counts.active
    requires id in r.works && r.works == s.works[id := r.works[id]]
    requires id in r.countTickets && r.countTickets == s.countTickets[id := r.countTickets[id]]
    ensures Alike(s, r, id)
  {
  }

  lemma PlaceEntered(s: State, r: State, id: Id)
    requires r.countTickets == s.countTickets && r.counts == s.counts && s.places.active <= r.places.active
    requires id in r.works && r.works == s.works[id := r.works[id]]
    requires id in r.tickets && r.tickets == s.tickets[id := r.tickets[id]]
    ensures Alike(s, r, id)
  {
  }

  lemma NewCount(cfg: Config, s: State, t: Tag)
    requires CountRules.Good(cfg, s.counts, t.id)
    ensures t !in Tickets(s.counts)
  {
    WaitingIs(s.counts, t.id);
  }

  lemma NewPlace(cfg: Config, s: State, t: Tag)
    requires Good(cfg, s.places, t.id)
    ensures t !in Tickets(s.places)
  {
    WaitingIs(s.places, t.id);
  }

  /** The generation was refused a place, or has one and calls the engine, or waits. */
  ghost predicate EnteredPlace(m: State, r: State, id: Id)
    requires id in m.works
  {
    && id in r.works && id !in r.countTickets
    && if id in r.tickets
       then && r.tickets[id].cls == m.works[id].cls && r.tickets[id].owner == m.works[id].owner
            && r.works[id] == m.works[id].(phase := if r.tickets[id] in r.places.active then Starting else GenWait)
       else r.works[id] == m.works[id].(phase := Ended)
  }

  lemma EnterPlacePool(cfg: Config, m: State, id: Id)
    requires PoolsOk(cfg, m) && id in m.works && id !in m.tickets && id !in m.countTickets
    ensures PoolsOk(cfg, EnterPlace(cfg, m, id)) && Alike(m, EnterPlace(cfg, m, id), id)
    ensures SameLife(m, EnterPlace(cfg, m, id)) && EnteredPlace(m, EnterPlace(cfg, m, id), id)
  {
    hide PoolsOk, PlaceRules.Enter, Alike, EnterPlace;
    var t := Tag(m.nextTicket, m.works[id].cls, m.works[id].owner);
    if PlaceRules.Enter(cfg, m.places, t).None? {
      PlaceRefused(cfg, m, id, t);
    } else {
      PlaceTaken(cfg, m, id, t);
    }
  }

  lemma PlaceRefused(cfg: Config, m: State, id: Id, t: Tag)
    requires PoolsOk(cfg, m) && id in m.works && id !in m.tickets && id !in m.countTickets
    requires t == Tag(m.nextTicket, m.works[id].cls, m.works[id].owner) && PlaceRules.Enter(cfg, m.places, t).None?
    ensures PoolsOk(cfg, EnterPlace(cfg, m, id)) && Alike(m, EnterPlace(cfg, m, id), id)
    ensures SameLife(m, EnterPlace(cfg, m, id)) && EnteredPlace(m, EnterPlace(cfg, m, id), id)
  {
    hide Good, CountRules.Good, PlaceRules.Enter, Tickets, Bound, Alike, EndTask;
    var numbered := m.(nextTicket := m.nextTicket + 1);
    GoodLater(cfg, m.places, m.nextTicket);
    EndTaskKeeps(cfg, numbered, id);
    AlikeRefl(m, numbered, id);
    AlikeChains(m, numbered, EndTask(cfg, numbered, id), id);
  }

  lemma PlaceTaken(cfg: Config, m: State, id: Id, t: Tag)
    requires PoolsOk(cfg, m) && id in m.works && id !in m.tickets && id !in m.countTickets
    requires t == Tag(m.nextTicket, m.works[id].cls, m.works[id].owner) && PlaceRules.Enter(cfg, m.places, t).Some?
    ensures PoolsOk(cfg, EnterPlace(cfg, m, id)) && Alike(m, EnterPlace(cfg, m, id), id)
    ensures SameLife(m, EnterPlace(cfg, m, id)) && EnteredPlace(m, EnterPlace(cfg, m, id), id)
  {
    hide Good, CountRules.Good, PlaceRules.Enter, Tickets, Bound, Alike;
    EnterKeeps(cfg, m.places, t);
    NewPlace(cfg, m, t);
    BoundAdd(m.tickets, Tickets(m.places), id, t);
    PlaceEntered(m, EnterPlace(cfg, m, id), id);
  }

  lemma EnterPlaceKeeps(cfg: Config, s: State, m: State, id: Id)
    requires Inv(cfg, s) && !s.draining && PoolsOk(cfg, m) && Alike(s, m, id) && SameLife(s, m)
    requires id in s.works && m.works == s.works && id !in m.countTickets && id !in m.tickets
    requires s.works[id].stop.None? && s.works[id].kind == Generation && !s.works[id].streams
    ensures Inv(cfg, EnterPlace(cfg, m, id))
  {
    hide PoolsOk, EnterPlace, Alike;
    EnterPlacePool(cfg, m, id);
    var r := EnterPlace(cfg, m, id);
    AlikeChains(s, m, r, id);
    OneWorkKeeps(cfg, s, r, id);
  }

  lemma TaskEndsKeeps(cfg: Config, s: State, id: Id)
    requires Inv(cfg, s) && id in s.works && s.works[id].phase.TaskRuns()
    requires id in s.tickets ==> s.tickets[id] in s.places.active
    ensures Inv(cfg, EndTask(cfg, s, id))
  {
    hide PoolsOk, Alike, CountRules.Leave;
    assert Fits(s, id);
    EndTaskKeeps(cfg, s, id);
    OneWorkKeeps(cfg, s, EndTask(cfg, s, id), id);
  }

  lemma CountAnsweredKeeps(cfg: Config, s: State, id: Id, ok: bool, fits: bool)
    requires Inv(cfg, s)
    ensures Inv(cfg, Next(cfg, s, CountAnswered(id, ok, fits)))
  {
    hide PoolsOk, Alike, CountRules.Leave, PlaceRules.Enter;
    if TaskCanStep(s, id, Counting) {
      assert Fits(s, id);
      if !ok || !fits || s.works[id].kind == Count {
        TaskEndsKeeps(cfg, s, id);
      } else {
        assert !Active(s, id);
        LeaveCountKeeps(cfg, s, id);
        EnterPlaceKeeps(cfg, s, LeaveCount(cfg, s, id), id);
      }
    }
  }

  /** A step that only moves the work's phase on. */
  lemma MoveOnKeeps(cfg: Config, s: State, id: Id, w: Work)
    requires Inv(cfg, s) && id in s.works && Fits(s.(works := s.works[id := w]), id)
    requires w.stop == s.works[id].stop && w.owner == s.works[id].owner && w.kind == s.works[id].kind
    requires w.phase.TaskRuns() ==> s.works[id].phase.TaskRuns()
    ensures Inv(cfg, s.(works := s.works[id := w]))
  {
    hide PoolsOk, Fits, Alike;
    SetWorkKeeps(cfg, s, id, w);
    OneWorkKeeps(cfg, s, s.(works := s.works[id := w]), id);
  }

  lemma GrantStepKeeps(cfg: Config, s: State, e: Event)
    requires Inv(cfg, s) && (e.CountGranted? || e.PlaceGranted?)
    ensures Inv(cfg, Next(cfg, s, e))
  {
    hide PoolsOk, Alike, EndTask;
    if e.id in s.works && Next(cfg, s, e) != s {
      assert Fits(s, e.id);
      MoveOnKeeps(cfg, s, e.id, s.works[e.id].(phase := if e.CountGranted? then Counting else Starting));
    }
  }

  lemma EngineStepKeeps(cfg: Config, s: State, e: Event)
    requires Inv(cfg, s) && (e.EngineAnswered? || e.StreamEnded? || e.CancelLands?)
    ensures Inv(cfg, Next(cfg, s, e))
  {
    hide PoolsOk, Alike, EndTask;
    if e.id in s.works && Next(cfg, s, e) != s {
      assert Fits(s, e.id);
      if e.EngineAnswered? && e.ok {
        MoveOnKeeps(cfg, s, e.id, s.works[e.id].(phase := Streaming, streams := true));
      } else {
        TaskEndsKeeps(cfg, s, e.id);
      }
    }
  }

  // ----- The handler's steps

  lemma ReleasePool(cfg: Config, m: State, id: Id)
    requires PoolsOk(cfg, m) && id !in m.tickets && id !in m.countTickets
    ensures PoolsOk(cfg, Release(m, id)) && Alike(m, Release(m, id), id)
  {
    hide Good, CountRules.Good, Tickets, Bound;
  }

  lemma ReleaseKeeps(cfg: Config, s: State, m: State, id: Id)
    requires Inv(cfg, s) && PoolsOk(cfg, m) && Alike(s, m, id) && SameLife(s, m)
    requires id in m.works && id in s.works && id !in m.tickets && id !in m.countTickets
    ensures Inv(cfg, Release(m, id))
  {
    hide PoolsOk, Fits, Active, Alike;
    var r := Release(m, id);
    ReleasePool(cfg, m, id);
    AlikeChains(s, m, r, id);
    forall j | j in r.works
      ensures Fits(r, j)
      ensures s.draining && r.works[j].stop.None? ==>
                !Outside(r.works[j]) && (r.works[j].phase.TaskRuns() ==> Active(r, j))
    {
      OthersFit(s, r, id, j);
      SameWork(s, r, id, j);
    }
  }

  lemma CleanedKeeps(cfg: Config, s: State, m: State, id: Id)
    requires Inv(cfg, s) && id in s.works && (s.works[id].phase.Ended? || s.works[id].phase.Closing?)
    requires m == s || m == s.(works := s.works[id := s.works[id].(leaving := true)])
    ensures Inv(cfg, Cleaned(cfg, m, id))
  {
    hide PoolsOk, Alike, PlaceRules.Leave;
    assert Fits(s, id);
    var w := m.works[id].(phase := Answering, streams := false);
    var closed := m.(works := m.works[id := w]);
    assert closed == s.(works := s.works[id := w]);
    SetWorkKeeps(cfg, s, id, w);
    LeavePlaceKeeps(cfg, closed, id);
    var left := LeavePlace(cfg, closed, id);
    AlikeChains(s, closed, left, id);
    if m.works[id].leaving {
      ReleaseKeeps(cfg, s, left, id);
    } else {
      OneWorkKeeps(cfg, s, left, id);
    }
  }

  // ----- Stops

  /** All but the drain's rule, which a drain's own loop is still on its way to. */
  ghost predicate Core(cfg: Config, s: State) {
    PoolsOk(cfg, s) && AllFit(s)
  }

  /** What stops alone may change: more work is stopped, and stopped work has left the line. */
  ghost predicate OnlyStops(s: State, r: State) {
    && r.works.Keys == s.works.Keys
    && (forall id :: id in s.works ==>
          && r.works[id] == s.works[id].(stop := r.works[id].stop)
          && (s.works[id].stop.Some? ==> r.works[id].stop == s.works[id].stop)
          && (r.works[id].stop.None? && id in s.tickets ==> id in r.tickets))
    && r.counts == s.counts && r.countTickets == s.countTickets && r.nextCount == s.nextCount
    && r.places.active == s.places.active && r.nextTicket == s.nextTicket
    && (forall id :: id in r.tickets ==> id in s.tickets && r.tickets[id] == s.tickets[id])
    && SameLife(s, r) && r.engine == s.engine && r.engineChanged == s.engineChanged
  }

  lemma StopKeeps(cfg: Config, s: State, id: Id, reason: Reason)
    requires Core(cfg, s)
    ensures Core(cfg, Stop(cfg, s, id, reason)) && OnlyStops(s, Stop(cfg, s, id, reason))
    ensures id in s.works ==> Stop(cfg, s, id, reason).works[id].stop.Some?
  {
    hide PoolsOk, AllFit, Alike, OnlyStops, Stop;
    if id in s.works && s.works[id].stop.None? {
      var r := Stop(cfg, s, id, reason);
      if s.works[id].phase.TaskRuns() && id in s.tickets && s.places.line.Has(s.tickets[id]) {
        StopInLine(cfg, s, id, reason);
      } else {
        StopElsewhere(cfg, s, id, reason);
      }
    } else {
      StopsNothing(cfg, s, id, reason);
    }
  }

  lemma StopsNothing(cfg: Config, s: State, id: Id, reason: Reason)
    requires id in s.works ==> s.works[id].stop.Some?
    ensures Stop(cfg, s, id, reason) == s && OnlyStops(s, s)
  {
  }

  lemma StopElsewhere(cfg: Config, s: State, id: Id, reason: Reason)
    requires Core(cfg, s) && id in s.works && s.works[id].stop.None?
    requires !(s.works[id].phase.TaskRuns() && id in s.tickets && s.places.line.Has(s.tickets[id]))
    ensures Core(cfg, Stop(cfg, s, id, reason)) && OnlyStops(s, Stop(cfg, s, id, reason))
    ensures id in Stop(cfg, s, id, reason).works && Stop(cfg, s, id, reason).works[id].stop.Some?
  {
    hide PoolsOk, Alike;
    assert Fits(s, id);
    var r := Stop(cfg, s, id, reason);
    SetWorkKeeps(cfg, s, id, s.works[id].(stop := Some(reason)));
    NotInLine(cfg, s, id);
    OneStopFits(s, r, id);
  }

  lemma OneStopFits(s: State, r: State, id: Id)
    requires AllFit(s) && Alike(s, r, id) && id in s.works && id in r.works && Fits(r, id)
    ensures AllFit(r)
  {
    hide Alike, Fits;
    forall j | j in r.works
      ensures Fits(r, j)
    {
      if j != id {
        OthersFit(s, r, id, j);
      }
    }
  }

  lemma StopInLine(cfg: Config, s: State, id: Id, reason: Reason)
    requires Core(cfg, s) && id in s.works && s.works[id].stop.None?
    requires s.works[id].phase.TaskRuns() && id in s.tickets && s.places.line.Has(s.tickets[id])
    ensures Core(cfg, Stop(cfg, s, id, reason)) && OnlyStops(s, Stop(cfg, s, id, reason))
    ensures id in Stop(cfg, s, id, reason).works && Stop(cfg, s, id, reason).works[id].stop.Some?
  {
    hide PoolsOk, Alike, PlaceRules.Leave;
    assert Fits(s, id);
    var stopped := s.(works := s.works[id := s.works[id].(stop := Some(reason))]);
    var r := Stop(cfg, s, id, reason);
    SetWorkKeeps(cfg, s, id, s.works[id].(stop := Some(reason)));
    LineLeft(cfg, s, id);
    LeavePlaceKeeps(cfg, stopped, id);
    AlikeChains(s, stopped, r, id);
    OneStopFits(s, r, id);
  }

  /** Leaving the line changes no active place. */
  lemma LineLeft(cfg: Config, s: State, id: Id)
    requires PoolsOk(cfg, s) && id in s.tickets && s.places.line.Has(s.tickets[id])
    ensures PlaceRules.Leave(cfg, s.places, s.tickets[id]).active == s.places.active
    ensures s.tickets[id] !in s.places.active
  {
    WithdrawalGrantsNothing(cfg, s.places, s.tickets[id], s.nextTicket);
  }

  lemma NotInLine(cfg: Config, s: State, id: Id)
    requires PoolsOk(cfg, s)
    ensures id in s.tickets && !s.places.line.Has(s.tickets[id]) ==> s.tickets[id] in s.places.active
  {
    if id in s.tickets {
      HeldIn(s.tickets, Tickets(s.places), id);
      WaitingIs(s.places, s.nextTicket);
    }
  }

  lemma OnlyStopsChains(s: State, m: State, r: State)
    requires OnlyStops(s, m) && OnlyStops(m, r)
    ensures OnlyStops(s, r)
  {
  }

  lemma {:induction false} StopAllKeeps(cfg: Config, s: State, order: seq<Id>, reason: Reason)
    requires Core(cfg, s)
    ensures Core(cfg, StopAll(cfg, s, order, reason)) && OnlyStops(s, StopAll(cfg, s, order, reason))
    ensures forall id :: id in order && id in s.works ==> StopAll(cfg, s, order, reason).works[id].stop.Some?
    decreases |order|
  {
    hide Core, Stop;
    if order != [] {
      var m := Stop(cfg, s, order[0], reason);
      StopKeeps(cfg, s, order[0], reason);
      StopAllKeeps(cfg, m, order[1..], reason);
      OnlyStopsChains(s, m, StopAll(cfg, s, order, reason));
    }
  }

  /** Work that is not stopped is as active as before. */
  lemma StaysActive(s: State, r: State, id: Id)
    requires OnlyStops(s, r) && id in r.works && r.works[id].stop.None? && Active(s, id)
    ensures Active(r, id)
  {
  }

  /** What a drain wants of work that it leaves running. */
  ghost predicate MayRun(s: State, id: Id)
    requires id in s.works
  {
    s.works[id].stop.None? ==> !Outside(s.works[id]) && (s.works[id].phase.TaskRuns() ==> Active(s, id))
  }

  lemma MayStillRun(s: State, r: State, id: Id)
    requires OnlyStops(s, r) && id in s.works && MayRun(s, id)
    ensures MayRun(r, id)
  {
  }

  lemma {:induction false} CloseLoopKeeps(cfg: Config, s: State, order: seq<Id>)
    requires Core(cfg, s)
    ensures Core(cfg, CloseLoop(cfg, s, order)) && OnlyStops(s, CloseLoop(cfg, s, order))
    ensures forall id :: id in order && id in s.works ==> MayRun(CloseLoop(cfg, s, order), id)
    decreases |order|
  {
    hide Core, Stop, MayRun, OnlyStops, IsWaiting;
    if order != [] {
      var id := order[0];
      var stop := id in s.works && (IsWaiting(s, id) || Outside(s.works[id]));
      var m := if stop then Stop(cfg, s, id, Draining) else s;
      StopKeeps(cfg, s, id, Draining);
      StopsNothingAtAll(s);
      if id in s.works {
        RunsOrStopped(cfg, s, id);
      }
      var r := CloseLoop(cfg, s, order);
      CloseLoopKeeps(cfg, m, order[1..]);
      OnlyStopsChains(s, m, r);
      SameKeys(s, m);
      SameKeys(s, r);
      if id in s.works {
        MayStillRun(m, r, id);
      }
    } else {
      StopsNothingAtAll(s);
    }
  }

  lemma SameKeys(s: State, r: State)
    requires OnlyStops(s, r)
    ensures r.works.Keys == s.works.Keys
  {
  }

  lemma StopsNothingAtAll(s: State)
    ensures OnlyStops(s, s)
  {
  }

  lemma RunsOrStopped(cfg: Config, s: State, id: Id)
    requires Core(cfg, s) && id in s.works
    ensures var m := if IsWaiting(s, id) || Outside(s.works[id]) then Stop(cfg, s, id, Draining) else s;
            id in m.works && MayRun(m, id)
  {
    StopKeeps(cfg, s, id, Draining);
  }

  // ----- The service's steps

  lemma CloseKeeps(cfg: Config, s: State, order: seq<Id>)
    requires Inv(cfg, s) && Lists(order, s.works)
    ensures Inv(cfg, Close(cfg, s, order)) && Close(cfg, s, order).draining
    ensures Close(cfg, s, order).generation == s.generation + (if s.draining then 0 else 1)
    ensures OnlyStopsOrDrains(s, Close(cfg, s, order))
  {
    hide PoolsOk, Fits, MayRun, CloseLoop, OnlyStops;
    if !s.draining {
      var begun := s.(draining := true, generation := s.generation + 1);
      DrainBegins(cfg, s, begun);
      CloseLoopKeeps(cfg, begun, order);
      var looped := CloseLoop(cfg, begun, order);
      var r := looped.(deadline := Some(begun.generation));
      DeadlineArmed(cfg, begun, looped, r);
    }
  }

  /** A close keeps the clock and the sleep, and what it does to the work is to stop some of it. */
  ghost predicate OnlyStopsOrDrains(s: State, r: State) {
    && r.sleepRequested == s.sleepRequested && r.sleeper == s.sleeper && r.now == s.now
    && r.noWork == s.noWork && r.works.Keys == s.works.Keys
    && r.places.active == s.places.active && r.counts == s.counts
  }

  lemma DrainBegins(cfg: Config, s: State, begun: State)
    requires Core(cfg, s) && begun == s.(draining := true, generation := s.generation + 1)
    ensures Core(cfg, begun)
  {
    hide Good, CountRules.Good, Bound;
    forall id | id in begun.works
      ensures Fits(begun, id)
    {
      assert Fits(s, id);
    }
  }

  lemma DeadlineArmed(cfg: Config, begun: State, looped: State, r: State)
    requires Core(cfg, looped) && OnlyStops(begun, looped) && LifeOk(begun.(deadline := None))
    requires begun.draining && r == looped.(deadline := Some(begun.generation))
    requires forall id :: id in begun.works ==> MayRun(looped, id)
    ensures Inv(cfg, r)
    ensures OnlyStopsOrDrains(begun, r) && r.generation == begun.generation
  {
    hide Good, CountRules.Good, Bound;
    forall id | id in r.works
      ensures Fits(r, id)
      ensures r.works[id].stop.None? ==> !Outside(r.works[id]) && (r.works[id].phase.TaskRuns() ==> Active(r, id))
    {
      assert Fits(looped, id) && MayRun(looped, id);
    }
  }

  lemma StopsKeep(cfg: Config, s: State, r: State)
    requires Inv(cfg, s) && Core(cfg, r) && OnlyStops(s, r)
    ensures Inv(cfg, r)
  {
    hide PoolsOk, Fits, Active;
    forall id | id in r.works && r.works[id].stop.None? && s.draining
      ensures !Outside(r.works[id]) && (r.works[id].phase.TaskRuns() ==> Active(r, id))
    {
      if r.works[id].phase.TaskRuns() {
        StaysActive(s, r, id);
      }
    }
  }

  /** Fields that no rule of the pools or phases reads. */
  lemma OtherFields(cfg: Config, s: State, r: State)
    requires Core(cfg, s)
    requires r.works == s.works && r.counts == s.counts && r.countTickets == s.countTickets && r.places == s.places
    requires r.tickets == s.tickets && r.nextCount == s.nextCount && r.nextTicket == s.nextTicket
    ensures Core(cfg, r)
    ensures forall id :: Active(s, id) == Active(r, id)
  {
    hide Good, CountRules.Good, Bound;
    forall id | id in r.works
      ensures Fits(r, id)
    {
      assert Fits(s, id);
    }
  }

  lemma CoreIs(cfg: Config, s: State)
    ensures Core(cfg, s) <==> PoolsOk(cfg, s) && AllFit(s)
  {
  }

  lemma AcceptKeeps(cfg: Config, s: State, id: Id, kind: Kind, cls: Class, owner: Option<Key>)
    requires Inv(cfg, s)
    ensures Inv(cfg, Next(cfg, s, Accept(id, kind, cls, owner)))
  {
    hide PoolsOk, Fits, Active, Alike;
    var r := Next(cfg, s, Accept(id, kind, cls, owner));
    if r != s {
      NewWorkFits(cfg, s, r, id);
      forall j | j in r.works && j != id
        ensures Fits(r, j)
      {
        OthersFit(s, r, id, j);
      }
    }
  }

  lemma NewWorkFits(cfg: Config, s: State, r: State, id: Id)
    requires PoolsOk(cfg, s) && id !in s.works && id in r.works && r.works[id].phase.Created? && !r.works[id].streams
    requires r == s.(works := s.works[id := r.works[id]], noWork := false)
    ensures PoolsOk(cfg, r) && Alike(s, r, id) && Fits(r, id)
  {
    hide Good, CountRules.Good, Bound, Tickets;
  }

  lemma ServiceStepKeeps(cfg: Config, s: State, e: Event)
    requires Inv(cfg, s) && (e.Open? || e.EngineAnswers? || e.EngineFails? || e.Tick? || e.SleeperResumes?)
    ensures Inv(cfg, Next(cfg, s, e))
  {
    hide PoolsOk, AllFit, Active, Core;
    CoreIs(cfg, s);
    CoreIs(cfg, Next(cfg, s, e));
    OtherFields(cfg, s, Next(cfg, s, e));
  }

  lemma StopStepKeeps(cfg: Config, s: State, e: Event)
    requires Inv(cfg, s) && (e.StopOne? || e.DeadlineFires? || e.EngineChanges?)
    ensures Inv(cfg, Next(cfg, s, e))
  {
    hide PoolsOk, AllFit, Stop, StopAll, OnlyStops, Active;
    var r := Next(cfg, s, e);
    match e
    case StopOne(id, reason) =>
      StopKeeps(cfg, s, id, reason);
      StopsKeep(cfg, s, r);
    case DeadlineFires(order) =>
      if r != s {
        var m := s.(deadline := None);
        OtherFields(cfg, s, m);
        StopAllKeeps(cfg, m, order, Draining);
        StopsKeep(cfg, m, r);
      }
    case EngineChanges(order) =>
      if r != s {
        var m := s.(engineChanged := true, engine := EngineFailed);
        OtherFields(cfg, s, m);
        StopAllKeeps(cfg, m, order, EngineChanged);
        StopsKeep(cfg, m, r);
      }
  }

  lemma SleepKeeps(cfg: Config, s: State, order: seq<Id>)
    requires Inv(cfg, s)
    ensures Inv(cfg, Next(cfg, s, Sleep(order)))
  {
    hide PoolsOk, AllFit, Close, Active;
    if !s.sleepRequested && Lists(order, s.works) {
      var closed := Close(cfg, s, order);
      CloseKeeps(cfg, s, order);
      var r := Next(cfg, s, Sleep(order));
      OtherFields(cfg, closed, r);
    }
  }

  lemma HandlerStepKeeps(cfg: Config, s: State, e: Event)
    requires Inv(cfg, s) && (e.Wake? || e.Closed? || e.Answered? || e.HandlerCancelled?)
    ensures Inv(cfg, Next(cfg, s, e))
  {
    hide PoolsOk, Alike, Cleaned, Release, Stop;
    if e.id in s.works {
      assert Fits(s, e.id);
      match e
      case Wake(id) =>
        if s.works[id].phase.Ended? {
          if s.works[id].streams {
            MoveOnKeeps(cfg, s, id, s.works[id].(phase := Closing));
          } else {
            CleanedKeeps(cfg, s, s, id);
          }
        }
      case Closed(id) =>
        if s.works[id].phase.Closing? {
          CleanedKeeps(cfg, s, s, id);
        }
      case Answered(id) =>
        if s.works[id].phase.Answering? {
          AlikeItself(s, id);
          ReleaseKeeps(cfg, s, s, id);
        }
      case HandlerCancelled(id) =>
        if !s.works[id].leaving {
          HandlerCancelledKeeps(cfg, s, id);
        }
    }
  }

  lemma AlikeItself(s: State, id: Id)
    ensures Alike(s, s, id)
  {
  }

  lemma HandlerCancelledKeeps(cfg: Config, s: State, id: Id)
    requires Inv(cfg, s) && id in s.works && !s.works[id].leaving
    ensures Inv(cfg, Next(cfg, s, HandlerCancelled(id)))
  {
    hide PoolsOk, Alike, Cleaned, Release, Stop;
    assert Fits(s, id);
    var leaving := s.(works := s.works[id := s.works[id].(leaving := true)]);
    match s.works[id].phase
    case Answering =>
      AlikeItself(s, id);
      ReleaseKeeps(cfg, s, s, id);
    case Closing =>
      CleanedKeeps(cfg, s, leaving, id);
    case Ended =>
      MoveOnKeeps(cfg, s, id, s.works[id].(leaving := true));
    case _ =>
      ShutdownKeeps(cfg, s, id);
  }

  lemma ShutdownKeeps(cfg: Config, s: State, id: Id)
    requires Inv(cfg, s) && id in s.works
    ensures Inv(cfg, Stop(cfg, s.(works := s.works[id := s.works[id].(leaving := true)]), id, Shutdown))
  {
    hide PoolsOk, AllFit, Stop, OnlyStops, Active;
    FitsLeaving(s, id);
    MoveOnKeeps(cfg, s, id, s.works[id].(leaving := true));
    var leaving := s.(works := s.works[id := s.works[id].(leaving := true)]);
    StopKeeps(cfg, leaving, id, Shutdown);
    StopsKeep(cfg, leaving, Stop(cfg, leaving, id, Shutdown));
  }

  lemma FitsLeaving(s: State, id: Id)
    requires AllFit(s) && id in s.works
    ensures Fits(s.(works := s.works[id := s.works[id].(leaving := true)]), id)
  {
    assert Fits(s, id);
  }

  /** Every step keeps the invariant. */
  lemma NextKeeps(cfg: Config, s: State, e: Event)
    requires Inv(cfg, s)
    ensures Inv(cfg, Next(cfg, s, e))
  {
    hide Inv, EnterCount;
    match e
    case Accept(id, kind, cls, owner) => AcceptKeeps(cfg, s, id, kind, cls, owner);
    case Start(id) =>
      if TaskCanStep(s, id, Created) {
        EnterCountKeeps(cfg, s, id);
      }
    case CountAnswered(id, ok, fits) => CountAnsweredKeeps(cfg, s, id, ok, fits);
    case CountGranted(_) => GrantStepKeeps(cfg, s, e);
    case PlaceGranted(_) => GrantStepKeeps(cfg, s, e);
    case EngineAnswered(_, _) => EngineStepKeeps(cfg, s, e);
    case StreamEnded(_) => EngineStepKeeps(cfg, s, e);
    case CancelLands(_) => EngineStepKeeps(cfg, s, e);
    case Wake(_) => HandlerStepKeeps(cfg, s, e);
    case Closed(_) => HandlerStepKeeps(cfg, s, e);
    case Answered(_) => HandlerStepKeeps(cfg, s, e);
    case HandlerCancelled(_) => HandlerStepKeeps(cfg, s, e);
    case Drain(order) =>
      if Lists(order, s.works) {
        CloseKeeps(cfg, s, order);
      }
    case Sleep(order) => SleepKeeps(cfg, s, order);
    case StopOne(_, _) => StopStepKeeps(cfg, s, e);
    case DeadlineFires(_) => StopStepKeeps(cfg, s, e);
    case EngineChanges(_) => StopStepKeeps(cfg, s, e);
    case _ => ServiceStepKeeps(cfg, s, e);
  }

  lemma {:induction false} RunKeeps(cfg: Config, events: seq<Event>)
    ensures Inv(cfg, Gateway.Run(cfg, events))
  {
    if events == [] {
      InitialOk(cfg);
    } else {
      RunKeeps(cfg, events[..|events| - 1]);
      NextKeeps(cfg, Gateway.Run(cfg, events[..|events| - 1]), events[|events| - 1]);
    }
  }

  lemma InitialOk(cfg: Config)
    ensures Inv(cfg, INITIAL)
  {
    hide Good, CountRules.Good;
    NoPlacesAreGood(cfg);
    CountRules.NoCountsAreGood(cfg);
  }
}
