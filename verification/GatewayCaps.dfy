/** The engine never has more than the caps allow, and a gateway without work holds nothing. */
module GatewayCaps {

  import opened Wrappers
  import opened PlaceRules
  import CountRules
  import opened Gateway
  import opened GatewayProofs

  /** The engine has a generation request of this work open: asked for, or streaming and not closed. */
  predicate HasEngineRequest(w: Work) {
    w.phase.Starting? || w.streams
  }

  function EngineRequests(s: State): set<Id> {
    set id | id in s.works && HasEngineRequest(s.works[id])
  }

  function OfClass(s: State, c: Class): set<Id> {
    set id | id in EngineRequests(s) && s.works[id].cls == c
  }

  function OfShared(s: State): set<Id> {
    set id | id in EngineRequests(s) && Shared(s.works[id].cls)
  }

  function OfKey(s: State, k: Key): set<Id> {
    set id | id in EngineRequests(s) && s.works[id].owner == Some(k)
  }

  function EngineCounts(s: State): set<Id> {
    set id | id in s.works && s.works[id].phase.Counting?
  }

  function CountsOfKey(s: State, k: Key): set<Id> {
    set id | id in EngineCounts(s) && s.works[id].owner == Some(k)
  }

  /** Works that hold different tickets are no more than the tickets. */
  lemma {:induction false} NoMoreThanTickets(ids: set<Id>, held: map<Id, Tag>, tickets: set<Tag>)
    requires forall id :: id in ids ==> id in held && held[id] in tickets
    requires forall i, j :: i in held && j in held && held[i] == held[j] ==> i == j
    ensures |ids| <= |tickets|
    decreases |ids|
  {
    if ids != {} {
      var id :| id in ids;
      NoMoreThanTickets(ids - {id}, held, tickets - {held[id]});
    }
  }

  /** An open engine request holds an active place of its own class and key: the place is free only once the stream is
      closed. */
  lemma PlaceUntilClosed(cfg: Config, events: seq<Event>, id: Id)
    requires id in EngineRequests(Gateway.Run(cfg, events))
    ensures var s := Gateway.Run(cfg, events);
            && id in s.tickets && s.tickets[id] in s.places.active
            && s.tickets[id].cls == s.works[id].cls && s.tickets[id].owner == s.works[id].owner
  {
    hide PoolsOk, DrainOk, LifeOk, Next;
    RunKeeps(cfg, events);
    assert Fits(Gateway.Run(cfg, events), id);
  }

  lemma CountHasPlace(cfg: Config, events: seq<Event>, id: Id)
    requires id in EngineCounts(Gateway.Run(cfg, events))
    ensures var s := Gateway.Run(cfg, events);
            && id in s.countTickets && s.countTickets[id] in s.counts.active
            && s.countTickets[id].owner == s.works[id].owner
  {
    hide PoolsOk, DrainOk, LifeOk, Next;
    RunKeeps(cfg, events);
    assert Fits(Gateway.Run(cfg, events), id);
  }

  lemma TicketsDiffer(cfg: Config, events: seq<Event>)
    ensures var held := Gateway.Run(cfg, events).tickets;
            forall i, j :: i in held && j in held && held[i] == held[j] ==> i == j
    ensures var held := Gateway.Run(cfg, events).countTickets;
            forall i, j :: i in held && j in held && held[i] == held[j] ==> i == j
    ensures ActiveCaps(cfg, Gateway.Run(cfg, events).places.active)
    ensures |Gateway.Run(cfg, events).counts.active| <= cfg.countActive
    ensures CountRules.KeyCaps(cfg, Tickets(Gateway.Run(cfg, events).counts))
  {
    hide AllFit, DrainOk, LifeOk, Next, ActiveCaps, CountRules.KeyCaps;
    RunKeeps(cfg, events);
  }

  /** In every run the engine's open generation requests of a class are within its active cap. */
  lemma ClassCapHolds(cfg: Config, events: seq<Event>, c: Class)
    ensures |OfClass(Gateway.Run(cfg, events), c)| <= cfg.Of(c).active
  {
    hide Next;
    var s := Gateway.Run(cfg, events);
    var ids := OfClass(s, c);
    forall id | id in ids {
      PlaceUntilClosed(cfg, events, id);
    }
    TicketsDiffer(cfg, events);
    NoMoreThanTickets(ids, s.tickets, set t | t in s.places.active && t.cls == c);
    assert ClassCount(s.places.active, c) <= cfg.Of(c).active;
  }

  /** The open requests of the classes that share the engine are within the shared places. */
  lemma SharedCapHolds(cfg: Config, events: seq<Event>)
    ensures |OfShared(Gateway.Run(cfg, events))| <= cfg.sharedPlaces
  {
    hide Next;
    var s := Gateway.Run(cfg, events);
    var ids := OfShared(s);
    forall id | id in ids {
      PlaceUntilClosed(cfg, events, id);
    }
    TicketsDiffer(cfg, events);
    NoMoreThanTickets(ids, s.tickets, set t | t in s.places.active && Shared(t.cls));
    SharedIs(s.places.active);
  }

  lemma {:induction false} SharedIs(s: set<Tag>)
    ensures |set t | t in s && Shared(t.cls)| == SharedCount(s)
  {
    NoTagCounts();
    if s == {} {
      assert (set t | t in s && Shared(t.cls)) == {};
    } else {
      var u :| u in s;
      SharedIs(s - {u});
      CountsWithout(s, u);
      var rest := set t | t in s - {u} && Shared(t.cls);
      assert (set t | t in s && Shared(t.cls)) == if Shared(u.cls) then rest + {u} else rest;
    }
  }

  /** The open requests of one outside key are within its active cap. */
  lemma KeyCapHolds(cfg: Config, events: seq<Event>, k: Key)
    ensures |OfKey(Gateway.Run(cfg, events), k)| <= cfg.perKeyActive
  {
    hide Next;
    var s := Gateway.Run(cfg, events);
    var ids := OfKey(s, k);
    forall id | id in ids {
      PlaceUntilClosed(cfg, events, id);
    }
    TicketsDiffer(cfg, events);
    NoMoreThanTickets(ids, s.tickets, set t | t in s.places.active && t.owner == Some(k));
    assert OwnerCount(s.places.active, k) <= cfg.perKeyActive;
  }

  /** The engine's running counts are within the count places, and those of one outside key within its cap. */
  lemma CountCapsHold(cfg: Config, events: seq<Event>, k: Key)
    ensures |EngineCounts(Gateway.Run(cfg, events))| <= cfg.countActive
    ensures |CountsOfKey(Gateway.Run(cfg, events), k)| <= cfg.countPerOutsideKey
  {
    hide Next;
    var s := Gateway.Run(cfg, events);
    forall id | id in EngineCounts(s) {
      CountHasPlace(cfg, events, id);
    }
    TicketsDiffer(cfg, events);
    NoMoreThanTickets(EngineCounts(s), s.countTickets, s.counts.active);
    var ids := CountsOfKey(s, k);
    NoMoreThanTickets(ids, s.countTickets, set t | t in Tickets(s.counts) && t.owner == Some(k));
    assert OwnerCount(Tickets(s.counts), k) <= cfg.countPerOutsideKey;
  }

  /** Without work no place is held and nobody waits: every counter is zero. */
  lemma NoWorkNoPlace(cfg: Config, events: seq<Event>)
    requires Gateway.Run(cfg, events).works == map[]
    ensures var s := Gateway.Run(cfg, events);
            && Tickets(s.places) == {} && Tickets(s.counts) == {}
            && (forall c: Class :: ClassCount(s.places.active, c) == 0 && ClassCount(s.counts.active, c) == 0)
            && (forall k: Key :: OwnerCount(Tickets(s.places), k) == 0 && OwnerCount(Tickets(s.counts), k) == 0)
            && SharedCount(s.places.active) == 0
  {
    hide Good, CountRules.Good, AllFit, DrainOk, LifeOk, Next;
    RunKeeps(cfg, events);
    var s := Gateway.Run(cfg, events);
    assert s.tickets.Keys == {} && s.countTickets.Keys == {};
    assert s.tickets == map[] && s.countTickets == map[];
    assert s.places.active == {} && s.counts.active == {};
    NoTagCounts();
  }
}
