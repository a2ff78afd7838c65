/** Places for generations and counts, as the gateway keeps them: tickets, a line of queues, and counters that change in
    place. Each operation is proved to do what the rules of places say, in PlaceRules.dfy and CountRules.dfy. */
module Admission {

  import opened Wrappers
  import opened PlaceRules
  import CountRules

  datatype TicketState = Waiting | Active | Left

  datatype Future = Pending | Done | Cancelled

  /** A claim on one place. Its state only moves forward, and the line and the counters below are kept for it. */
  class Ticket {
    const cls: Class
    const owner: Option<Key>
    ghost const id: nat
    var state: TicketState
    var granted: Future

    constructor (cls: Class, owner: Option<Key>, ghost id: nat)
      ensures this.cls == cls && this.owner == owner && this.id == id
      ensures state == Waiting && granted == Pending
    {
      this.cls, this.owner, this.id, state, granted := cls, owner, id, Waiting, Pending;
    }

    ghost function Tag(): Tag {
      PlaceRules.Tag(id, cls, owner)
    }

    /** Always makes the ticket active; a future that a stop has cancelled is left alone, so that whoever stopped it
        still has a place to give back. */
    method Grant()
      modifies this
      ensures state == Active && granted == if old(granted) == Pending then Done else old(granted)
    {
      state := Active;
      if granted == Pending {
        granted := Done;
      }
    }
  }

  ghost function Tags(q: seq<Ticket>): (tags: seq<Tag>)
    ensures |tags| == |q| && forall i :: 0 <= i < |q| ==> tags[i] == q[i].Tag()
  {
    seq(|q|, i requires 0 <= i < |q| => q[i].Tag())
  }

  ghost predicate AllIn(q: seq<Ticket>, known: set<Ticket>) {
    forall i :: 0 <= i < |q| ==> q[i] in known
  }

  lemma {:induction false} WithoutAt(q: seq<Tag>, k: nat)
    requires Sorted(q) && k < |q|
    ensures Without(q, q[k]) == q[..k] + q[k + 1..]
  {
    if k > 0 {
      var rest := q[1..];
      assert q[0].id < q[k].id && rest[k - 1] == q[k];
      WithoutAt(rest, k - 1);
      assert [q[0]] + (rest[..k - 1] + rest[k..]) == q[..k] + q[k + 1..];
    }
  }

  lemma TagsWithout(q: seq<Ticket>, k: nat)
    requires k < |q| && Sorted(Tags(q))
    ensures Tags(q[..k] + q[k + 1..]) == Without(Tags(q), q[k].Tag())
  {
    WithoutAt(Tags(q), k);
    assert Tags(q[..k] + q[k + 1..]) == Tags(q)[..k] + Tags(q)[k + 1..];
  }

  method IndexOf(q: seq<Ticket>, ticket: Ticket) returns (k: nat)
    requires ticket in q
    ensures k < |q| && q[k] == ticket
  {
    k := 0;
    while q[k] != ticket
      invariant k < |q| && forall i :: 0 <= i < k ==> q[i] != ticket
      decreases |q| - k
    {
      k := k + 1;
    }
  }

  /** The tickets that wait, as `PlaceRules.Line` has their tags: `Spec` is that line. */
  class Line {
    var queues: map<Class, seq<Ticket>>
    ghost var known: set<Ticket>  // every ticket that was ever added

    ghost predicate Valid()
      reads this
    {
      forall c: Class :: c in queues && AllIn(queues[c], known)
    }

    ghost function Spec(): PlaceRules.Line
      requires Valid()
      reads this
    {
      PlaceRules.Line(Tags(queues[Reader]), Tags(queues[Agent]), Tags(queues[Internal]), Tags(queues[External]))
    }

    constructor ()
      ensures Valid() && Spec() == EMPTY_LINE && known == {}
    {
      known := {};
      queues := map[Reader := [], Agent := [], Internal := [], External := []];
      new;
      assert Tags([]) == [];
      forall c: Class
        ensures c in queues && queues[c] == []
      {
        assert c == Reader || c == Agent || c == Internal || c == External;
      }
    }

    method Add(ticket: Ticket)
      requires Valid()
      modifies this
      ensures Valid() && Spec() == old(Spec()).Add(ticket.Tag())
      ensures known == old(known) + {ticket}
    {
      known := known + {ticket};
      queues := queues[ticket.cls := queues[ticket.cls] + [ticket]];
      assert Tags(old(queues[ticket.cls]) + [ticket]) == Tags(old(queues[ticket.cls])) + [ticket.Tag()];
    }

    method Remove(ticket: Ticket)
      requires Valid() && ticket in queues[ticket.cls] && Sorted(Tags(queues[ticket.cls]))
      modifies this
      ensures Valid() && Spec() == old(Spec()).Remove(ticket.Tag())
      ensures known == old(known)
    {
      hide Sorted, Without;
      var q := queues[ticket.cls];
      var k := IndexOf(q, ticket);
      TagsWithout(q, k);
      queues := queues[ticket.cls := q[..k] + q[k + 1..]];
    }

    lemma QueueIs(c: Class)
      requires Valid()
      ensures Spec().Queue(c) == Tags(queues[c])
    {
    }

    method Count(c: Class) returns (n: nat)
      requires Valid()
      ensures n == |Spec().Queue(c)|
    {
      n := |queues[c]|;
    }

    function InOrder(): (order: seq<Ticket>)
      requires Valid()
      reads this
      ensures Tags(order) == Spec().InOrder() && AllIn(order, known)
    {
      queues[Reader] + queues[Agent] + queues[Internal] + queues[External]
    }
  }

  // ----- Counters

  /** A counter's value: a key it does not hold counts nothing. */
  function Get<K(==)>(counter: map<K, int>, k: K): int {
    if k in counter then counter[k] else 0
  }

  function Plus<K(==)>(counter: map<K, int>, k: K, n: int): map<K, int> {
    counter[k := Get(counter, k) + n]
  }

  function PlusOwner(counter: map<Key, int>, owner: Option<Key>, n: int): map<Key, int> {
    if owner.Some? then Plus(counter, owner.value, n) else counter
  }

  ghost predicate ClassesCounted(counter: map<Class, int>, s: set<Tag>) {
    forall c: Class :: Get(counter, c) == ClassCount(s, c)
  }

  ghost predicate OwnersCounted(counter: map<Key, int>, s: set<Tag>) {
    forall k: Key :: Get(counter, k) == OwnerCount(s, k)
  }

  lemma OwnerIs(counter: map<Key, int>, s: set<Tag>, owner: Option<Key>)
    requires OwnersCounted(counter, s)
    ensures owner.Some? ==> Get(counter, owner.value) == OwnerCount(s, owner.value)
  {
  }

  lemma CountersUp(classes: map<Class, int>, owners: map<Key, int>, s: set<Tag>, t: Tag)
    requires t !in s
    ensures ClassesCounted(classes, s) ==> ClassesCounted(Plus(classes, t.cls, 1), s + {t})
    ensures OwnersCounted(owners, s) ==> OwnersCounted(PlusOwner(owners, t.owner, 1), s + {t})
  {
    Counts(s, t);
  }

  lemma CountersDown(classes: map<Class, int>, owners: map<Key, int>, s: set<Tag>, t: Tag)
    requires t in s
    ensures ClassesCounted(classes, s) ==> ClassesCounted(Plus(classes, t.cls, -1), s - {t})
    ensures OwnersCounted(owners, s) ==> OwnersCounted(PlusOwner(owners, t.owner, -1), s - {t})
  {
    CountsWithout(s, t);
  }

  // ----- What both pools hold of their tickets

  /** Tickets are told apart by their arrival numbers, and the line holds only tickets. */
  ghost predicate Known(tickets: set<Ticket>, line: set<Ticket>, next: nat) {
    && (forall t :: t in tickets ==> t.id < next)
    && (forall t, u :: t in tickets && u in tickets && t.id == u.id ==> t == u)
    && line <= tickets
  }

  ghost function States(tickets: set<Ticket>): (states: map<Ticket, TicketState>)
    reads tickets
    ensures states.Keys == tickets && forall t :: t in tickets ==> states[t] == t.state
  {
    map t | t in tickets :: t.state
  }

  /** Every ticket's state is the one the rules give it. */
  ghost predicate StatesAgree(states: map<Ticket, TicketState>, p: Places) {
    && (forall t :: t in states ==> (states[t] == Active <==> t.Tag() in p.active))
    && (forall t :: t in states ==> (states[t] == Waiting <==> p.line.Has(t.Tag())))
  }

  /** The places differ in one ticket at most. */
  ghost predicate SameButFor(p: Places, q: Places, t: Tag) {
    forall u: Tag :: u != t ==> (u in q.active <==> u in p.active) && (q.line.Has(u) <==> p.line.Has(u))
  }

  /** When one ticket's state and place change together, the others still agree. */
  lemma OthersAgree(states: map<Ticket, TicketState>, p: Places, q: Places, ticket: Ticket, state: TicketState)
    requires StatesAgree(states, p) && SameButFor(p, q, ticket.Tag())
    requires forall t :: t in states && t != ticket ==> t.id != ticket.id
    requires state == Active <==> ticket.Tag() in q.active
    requires state == Waiting <==> q.line.Has(ticket.Tag())
    ensures StatesAgree(states[ticket := state], q)
  {
    forall t | t in states && t != ticket
      ensures states[t] == Active <==> t.Tag() in q.active
      ensures states[t] == Waiting <==> q.line.Has(t.Tag())
    {
      assert t.Tag() != ticket.Tag();
    }
  }

  ghost predicate TicketsAgree(tickets: set<Ticket>, line: Line, p: Places, next: nat)
    reads line, tickets
  {
    line.Valid() && line.Spec() == p.line && Known(tickets, line.known, next) && StatesAgree(States(tickets), p)
  }

  lemma WaitsInItsQueue(tickets: set<Ticket>, line: Line, p: Places, next: nat, ticket: Ticket)
    requires TicketsAgree(tickets, line, p, next) && ticket in tickets && ticket.state == Waiting
    ensures ticket in line.queues[ticket.cls]
  {
    var q := line.queues[ticket.cls];
    line.QueueIs(ticket.cls);
    var k :| 0 <= k < |q| && Tags(q)[k] == ticket.Tag();
    assert q[k] in line.known;
  }

  /** The pool of generation places: its counters always agree with `spec`, whose steps are those of `PlaceRules`. */
  class Admission {
    const cfg: Config
    const line: Line
    var active: map<Class, int>
    var ownerActive: map<Key, int>
    var ownerWaiting: map<Key, int>
    ghost var spec: Places
    ghost var next: nat
    ghost var tickets: set<Ticket>

    /** Every counter is the number of tickets in its state. */
    ghost predicate CountersAgree()
      reads this
    {
      && ClassesCounted(active, spec.active)
      && OwnersCounted(ownerActive, spec.active)
      && OwnersCounted(ownerWaiting, spec.line.Waiting())
    }

    ghost predicate Agrees()
      reads this, line, tickets
    {
      TicketsAgree(tickets, line, spec, next) && CountersAgree()
    }

    ghost predicate Valid()
      reads this, line, tickets
    {
      Agrees() && Good(cfg, spec, next)
    }

    constructor (cfg: Config)
      ensures Valid() && this.cfg == cfg && spec == NO_PLACES && next == 0 && tickets == {} && fresh(line)
    {
      this.cfg := cfg;
      line := new Line();
      active, ownerActive, ownerWaiting := map[], map[], map[];
      spec, next, tickets := NO_PLACES, 0, {};
      new;
      NoPlacesAreGood(cfg);
      NoTagCounts();
      assert EMPTY_LINE.Waiting() == {} by {
        assert EMPTY_LINE.InOrder() == [];
      }
    }

    /** A ticket's state is its standing in the places. */
    lemma StateOf(ticket: Ticket)
      requires Valid() && ticket in tickets
      ensures ticket.state == Active <==> ticket.Tag() in spec.active
      ensures ticket.state == Waiting <==> spec.line.Has(ticket.Tag())
    {
      hide Good, CountersAgree, StatesAgree;
      StateIs(States(tickets), spec, ticket);
    }

    predicate HasRoomNow(ticket: Ticket)
      requires CountersAgree()
      reads this
      ensures HasRoomNow(ticket) == HasRoom(cfg, spec.active, ticket.Tag())
    {
      && Get(active, ticket.cls) < cfg.Of(ticket.cls).active
      && !(ticket.owner.Some? && Get(ownerActive, ticket.owner.value) >= cfg.perKeyActive)
      && (!Shared(ticket.cls) || Get(active, Agent) + Get(active, Internal) + Get(active, External) < cfg.sharedPlaces)
    }

    /** Does to the counters and the line what `PlaceRules.Enter` does to the places; none is the refusal that the
        client sees as 429. */
    method Enter(cls: Class, owner: Option<Key>) returns (r: Option<Ticket>)
      requires Valid()
      modifies this, line
      ensures Valid() && next == old(next) + 1
      ensures var entered := PlaceRules.Enter(cfg, old(spec), PlaceRules.Tag(old(next), cls, owner));
              if entered.None? then r.None? && spec == old(spec) && tickets == old(tickets)
              else && r.Some? && fresh(r.value) && r.value.Tag() == PlaceRules.Tag(old(next), cls, owner)
                   && spec == entered.value && tickets == old(tickets) + {r.value}
    {
      hide WellFormed, ActiveCaps, WaitingCaps, NoneHasRoom, NoOvertaking, ClassesCounted, OwnersCounted, StatesAgree;
      var ticket := new Ticket(cls, owner, next);
      EnterKeeps(cfg, spec, ticket.Tag());
      GoodLater(cfg, spec, next);
      next := next + 1;
      if HasRoomNow(ticket) {
        Begin(ticket);
        return Some(ticket);
      }
      var waiting := line.Count(cls);
      OwnerIs(ownerWaiting, spec.line.Waiting(), owner);
      if waiting >= cfg.Of(cls).waiting
         || (owner.Some? && Get(ownerWaiting, owner.value) >= cfg.perKeyWaiting) {
        return None;
      }
      Wait(ticket);
      return Some(ticket);
    }

    /** A new ticket is active at once. */
    method Begin(ticket: Ticket)
      requires Agrees() && WellFormed(spec, ticket.id) && ticket !in tickets && ticket.state == Waiting
      requires ticket.id < next && forall t :: t in tickets ==> t.id < ticket.id
      modifies this`spec, this`active, this`ownerActive, this`tickets, ticket
      ensures Agrees()
      ensures spec == old(spec).(active := old(spec.active) + {ticket.Tag()}) && tickets == old(tickets) + {ticket}
    {
      hide WellFormed, ClassesCounted, OwnersCounted, StatesAgree;
      ghost var states := States(tickets);
      NewTag(spec, ticket.Tag());
      Activate(ticket);
      OthersAgree(states, old(spec), spec, ticket, Active);
      tickets := tickets + {ticket};
      assert States(tickets) == states[ticket := Active];
    }

    /** The ticket takes a place, whether it came from the line or not. */
    method Activate(ticket: Ticket)
      requires CountersAgree() && ticket.Tag() !in spec.active
      modifies this`active, this`ownerActive, this`spec, ticket
      ensures CountersAgree()
      ensures spec == old(spec).(active := old(spec.active) + {ticket.Tag()})
      ensures ticket.state == Active
    {
      CountersUp(active, ownerActive, spec.active, ticket.Tag());
      active, ownerActive := Plus(active, ticket.cls, 1), PlusOwner(ownerActive, ticket.owner, 1);
      ticket.Grant();
      spec := spec.(active := spec.active + {ticket.Tag()});
    }

    /** The ticket joins the line. */
    method Wait(ticket: Ticket)
      requires Agrees() && WellFormed(spec, ticket.id) && ticket !in tickets && ticket.state == Waiting
      requires ticket.id < next && forall t :: t in tickets ==> t.id < ticket.id
      modifies this`spec, this`ownerWaiting, this`tickets, line
      ensures Agrees()
      ensures spec == old(spec).(line := old(spec.line).Add(ticket.Tag())) && tickets == old(tickets) + {ticket}
    {
      hide WellFormed, ClassesCounted, OwnersCounted, StatesAgree, SameButFor, Tickets, Line.Valid, Line.Spec;
      ghost var states := States(tickets);
      NewTag(spec, ticket.Tag());
      AddedIs(spec, ticket.Tag());
      CountersUp(active, ownerWaiting, spec.line.Waiting(), ticket.Tag());
      line.Add(ticket);
      ownerWaiting := PlusOwner(ownerWaiting, ticket.owner, 1);
      spec := spec.(line := spec.line.Add(ticket.Tag()));
      OthersAgree(states, old(spec), spec, ticket, Waiting);
      tickets := tickets + {ticket};
      assert States(tickets) == states[ticket := Waiting];
    }

    /** The ticket steps out of the line; what it does then is the caller's. */
    method StepOut(ticket: Ticket)
      requires Agrees() && WellFormed(spec, next) && ticket in tickets && ticket.state == Waiting
      requires spec.line.Has(ticket.Tag())
      modifies this`spec, this`ownerWaiting, line
      ensures line.Valid() && line.Spec() == spec.line && CountersAgree()
      ensures spec == old(spec).(line := old(spec.line).Remove(ticket.Tag()))
      ensures Known(tickets, line.known, next)
    {
      hide WellFormed, ClassesCounted, OwnersCounted, StatesAgree;
      WithdrawnIs(spec, ticket.Tag(), next);
      line.QueueIs(ticket.cls);
      WaitsInItsQueue(tickets, line, spec, next, ticket);
      CountersDown(active, ownerWaiting, spec.line.Waiting(), ticket.Tag());
      line.Remove(ticket);
      ownerWaiting := PlusOwner(ownerWaiting, ticket.owner, -1);
      spec := spec.(line := spec.line.Remove(ticket.Tag()));
    }

    /** The first waiting ticket with room, in class order and then by arrival. */
    method FirstWithRoom() returns (first: Option<Ticket>)
      requires Agrees()
      ensures first.None? ==> FirstRoom(cfg, spec.active, spec.line.InOrder()).None?
      ensures first.Some? ==>
                && first.value in tickets
                && FirstRoom(cfg, spec.active, spec.line.InOrder()) == Some(first.value.Tag())
    {
      hide StatesAgree, ClassesCounted, OwnersCounted, HasRoom;
      var order, i := line.InOrder(), 0;
      while i < |order|
        invariant 0 <= i <= |order|
        invariant FirstRoom(cfg, spec.active, spec.line.InOrder()) == FirstRoom(cfg, spec.active, Tags(order)[i..])
      {
        if HasRoomNow(order[i]) {
          return Some(order[i]);
        }
        i := i + 1;
      }
      return None;
    }

    /** The loop of grants: it comes to the places of `PlaceRules.Dispatch`, and so to a line without room. */
    method Dispatch()
      requires Agrees() && Sound(cfg, spec, next)
      modifies this, line, tickets
      ensures Valid() && next == old(next) && tickets == old(tickets)
      ensures spec == PlaceRules.Dispatch(cfg, old(spec))
    {
      var first := FirstWithRoom();
      while first.Some?
        invariant Agrees() && Sound(cfg, spec, next) && next == old(next) && tickets == old(tickets)
        invariant first.Some? ==> first.value in tickets
        invariant FirstRoom(cfg, spec.active, spec.line.InOrder())
               == if first.None? then None else Some(first.value.Tag())
        invariant PlaceRules.Dispatch(cfg, spec) == PlaceRules.Dispatch(cfg, old(spec))
        decreases |spec.line.InOrder()|
      {
        Promote(first.value);
        first := FirstWithRoom();
      }
      DispatchKeeps(cfg, spec, next);
    }

    method Promote(ticket: Ticket)
      requires Agrees() && Sound(cfg, spec, next) && ticket in tickets
      requires FirstRoom(cfg, spec.active, spec.line.InOrder()) == Some(ticket.Tag())
      modifies this, line, ticket
      ensures Agrees() && Sound(cfg, spec, next) && next == old(next) && tickets == old(tickets)
      ensures old(spec.line).Has(ticket.Tag()) && spec == PlaceRules.Grant(old(spec), ticket.Tag())
      ensures |spec.line.InOrder()| < |old(spec).line.InOrder()|
    {
      hide WellFormed, ActiveCaps, WaitingCaps, NoneHasRoom, NoOvertaking, ClassesCounted, OwnersCounted, StatesAgree;
      ghost var states := States(tickets);
      SoundAfterGrant(cfg, spec, ticket.Tag(), next);
      StateIs(states, spec, ticket);
      StepOut(ticket);
      Activate(ticket);
      OthersAgree(states, old(spec), spec, ticket, Active);
      assert States(tickets) == states[ticket := Active];
    }

    /** The places after it are those of `PlaceRules.Leave`, whatever the ticket's state; a second call does nothing. */
    method Leave(ticket: Ticket)
      requires Valid() && ticket in tickets
      modifies this, line, tickets
      ensures Valid() && next == old(next) && tickets == old(tickets)
      ensures spec == PlaceRules.Leave(cfg, old(spec), ticket.Tag())
      ensures ticket.state == Left
    {
      hide Good, Sound, StatesAgree, CountersAgree, PlaceRules.Dispatch;
      StateIs(States(tickets), spec, ticket);
      if ticket.state == Left {
        return;
      }
      if ticket.state == Waiting {
        Withdraw(ticket);
      } else {
        Free(ticket);
      }
      Dispatch();
      LeftForGood(cfg, old(spec), ticket.Tag(), next);
      StateIs(States(tickets), spec, ticket);
    }

    method Withdraw(ticket: Ticket)
      requires Valid() && ticket in tickets && ticket.state == Waiting && spec.line.Has(ticket.Tag())
      modifies this`spec, this`ownerWaiting, line, ticket
      ensures Agrees() && Sound(cfg, spec, next)
      ensures spec == old(spec).(line := old(spec.line).Remove(ticket.Tag()))
    {
      hide WellFormed, ActiveCaps, WaitingCaps, NoneHasRoom, NoOvertaking, ClassesCounted, OwnersCounted, StatesAgree;
      ghost var states := States(tickets);
      WithdrawKeeps(cfg, spec, ticket.Tag(), next);
      WithdrawnIs(spec, ticket.Tag(), next);
      StepOut(ticket);
      ticket.state := Left;
      OthersAgree(states, old(spec), spec, ticket, Left);
      assert States(tickets) == states[ticket := Left];
    }

    method Free(ticket: Ticket)
      requires Valid() && ticket in tickets && ticket.state == Active && ticket.Tag() in spec.active
      modifies this`spec, this`active, this`ownerActive, ticket
      ensures Agrees() && Sound(cfg, spec, next)
      ensures spec == old(spec).(active := old(spec.active) - {ticket.Tag()})
    {
      hide WellFormed, ActiveCaps, WaitingCaps, NoneHasRoom, NoOvertaking, ClassesCounted, OwnersCounted, StatesAgree;
      ghost var states := States(tickets);
      FreeKeeps(cfg, spec, ticket.Tag(), next);
      FreedIs(spec, ticket.Tag(), next);
      CountersDown(active, ownerActive, spec.active, ticket.Tag());
      active, ownerActive := Plus(active, ticket.cls, -1), PlusOwner(ownerActive, ticket.owner, -1);
      spec := spec.(active := spec.active - {ticket.Tag()});
      ticket.state := Left;
      OthersAgree(states, old(spec), spec, ticket, Left);
      assert States(tickets) == states[ticket := Left];
    }
  }

  /** The places of counts (section 5): one pool for all classes, and a cap for each outside key. */
  class CountPlaces {
    const cfg: Config
    const line: Line
    var running: map<Class, int>
    var byOwner: map<Key, int>
    ghost var spec: Places
    ghost var next: nat
    ghost var tickets: set<Ticket>

    ghost predicate Agrees()
      reads this, line, tickets
    {
      && TicketsAgree(tickets, line, spec, next)
      && ClassesCounted(running, spec.active)
      && OwnersCounted(byOwner, Tickets(spec))
    }

    ghost predicate Valid()
      reads this, line, tickets
    {
      Agrees() && CountRules.Good(cfg, spec, next)
    }

    constructor (cfg: Config)
      ensures Valid() && this.cfg == cfg && spec == NO_PLACES && next == 0 && tickets == {} && fresh(line)
    {
      this.cfg := cfg;
      line := new Line();
      running, byOwner := map[], map[];
      spec, next, tickets := NO_PLACES, 0, {};
      new;
      CountRules.NoCountsAreGood(cfg);
      NoPlacesAreGood(cfg);
      NoTagCounts();
    }

    /** A ticket's state is its standing in the places. */
    lemma StateOf(ticket: Ticket)
      requires Valid() && ticket in tickets
      ensures ticket.state == Active <==> ticket.Tag() in spec.active
      ensures ticket.state == Waiting <==> spec.line.Has(ticket.Tag())
    {
      hide CountRules.Good, ClassesCounted, OwnersCounted, StatesAgree;
      StateIs(States(tickets), spec, ticket);
    }

    function Running(): int
      reads this
    {
      Get(running, Reader) + Get(running, Agent) + Get(running, Internal) + Get(running, External)
    }

    lemma RunningIs()
      requires ClassesCounted(running, spec.active)
      ensures Running() == |spec.active|
    {
      CountRules.RunningIsSum(spec.active);
    }

    /** A new count, running at once or waiting; none past its key's cap (429 queue_full). */
    method Enter(cls: Class, owner: Option<Key>) returns (r: Option<Ticket>)
      requires Valid()
      modifies this, line
      ensures Valid() && next == old(next) + 1
      ensures var entered := CountRules.Enter(cfg, old(spec), PlaceRules.Tag(old(next), cls, owner));
              if entered.None? then r.None? && spec == old(spec) && tickets == old(tickets)
              else && r.Some? && fresh(r.value) && r.value.Tag() == PlaceRules.Tag(old(next), cls, owner)
                   && spec == entered.value && tickets == old(tickets) + {r.value}
    {
      hide WellFormed, CountRules.KeyCaps, CountRules.InTurn, ClassesCounted, OwnersCounted, StatesAgree, Tickets;
      CountRules.EnterKeeps(cfg, spec, PlaceRules.Tag(next, cls, owner));
      CountRules.GoodLater(cfg, spec, next);
      OwnerIs(byOwner, Tickets(spec), owner);
      RunningIs();
      next := next + 1;
      if owner.Some? && Get(byOwner, owner.value) >= cfg.countPerOutsideKey {
        return None;
      }
      var ticket := new Ticket(cls, owner, next - 1);
      if Running() < cfg.countActive {
        Begin(ticket);
      } else {
        Wait(ticket);
      }
      return Some(ticket);
    }

    method Begin(ticket: Ticket)
      requires Agrees() && WellFormed(spec, ticket.id) && ticket !in tickets && ticket.state == Waiting
      requires ticket.id < next && forall t :: t in tickets ==> t.id < ticket.id
      modifies this`spec, this`running, this`byOwner, this`tickets, ticket
      ensures Agrees()
      ensures spec == old(spec).(active := old(spec.active) + {ticket.Tag()}) && tickets == old(tickets) + {ticket}
    {
      hide WellFormed, ClassesCounted, OwnersCounted, StatesAgree, SameButFor, Tickets;
      ghost var states := States(tickets);
      NewTag(spec, ticket.Tag());
      BegunIs(spec, ticket.Tag());
      CountersUp(running, byOwner, spec.active, ticket.Tag());
      CountersUp(running, byOwner, Tickets(spec), ticket.Tag());
      running, byOwner := Plus(running, ticket.cls, 1), PlusOwner(byOwner, ticket.owner, 1);
      ticket.Grant();
      spec := spec.(active := spec.active + {ticket.Tag()});
      OthersAgree(states, old(spec), spec, ticket, Active);
      tickets := tickets + {ticket};
      assert States(tickets) == states[ticket := Active];
    }

    method Wait(ticket: Ticket)
      requires Agrees() && WellFormed(spec, ticket.id) && ticket !in tickets && ticket.state == Waiting
      requires ticket.id < next && forall t :: t in tickets ==> t.id < ticket.id
      modifies this`spec, this`byOwner, this`tickets, line
      ensures Agrees()
      ensures spec == old(spec).(line := old(spec.line).Add(ticket.Tag())) && tickets == old(tickets) + {ticket}
    {
      hide WellFormed, ClassesCounted, OwnersCounted, StatesAgree, SameButFor, Tickets;
      ghost var states := States(tickets);
      NewTag(spec, ticket.Tag());
      AddedIs(spec, ticket.Tag());
      NotInTickets(spec, ticket.Tag());
      CountersUp(running, byOwner, Tickets(spec), ticket.Tag());
      line.Add(ticket);
      byOwner := PlusOwner(byOwner, ticket.owner, 1);
      spec := spec.(line := spec.line.Add(ticket.Tag()));
      OthersAgree(states, old(spec), spec, ticket, Waiting);
      tickets := tickets + {ticket};
      assert States(tickets) == states[ticket := Waiting];
    }

    /** The head of the line takes a free place. */
    method Promote(ticket: Ticket)
      requires Agrees() && CountRules.Sound(cfg, spec, next) && ticket in tickets
      requires |spec.active| < cfg.countActive
      requires spec.line.InOrder() != [] && spec.line.InOrder()[0] == ticket.Tag()
      modifies this`spec, this`running, line, ticket
      ensures Agrees() && CountRules.Sound(cfg, spec, next)
      ensures old(spec.line).Has(ticket.Tag()) && spec == PlaceRules.Grant(old(spec), ticket.Tag())
      ensures |spec.line.InOrder()| < |old(spec).line.InOrder()|
    {
      hide CountRules.Sound, ClassesCounted, OwnersCounted, StatesAgree, Tickets, SameButFor, Sorted;
      ghost var states := States(tickets);
      HeadGrantIs(cfg, spec, ticket.Tag(), next);
      StateIs(states, spec, ticket);
      line.QueueIs(ticket.cls);
      WaitsInItsQueue(tickets, line, spec, next, ticket);
      CountersUp(running, byOwner, spec.active, ticket.Tag());
      line.Remove(ticket);
      running := Plus(running, ticket.cls, 1);
      ticket.Grant();
      spec := PlaceRules.Grant(spec, ticket.Tag());
      OthersAgree(states, old(spec), spec, ticket, Active);
      assert States(tickets) == states[ticket := Active];
    }

    /** While a place is free, the first in line takes it. */
    method Fill()
      requires Agrees() && CountRules.Sound(cfg, spec, next)
      modifies this, line, tickets
      ensures Valid() && next == old(next) && tickets == old(tickets)
      ensures spec == CountRules.Fill(cfg, old(spec))
    {
      hide WellFormed, CountRules.KeyCaps, CountRules.InTurn, ClassesCounted, OwnersCounted, StatesAgree, Tickets;
      RunningIs();
      var order := line.InOrder();
      while Running() < cfg.countActive && order != []
        invariant Agrees() && CountRules.Sound(cfg, spec, next) && next == old(next) && tickets == old(tickets)
        invariant order == line.InOrder() && Running() == |spec.active|
        invariant CountRules.Fill(cfg, spec) == CountRules.Fill(cfg, old(spec))
        decreases |spec.line.InOrder()|
      {
        assert Tags(order)[0] == order[0].Tag();
        Promote(order[0]);
        RunningIs();
        order := line.InOrder();
      }
      assert |Tags(order)| == |order|;
      CountRules.FillKeeps(cfg, spec, next);
    }

    method Leave(ticket: Ticket)
      requires Valid() && ticket in tickets
      modifies this, line, tickets
      ensures Valid() && next == old(next) && tickets == old(tickets)
      ensures spec == CountRules.Leave(cfg, old(spec), ticket.Tag())
      ensures ticket.state == Left
    {
      hide CountRules.Good, CountRules.Sound, StatesAgree, ClassesCounted, OwnersCounted, CountRules.Fill;
      StateIs(States(tickets), spec, ticket);
      if ticket.state == Left {
        return;
      }
      if ticket.state == Waiting {
        Withdraw(ticket);
      } else {
        Free(ticket);
      }
      Fill();
      CountLeftForGood(cfg, old(spec), ticket.Tag(), next);
      StateIs(States(tickets), spec, ticket);
    }

    method Withdraw(ticket: Ticket)
      requires Valid() && ticket in tickets && ticket.state == Waiting && spec.line.Has(ticket.Tag())
      modifies this`spec, this`byOwner, line, ticket
      ensures Agrees() && CountRules.Sound(cfg, spec, next)
      ensures spec == old(spec).(line := old(spec.line).Remove(ticket.Tag()))
    {
      hide WellFormed, CountRules.KeyCaps, CountRules.InTurn, ClassesCounted, OwnersCounted, StatesAgree, Tickets;
      ghost var states := States(tickets);
      CountRules.WithdrawSound(cfg, spec, ticket.Tag(), next);
      WithdrawnIs(spec, ticket.Tag(), next);
      InTickets(spec, ticket.Tag());
      line.QueueIs(ticket.cls);
      WaitsInItsQueue(tickets, line, spec, next, ticket);
      CountersDown(running, byOwner, Tickets(spec), ticket.Tag());
      line.Remove(ticket);
      byOwner := PlusOwner(byOwner, ticket.owner, -1);
      spec := spec.(line := spec.line.Remove(ticket.Tag()));
      ticket.state := Left;
      OthersAgree(states, old(spec), spec, ticket, Left);
      assert States(tickets) == states[ticket := Left];
    }

    method Free(ticket: Ticket)
      requires Valid() && ticket in tickets && ticket.state == Active && ticket.Tag() in spec.active
      modifies this`spec, this`running, this`byOwner, ticket
      ensures Agrees() && CountRules.Sound(cfg, spec, next)
      ensures spec == old(spec).(active := old(spec.active) - {ticket.Tag()})
    {
      hide WellFormed, CountRules.KeyCaps, CountRules.InTurn, ClassesCounted, OwnersCounted, StatesAgree, Tickets;
      ghost var states := States(tickets);
      CountRules.FreeSound(cfg, spec, ticket.Tag(), next);
      FreedIs(spec, ticket.Tag(), next);
      InTickets(spec, ticket.Tag());
      CountersDown(running, byOwner, spec.active, ticket.Tag());
      CountersDown(running, byOwner, Tickets(spec), ticket.Tag());
      running, byOwner := Plus(running, ticket.cls, -1), PlusOwner(byOwner, ticket.owner, -1);
      spec := spec.(active := spec.active - {ticket.Tag()});
      ticket.state := Left;
      OthersAgree(states, old(spec), spec, ticket, Left);
      assert States(tickets) == states[ticket := Left];
    }
  }

  lemma InTickets(p: Places, t: Tag)
    ensures t in p.line.Waiting() || t in p.active ==> t in Tickets(p)
  {
  }

  lemma CountLeftForGood(cfg: Config, p: Places, t: Tag, next: nat)
    requires CountRules.Good(cfg, p, next)
    ensures var q := CountRules.Leave(cfg, p, t);
            t !in q.active && !q.line.Has(t)
  {
    CountRules.LeaveKeeps(cfg, p, t, next);
    WaitingIs(CountRules.Leave(cfg, p, t), next);
  }

  lemma NewTag(p: Places, t: Tag)
    requires WellFormed(p, t.id)
    ensures t !in p.active && !p.line.Has(t) && t !in p.line.Waiting()
  {
    WaitingIs(p, t.id);
  }

  lemma LeftForGood(cfg: Config, p: Places, t: Tag, next: nat)
    requires Good(cfg, p, next)
    ensures var q := PlaceRules.Leave(cfg, p, t);
            t !in q.active && !q.line.Has(t)
  {
    LeaveKeeps(cfg, p, t, next);
    WaitingIs(PlaceRules.Leave(cfg, p, t), next);
  }

  lemma StateIs(states: map<Ticket, TicketState>, p: Places, ticket: Ticket)
    requires StatesAgree(states, p) && ticket in states
    ensures states[ticket] == Active <==> ticket.Tag() in p.active
    ensures states[ticket] == Waiting <==> p.line.Has(ticket.Tag())
  {
  }

  lemma WithdrawnIs(p: Places, t: Tag, next: nat)
    requires WellFormed(p, next) && p.line.Has(t)
    ensures SameButFor(p, p.(line := p.line.Remove(t)), t)
    ensures !p.line.Remove(t).Has(t) && t !in p.active
    ensures Sorted(p.line.Queue(t.cls)) && t in p.line.Waiting()
    ensures p.line.Remove(t).Waiting() == p.line.Waiting() - {t}
  {
    RemoveKeeps(p, t, next);
    WaitingIs(p, next);
  }

  lemma AddedIs(p: Places, t: Tag)
    requires WellFormed(p, t.id) && t !in p.active
    ensures SameButFor(p, p.(line := p.line.Add(t)), t)
    ensures p.line.Add(t).Has(t) && p.line.Add(t).Waiting() == p.line.Waiting() + {t}
    ensures Tickets(p.(line := p.line.Add(t))) == Tickets(p) + {t}
  {
    AddKeeps(p, t);
  }

  lemma BegunIs(p: Places, t: Tag)
    requires t !in p.line.Waiting() && t !in p.active
    ensures SameButFor(p, p.(active := p.active + {t}), t)
    ensures t !in Tickets(p) && Tickets(p.(active := p.active + {t})) == Tickets(p) + {t}
  {
  }

  lemma NotInTickets(p: Places, t: Tag)
    requires t !in p.line.Waiting() && t !in p.active
    ensures t !in Tickets(p)
  {
  }

  lemma HeadGrantIs(cfg: Config, p: Places, t: Tag, next: nat)
    requires CountRules.Sound(cfg, p, next) && |p.active| < cfg.countActive
    requires p.line.InOrder() != [] && p.line.InOrder()[0] == t
    ensures p.line.Has(t) && t !in p.active && Sorted(p.line.Queue(t.cls))
    ensures CountRules.Sound(cfg, PlaceRules.Grant(p, t), next)
    ensures SameButFor(p, PlaceRules.Grant(p, t), t) && !PlaceRules.Grant(p, t).line.Has(t)
    ensures Tickets(PlaceRules.Grant(p, t)) == Tickets(p)
    ensures |PlaceRules.Grant(p, t).line.InOrder()| < |p.line.InOrder()|
  {
    CountRules.GrantKeeps(cfg, p, next);
    GrantWellFormed(p, t, next);
    GrantedIs(p, t, next);
  }

  lemma FreedIs(p: Places, t: Tag, next: nat)
    requires WellFormed(p, next) && t in p.active
    ensures SameButFor(p, p.(active := p.active - {t}), t)
    ensures !p.line.Has(t)
  {
  }

  lemma SoundAfterGrant(cfg: Config, p: Places, t: Tag, next: nat)
    requires Sound(cfg, p, next) && FirstRoom(cfg, p.active, p.line.InOrder()) == Some(t)
    ensures p.line.Has(t) && t !in p.active
    ensures Sound(cfg, PlaceRules.Grant(p, t), next)
    ensures |PlaceRules.Grant(p, t).line.InOrder()| < |p.line.InOrder()|
    ensures SameButFor(p, PlaceRules.Grant(p, t), t)
    ensures !PlaceRules.Grant(p, t).line.Has(t)
  {
    hide WellFormed, ActiveCaps, WaitingCaps, NoOvertaking, HasRoom, SameButFor;
    PickIsFirst(cfg, p, next);
    NotActive(p, t, next);
    GrantWellFormed(p, t, next);
    GrantedIs(p, t, next);
    ActiveCapsGrow(cfg, p.active, t);
    WaitingCapsShrink(cfg, p, t, next);
    GrantInTurn(cfg, p, t, next);
  }

  lemma NotActive(p: Places, t: Tag, next: nat)
    requires WellFormed(p, next) && p.line.Has(t)
    ensures t !in p.active
  {
  }

  lemma GrantedIs(p: Places, t: Tag, next: nat)
    requires WellFormed(p, next) && p.line.Has(t)
    ensures SameButFor(p, PlaceRules.Grant(p, t), t)
    ensures !PlaceRules.Grant(p, t).line.Has(t)
  {
    RemoveKeeps(p, t, next);
  }
}
