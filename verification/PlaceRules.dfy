/** The rules of places (contract sections 5 and 7) on values: which ticket has a place, which waits, and what an
    arrival or a departure does to them. The classes of Admission.dfy carry these rules out in place. */
module PlaceRules {

  import opened Wrappers

  datatype Class = Reader | Agent | Internal | External

  predicate Shared(c: Class) {
    !c.Reader?
  }

  type Key = nat

  /** What the rules know of a ticket. A smaller `id` arrived earlier; `owner` is none but for outside keys. */
  datatype Tag = Tag(id: nat, cls: Class, owner: Option<Key>)

  datatype ClassLimits = ClassLimits(active: nat, waiting: nat)

  datatype Config = Config(
    reader: ClassLimits, agent: ClassLimits, internal: ClassLimits, external: ClassLimits,
    perKeyActive: nat, perKeyWaiting: nat, sharedPlaces: nat, countActive: nat, countPerOutsideKey: nat)
  {
    function Of(c: Class): ClassLimits {
      match c
      case Reader => reader
      case Agent => agent
      case Internal => internal
      case External => external
    }
  }

  /** Who waits: a queue for each class, the earliest first. */
  datatype Line = Line(reader: seq<Tag>, agent: seq<Tag>, internal: seq<Tag>, external: seq<Tag>) {
    function Queue(c: Class): seq<Tag> {
      match c
      case Reader => reader
      case Agent => agent
      case Internal => internal
      case External => external
    }

    function With(c: Class, q: seq<Tag>): Line {
      match c
      case Reader => this.(reader := q)
      case Agent => this.(agent := q)
      case Internal => this.(internal := q)
      case External => this.(external := q)
    }

    function InOrder(): seq<Tag> {
      reader + agent + internal + external
    }

    predicate Has(t: Tag) {
      t in Queue(t.cls)
    }

    function Add(t: Tag): Line {
      With(t.cls, Queue(t.cls) + [t])
    }

    function Remove(t: Tag): Line {
      With(t.cls, Without(Queue(t.cls), t))
    }

    function Waiting(): set<Tag> {
      set t | t in InOrder()
    }
  }

  const EMPTY_LINE := Line([], [], [], [])

  /** The queue without the ticket. */
  function Without(q: seq<Tag>, t: Tag): (r: seq<Tag>)
    ensures |r| == if t in q then |q| - 1 else |q|
  {
    if q == [] then [] else if q[0] == t then q[1..] else [q[0]] + Without(q[1..], t)
  }

  datatype Places = Places(line: Line, active: set<Tag>)

  const NO_PLACES := Places(EMPTY_LINE, {})

  function ClassCount(s: set<Tag>, c: Class): nat {
    |set t | t in s && t.cls == c|
  }

  function OwnerCount(s: set<Tag>, k: Key): nat {
    |set t | t in s && t.owner == Some(k)|
  }

  function SharedCount(s: set<Tag>): nat {
    ClassCount(s, Agent) + ClassCount(s, Internal) + ClassCount(s, External)
  }

  // ----- Generations: class, shared and per-key caps

  /** Whether a ticket could become active beside those that are. */
  predicate HasRoom(cfg: Config, active: set<Tag>, t: Tag) {
    && ClassCount(active, t.cls) < cfg.Of(t.cls).active
    && (t.owner.Some? ==> OwnerCount(active, t.owner.value) < cfg.perKeyActive)
    && (Shared(t.cls) ==> SharedCount(active) < cfg.sharedPlaces)
  }

  /** The first ticket of a queue that has room. */
  function FirstRoom(cfg: Config, active: set<Tag>, q: seq<Tag>): Option<Tag> {
    if q == [] then None
    else if HasRoom(cfg, active, q[0]) then Some(q[0])
    else FirstRoom(cfg, active, q[1..])
  }

  function Grant(p: Places, t: Tag): Places {
    Places(p.line.Remove(t), p.active + {t})
  }

  /** Grants, one by one, to the first in line that has room; it stops where `NoneHasRoom` holds. */
  function Dispatch(cfg: Config, p: Places): Places
    decreases |p.line.InOrder()|
  {
    match FirstRoom(cfg, p.active, p.line.InOrder())
    case None => p
    case Some(t) => if p.line.Has(t) then Dispatch(cfg, Grant(p, t)) else p
  }

  /** An arrival. None is a refusal, which only a full queue or a full key can be the reason of. */
  function Enter(cfg: Config, p: Places, t: Tag): Option<Places> {
    if HasRoom(cfg, p.active, t) then Some(p.(active := p.active + {t}))
    else if |p.line.Queue(t.cls)| >= cfg.Of(t.cls).waiting then None
    else if t.owner.Some? && OwnerCount(p.line.Waiting(), t.owner.value) >= cfg.perKeyWaiting then None
    else Some(p.(line := p.line.Add(t)))
  }

  /** A ticket leaves: its place in line or its active place. One that has left already changes nothing. */
  function Leave(cfg: Config, p: Places, t: Tag): Places {
    if p.line.Has(t) then Dispatch(cfg, p.(line := p.line.Remove(t)))
    else if t in p.active then Dispatch(cfg, p.(active := p.active - {t}))
    else p
  }

  // ----- What holds of places

  /** Every ticket that has not left. */
  function Tickets(p: Places): set<Tag> {
    p.line.Waiting() + p.active
  }

  ghost predicate Sorted(q: seq<Tag>) {
    forall i, j :: 0 <= i < j < |q| ==> q[i].id < q[j].id
  }

  /** Each queue holds its own class in the order of arrival, and nothing waits that is active. */
  ghost predicate WellFormed(p: Places, next: nat) {
    && (forall c: Class :: Sorted(p.line.Queue(c)))
    && (forall c: Class, t :: t in p.line.Queue(c) ==> t.cls == c && t !in p.active && t.id < next)
    && (forall t :: t in p.active ==> t.id < next)
  }

  ghost predicate ActiveCaps(cfg: Config, active: set<Tag>) {
    && (forall c: Class :: ClassCount(active, c) <= cfg.Of(c).active)
    && SharedCount(active) <= cfg.sharedPlaces
    && (forall k: Key :: OwnerCount(active, k) <= cfg.perKeyActive)
  }

  ghost predicate WaitingCaps(cfg: Config, line: Line) {
    && (forall c: Class :: |line.Queue(c)| <= cfg.Of(c).waiting)
    && (forall k: Key :: OwnerCount(line.Waiting(), k) <= cfg.perKeyWaiting)
  }

  ghost predicate CapsHold(cfg: Config, p: Places) {
    ActiveCaps(cfg, p.active) && WaitingCaps(cfg, p.line)
  }

  /** No waiting ticket has room. */
  ghost predicate NoneHasRoom(cfg: Config, p: Places) {
    forall t :: p.line.Has(t) ==> !HasRoom(cfg, p.active, t)
  }

  /** No ticket is active ahead of an earlier one of the same class and owner that still waits. */
  ghost predicate NoOvertaking(p: Places) {
    forall early, late :: p.line.Has(early) && late in p.active && late.cls == early.cls && late.owner == early.owner
      ==> late.id < early.id
  }

  ghost predicate Good(cfg: Config, p: Places, next: nat) {
    WellFormed(p, next) && CapsHold(cfg, p) && NoneHasRoom(cfg, p) && NoOvertaking(p)
  }

  // ----- Counting

  lemma ClassCountOf(s: set<Tag>, t: Tag, c: Class)
    requires t !in s
    ensures ClassCount(s + {t}, c) == ClassCount(s, c) + (if t.cls == c then 1 else 0)
  {
    var before := set u | u in s && u.cls == c;
    assert (set u | u in s + {t} && u.cls == c) == if t.cls == c then before + {t} else before;
  }

  lemma OwnerCountOf(s: set<Tag>, t: Tag, k: Key)
    requires t !in s
    ensures OwnerCount(s + {t}, k) == OwnerCount(s, k) + (if t.owner == Some(k) then 1 else 0)
  {
    var before := set u | u in s && u.owner == Some(k);
    assert (set u | u in s + {t} && u.owner == Some(k)) == if t.owner == Some(k) then before + {t} else before;
  }

  lemma Counts(s: set<Tag>, t: Tag)
    requires t !in s
    ensures forall c: Class :: ClassCount(s + {t}, c) == ClassCount(s, c) + (if t.cls == c then 1 else 0)
    ensures forall k: Key :: OwnerCount(s + {t}, k) == OwnerCount(s, k) + (if t.owner == Some(k) then 1 else 0)
  {
    forall c: Class {
      ClassCountOf(s, t, c);
    }
    forall k: Key {
      OwnerCountOf(s, t, k);
    }
  }

  lemma CountsWithout(s: set<Tag>, t: Tag)
    requires t in s
    ensures forall c: Class :: ClassCount(s, c) == ClassCount(s - {t}, c) + (if t.cls == c then 1 else 0)
    ensures forall k: Key :: OwnerCount(s, k) == OwnerCount(s - {t}, k) + (if t.owner == Some(k) then 1 else 0)
  {
    Counts(s - {t}, t);
    assert (s - {t}) + {t} == s;
  }

  // ----- Queues

  lemma {:induction false} WithoutKeeps(q: seq<Tag>, t: Tag)
    requires Sorted(q)
    ensures Sorted(Without(q, t))
    ensures forall u :: u in Without(q, t) <==> u in q && u != t
  {
    if q != [] {
      assert q == [q[0]] + q[1..];
      WithoutKeeps(q[1..], t);
      if q[0] == t {
        assert forall i :: 0 <= i < |q[1..]| ==> q[1..][i] == q[i + 1];
      } else {
        var rest := Without(q[1..], t);
        forall i | 0 <= i < |rest|
          ensures q[0].id < rest[i].id
        {
          assert rest[i] in q[1..];
        }
      }
    }
  }

  lemma InOrderMembers(line: Line)
    ensures forall t :: t in line.InOrder() <==> exists c: Class :: t in line.Queue(c)
  {
    forall t
      ensures t in line.InOrder() <==> exists c: Class :: t in line.Queue(c)
    {
      if t in line.InOrder() {
        assert t in line.Queue(Reader) || t in line.Queue(Agent)
            || t in line.Queue(Internal) || t in line.Queue(External);
      }
    }
  }

  lemma WaitingIs(p: Places, next: nat)
    requires WellFormed(p, next)
    ensures forall t :: t in p.line.Waiting() <==> p.line.Has(t)
  {
    InOrderMembers(p.line);
  }

  lemma RemoveKeeps(p: Places, t: Tag, next: nat)
    requires WellFormed(p, next) && p.line.Has(t)
    ensures WellFormed(p.(line := p.line.Remove(t)), next)
    ensures forall u :: p.line.Remove(t).Has(u) <==> p.line.Has(u) && u != t
    ensures p.line.Remove(t).Waiting() == p.line.Waiting() - {t}
    ensures |p.line.Remove(t).InOrder()| == |p.line.InOrder()| - 1
  {
    WithoutKeeps(p.line.Queue(t.cls), t);
    var q := p.(line := p.line.Remove(t));
    forall c: Class, u | u in q.line.Queue(c)
      ensures u in p.line.Queue(c)
    {
    }
    assert forall c: Class :: Sorted(q.line.Queue(c)) by {
      assert forall c: Class :: c != t.cls ==> q.line.Queue(c) == p.line.Queue(c);
    }
    WaitingIs(p, next);
    WaitingIs(q, next);
  }

  lemma {:induction false} FirstRoomIsFirst(cfg: Config, active: set<Tag>, q: seq<Tag>)
    ensures FirstRoom(cfg, active, q).None? ==> forall t :: t in q ==> !HasRoom(cfg, active, t)
    ensures FirstRoom(cfg, active, q).Some? ==>
              exists i :: && 0 <= i < |q| && FirstRoom(cfg, active, q) == Some(q[i]) && HasRoom(cfg, active, q[i])
                          && forall j :: 0 <= j < i ==> !HasRoom(cfg, active, q[j])
  {
    if q != [] {
      if HasRoom(cfg, active, q[0]) {
        assert FirstRoom(cfg, active, q) == Some(q[0]);
      } else {
        FirstRoomIsFirst(cfg, active, q[1..]);
        if FirstRoom(cfg, active, q).Some? {
          var i :| && 0 <= i < |q[1..]| && FirstRoom(cfg, active, q[1..]) == Some(q[1..][i])
                   && HasRoom(cfg, active, q[1..][i])
                   && forall j :: 0 <= j < i ==> !HasRoom(cfg, active, q[1..][j]);
          forall j | 0 <= j < i + 1
            ensures !HasRoom(cfg, active, q[j])
          {
            if j > 0 {
              assert q[j] == q[1..][j - 1];
            }
          }
          assert q[i + 1] == q[1..][i];
        } else {
          assert q == [q[0]] + q[1..];
        }
      }
    }
  }

  lemma {:induction false} FirstRoomOfTwo(cfg: Config, active: set<Tag>, a: seq<Tag>, b: seq<Tag>)
    ensures FirstRoom(cfg, active, a + b)
         == if FirstRoom(cfg, active, a).Some? then FirstRoom(cfg, active, a) else FirstRoom(cfg, active, b)
  {
    if a == [] {
      assert a + b == b;
    } else {
      assert (a + b)[1..] == a[1..] + b;
      FirstRoomOfTwo(cfg, active, a[1..], b);
    }
  }

  /** Whether class `d` is served before class `c`. */
  predicate Before(d: Class, c: Class) {
    match c
    case Reader => false
    case Agent => d.Reader?
    case Internal => d.Reader? || d.Agent?
    case External => !d.External?
  }

  /** `pick` has room, and every other waiting ticket of its class with room arrived later. */
  ghost predicate FirstInClass(cfg: Config, p: Places, pick: Tag) {
    && p.line.Has(pick) && HasRoom(cfg, p.active, pick)
    && forall u :: u in p.line.Queue(pick.cls) && HasRoom(cfg, p.active, u) && u != pick ==> pick.id < u.id
  }

  ghost predicate NoRoomInClass(cfg: Config, p: Places, c: Class) {
    forall u :: u in p.line.Queue(c) ==> !HasRoom(cfg, p.active, u)
  }

  lemma QueuePick(cfg: Config, p: Places, c: Class, next: nat)
    requires WellFormed(p, next)
    ensures var pick := FirstRoom(cfg, p.active, p.line.Queue(c));
            && (pick.None? ==> NoRoomInClass(cfg, p, c))
            && (pick.Some? ==> pick.value.cls == c && FirstInClass(cfg, p, pick.value))
  {
    var q, active := p.line.Queue(c), p.active;
    FirstRoomIsFirst(cfg, active, q);
    var pick := FirstRoom(cfg, active, q);
    if pick.Some? {
      var i :| 0 <= i < |q| && pick == Some(q[i]) && forall j :: 0 <= j < i ==> !HasRoom(cfg, active, q[j]);
      assert q[i] in q;
      forall u | u in q && HasRoom(cfg, active, u) && u != pick.value
        ensures pick.value.id < u.id
      {
        var j :| 0 <= j < |q| && q[j] == u;
      }
    }
  }

  /** The dispatch picks the first ticket with room: no class before its own has one, and none arrived before it. */
  lemma PickIsFirst(cfg: Config, p: Places, next: nat)
    requires WellFormed(p, next)
    ensures var pick := FirstRoom(cfg, p.active, p.line.InOrder());
            && (pick.None? ==> forall c: Class :: NoRoomInClass(cfg, p, c))
            && (pick.Some? ==>
                  && FirstInClass(cfg, p, pick.value)
                  && forall c: Class :: Before(c, pick.value.cls) ==> NoRoomInClass(cfg, p, c))
  {
    var line, active := p.line, p.active;
    FirstRoomOfTwo(cfg, active, line.reader + line.agent + line.internal, line.external);
    FirstRoomOfTwo(cfg, active, line.reader + line.agent, line.internal);
    FirstRoomOfTwo(cfg, active, line.reader, line.agent);
    QueuePick(cfg, p, Reader, next);
    QueuePick(cfg, p, Agent, next);
    QueuePick(cfg, p, Internal, next);
    QueuePick(cfg, p, External, next);
  }

  // ----- Arrivals and departures keep all of it

  /** `Good` but for the rule that no waiting ticket has room: what a departure leaves for the dispatch. */
  ghost predicate Sound(cfg: Config, p: Places, next: nat) {
    WellFormed(p, next) && CapsHold(cfg, p) && NoOvertaking(p)
  }

  lemma GrantWellFormed(p: Places, t: Tag, next: nat)
    requires WellFormed(p, next) && p.line.Has(t)
    ensures WellFormed(Grant(p, t), next)
    ensures Grant(p, t).line.Waiting() == p.line.Waiting() - {t}
    ensures |Grant(p, t).line.InOrder()| < |p.line.InOrder()|
    ensures Tickets(Grant(p, t)) == Tickets(p)
  {
    RemoveKeeps(p, t, next);
    WaitingIs(p, next);
  }

  lemma ActiveCapsGrow(cfg: Config, active: set<Tag>, t: Tag)
    requires ActiveCaps(cfg, active) && HasRoom(cfg, active, t) && t !in active
    ensures ActiveCaps(cfg, active + {t})
  {
    Counts(active, t);
  }

  lemma ActiveCapsShrink(cfg: Config, active: set<Tag>, t: Tag)
    requires ActiveCaps(cfg, active) && t in active
    ensures ActiveCaps(cfg, active - {t})
  {
    CountsWithout(active, t);
  }

  lemma OwnersShrink(s: set<Tag>, t: Tag, cap: nat)
    requires forall k: Key :: OwnerCount(s, k) <= cap
    ensures forall k: Key :: OwnerCount(s - {t}, k) <= cap
  {
    if t in s {
      CountsWithout(s, t);
    } else {
      assert s - {t} == s;
    }
  }

  lemma OwnersGrow(s: set<Tag>, t: Tag, cap: nat)
    requires forall k: Key :: OwnerCount(s, k) <= cap
    requires t.owner.Some? ==> OwnerCount(s, t.owner.value) < cap
    ensures forall k: Key :: OwnerCount(s + {t}, k) <= cap
  {
    if t !in s {
      Counts(s, t);
    } else {
      assert s + {t} == s;
    }
  }

  lemma WaitingCapsShrink(cfg: Config, p: Places, t: Tag, next: nat)
    requires WellFormed(p, next) && WaitingCaps(cfg, p.line) && p.line.Has(t)
    ensures WaitingCaps(cfg, p.line.Remove(t))
  {
    hide WellFormed;
    RemoveKeeps(p, t, next);
    assert forall c: Class :: |p.line.Remove(t).Queue(c)| <= |p.line.Queue(c)|;
    OwnersShrink(p.line.Waiting(), t, cfg.perKeyWaiting);
  }

  lemma WaitingCapsGrow(cfg: Config, p: Places, t: Tag)
    requires WellFormed(p, t.id) && WaitingCaps(cfg, p.line) && t !in p.active
    requires |p.line.Queue(t.cls)| < cfg.Of(t.cls).waiting
    requires t.owner.Some? ==> OwnerCount(p.line.Waiting(), t.owner.value) < cfg.perKeyWaiting
    ensures WaitingCaps(cfg, p.line.Add(t))
  {
    AddKeeps(p, t);
    OwnersGrow(p.line.Waiting(), t, cfg.perKeyWaiting);
    assert forall c: Class :: |p.line.Add(t).Queue(c)| == |p.line.Queue(c)| + (if c == t.cls then 1 else 0);
  }

  lemma GrantInTurn(cfg: Config, p: Places, t: Tag, next: nat)
    requires WellFormed(p, next) && NoOvertaking(p) && FirstInClass(cfg, p, t)
    ensures NoOvertaking(Grant(p, t))
  {
    RemoveKeeps(p, t, next);
  }

  lemma AllBlocked(cfg: Config, p: Places)
    requires forall c: Class :: NoRoomInClass(cfg, p, c)
    ensures NoneHasRoom(cfg, p)
  {
    forall t | p.line.Has(t)
      ensures !HasRoom(cfg, p.active, t)
    {
      assert NoRoomInClass(cfg, p, t.cls);
    }
  }

  lemma {:induction false} DispatchKeeps(cfg: Config, p: Places, next: nat)
    requires Sound(cfg, p, next)
    ensures Good(cfg, Dispatch(cfg, p), next)
    ensures p.active <= Dispatch(cfg, p).active && Tickets(Dispatch(cfg, p)) == Tickets(p)
    ensures Dispatch(cfg, p).line.Waiting() <= p.line.Waiting()
    decreases |p.line.InOrder()|
  {
    PickIsFirst(cfg, p, next);
    var pick := FirstRoom(cfg, p.active, p.line.InOrder());
    if pick.Some? {
      GrantWellFormed(p, pick.value, next);
      ActiveCapsGrow(cfg, p.active, pick.value);
      WaitingCapsShrink(cfg, p, pick.value, next);
      GrantInTurn(cfg, p, pick.value, next);
      DispatchKeeps(cfg, Grant(p, pick.value), next);
    } else {
      AllBlocked(cfg, p);
    }
  }

  lemma AddKeeps(p: Places, t: Tag)
    requires WellFormed(p, t.id) && t !in p.active
    ensures WellFormed(p.(line := p.line.Add(t)), t.id + 1)
    ensures p.line.Add(t).Waiting() == p.line.Waiting() + {t}
    ensures forall u :: p.line.Add(t).Has(u) <==> p.line.Has(u) || u == t
  {
    var q := p.(line := p.line.Add(t));
    SortedAdd(p.line.Queue(t.cls), t);
    assert forall c: Class :: c != t.cls ==> q.line.Queue(c) == p.line.Queue(c);
    WaitingIs(p, t.id);
    WaitingIs(q, t.id + 1);
  }

  lemma SortedAdd(q: seq<Tag>, t: Tag)
    requires Sorted(q) && forall u :: u in q ==> u.id < t.id
    ensures Sorted(q + [t])
    ensures forall u :: u in q + [t] <==> u in q || u == t
  {
    assert forall i :: 0 <= i < |q| ==> q[i] in q;
  }

  /** Room is exactly what keeps the caps. */
  lemma RoomKeepsCaps(cfg: Config, active: set<Tag>, t: Tag)
    requires ActiveCaps(cfg, active) && t !in active
    ensures HasRoom(cfg, active, t) <==> ActiveCaps(cfg, active + {t})
  {
    Counts(active, t);
    if !HasRoom(cfg, active, t) {
      assert ClassCount(active + {t}, t.cls) > cfg.Of(t.cls).active || SharedCount(active + {t}) > cfg.sharedPlaces
          || (t.owner.Some? && OwnerCount(active + {t}, t.owner.value) > cfg.perKeyActive);
    }
  }

  /** Nothing is held back: an arrival becomes active exactly if the active caps allow it, and is refused exactly if
      neither they nor the waiting caps do. */
  lemma EnterHoldsNothingBack(cfg: Config, p: Places, t: Tag)
    requires Good(cfg, p, t.id)
    ensures Enter(cfg, p, t).None? <==> !ActiveCaps(cfg, p.active + {t}) && !WaitingCaps(cfg, p.line.Add(t))
    ensures Enter(cfg, p, t).Some? ==>
              if ActiveCaps(cfg, p.active + {t}) then t in Enter(cfg, p, t).value.active
              else t in Enter(cfg, p, t).value.line.Waiting()
  {
    hide NoneHasRoom, NoOvertaking;
    assert t !in p.active;
    RoomKeepsCaps(cfg, p.active, t);
    WaitingGrows(cfg, p, t);
    AddKeeps(p, t);
  }

  /** The waiting caps are kept exactly within their two bounds. */
  lemma WaitingGrows(cfg: Config, p: Places, t: Tag)
    requires WellFormed(p, t.id) && WaitingCaps(cfg, p.line) && t !in p.active
    ensures WaitingCaps(cfg, p.line.Add(t)) <==>
              && |p.line.Queue(t.cls)| < cfg.Of(t.cls).waiting
              && (t.owner.Some? ==> OwnerCount(p.line.Waiting(), t.owner.value) < cfg.perKeyWaiting)
  {
    AddKeeps(p, t);
    WaitingIs(p, t.id);
    assert t !in p.line.Waiting();
    Counts(p.line.Waiting(), t);
    assert |p.line.Add(t).Queue(t.cls)| == |p.line.Queue(t.cls)| + 1;
    if |p.line.Queue(t.cls)| < cfg.Of(t.cls).waiting
       && (t.owner.Some? ==> OwnerCount(p.line.Waiting(), t.owner.value) < cfg.perKeyWaiting) {
      WaitingCapsGrow(cfg, p, t);
    } else if t.owner.Some? {
      assert OwnerCount(p.line.Add(t).Waiting(), t.owner.value) == OwnerCount(p.line.Waiting(), t.owner.value) + 1;
    }
  }

  /** An arrival keeps the rules. A newcomer never passes an earlier ticket of its class and owner. */
  lemma EnterKeeps(cfg: Config, p: Places, t: Tag)
    requires Good(cfg, p, t.id)
    ensures Enter(cfg, p, t).Some? ==>
              && Good(cfg, Enter(cfg, p, t).value, t.id + 1)
              && Tickets(Enter(cfg, p, t).value) == Tickets(p) + {t}
              && p.active <= Enter(cfg, p, t).value.active
  {
    if HasRoom(cfg, p.active, t) {
      EnterActive(cfg, p, t);
    } else if Enter(cfg, p, t).Some? {
      AddKeeps(p, t);
      WaitingCapsGrow(cfg, p, t);
    }
  }

  lemma EnterActive(cfg: Config, p: Places, t: Tag)
    requires Good(cfg, p, t.id) && HasRoom(cfg, p.active, t)
    ensures Good(cfg, p.(active := p.active + {t}), t.id + 1)
    ensures forall u :: p.line.Has(u) && u.cls == t.cls ==> u.owner != t.owner
  {
    ActiveCapsGrow(cfg, p.active, t);
    forall u | p.line.Has(u)
      ensures !HasRoom(cfg, p.active + {t}, u)
    {
      Counts(p.active, t);
    }
  }

  lemma WithdrawKeeps(cfg: Config, p: Places, t: Tag, next: nat)
    requires Good(cfg, p, next) && p.line.Has(t)
    ensures Good(cfg, p.(line := p.line.Remove(t)), next)
    ensures Tickets(p.(line := p.line.Remove(t))) == Tickets(p) - {t}
    ensures p.line.Remove(t).Waiting() <= p.line.Waiting()
  {
    RemoveKeeps(p, t, next);
    WithdrawTickets(p, t, next);
    WaitingCapsShrink(cfg, p, t, next);
  }

  lemma WithdrawTickets(p: Places, t: Tag, next: nat)
    requires WellFormed(p, next) && p.line.Has(t)
    ensures Tickets(p.(line := p.line.Remove(t))) == Tickets(p) - {t}
  {
    RemoveKeeps(p, t, next);
    WaitingIs(p, next);
    assert t !in p.active;
  }

  lemma FreeTickets(p: Places, t: Tag, next: nat)
    requires WellFormed(p, next) && t in p.active
    ensures WellFormed(p.(active := p.active - {t}), next)
    ensures Tickets(p.(active := p.active - {t})) == Tickets(p) - {t}
  {
    WaitingIs(p, next);
  }

  lemma FreeKeeps(cfg: Config, p: Places, t: Tag, next: nat)
    requires Good(cfg, p, next) && t in p.active
    ensures Sound(cfg, p.(active := p.active - {t}), next)
    ensures Tickets(p.(active := p.active - {t})) == Tickets(p) - {t}
  {
    ActiveCapsShrink(cfg, p.active, t);
    FreeTickets(p, t, next);
  }

  /** A departure keeps the rules: when the dispatch is done, no waiting ticket has room. */
  lemma LeaveKeeps(cfg: Config, p: Places, t: Tag, next: nat)
    requires Good(cfg, p, next)
    ensures Good(cfg, Leave(cfg, p, t), next)
    ensures Tickets(Leave(cfg, p, t)) == Tickets(p) - {t}
    ensures Leave(cfg, p, t).line.Waiting() <= p.line.Waiting()
    ensures p.active - {t} <= Leave(cfg, p, t).active
  {
    WaitingIs(p, next);
    if p.line.Has(t) {
      WithdrawKeeps(cfg, p, t, next);
      DispatchKeeps(cfg, p.(line := p.line.Remove(t)), next);
    } else if t in p.active {
      FreeKeeps(cfg, p, t, next);
      DispatchKeeps(cfg, p.(active := p.active - {t}), next);
    }
  }

  // ----- A departure grants at most one place

  lemma {:induction false} BlockedStays(cfg: Config, p: Places, next: nat)
    requires WellFormed(p, next) && NoneHasRoom(cfg, p)
    ensures Dispatch(cfg, p) == p
  {
    PickIsFirst(cfg, p, next);
  }

  /** A waiting ticket that leaves gives no other one room: the dispatch after it does nothing. */
  lemma WithdrawalGrantsNothing(cfg: Config, p: Places, t: Tag, next: nat)
    requires Good(cfg, p, next) && p.line.Has(t)
    ensures Leave(cfg, p, t) == Places(p.line.Remove(t), p.active)
  {
    WithdrawKeeps(cfg, p, t, next);
    BlockedStays(cfg, p.(line := p.line.Remove(t)), next);
  }

  /** Only tickets of class `external` have an owner: an outside key may use no other class. */
  ghost predicate OwnersAreExternal(p: Places) {
    forall t :: t in Tickets(p) && t.owner.Some? ==> t.cls == External
  }

  /** Under the owner rule an active ticket that leaves makes room for at most one: after the first grant the
      dispatch finds no other. */
  lemma DepartureGrantsOne(cfg: Config, p: Places, t: Tag, next: nat)
    requires Good(cfg, p, next) && OwnersAreExternal(p) && t in p.active
    ensures var freed := p.(active := p.active - {t});
            var pick := FirstRoom(cfg, freed.active, freed.line.InOrder());
            Leave(cfg, p, t) == if pick.None? then freed else Grant(freed, pick.value)
  {
    var freed := p.(active := p.active - {t});
    var pick := FirstRoom(cfg, freed.active, freed.line.InOrder());
    WaitingIs(p, next);
    FreeKeeps(cfg, p, t, next);
    PickIsFirst(cfg, freed, next);
    if pick.Some? {
      var granted := Grant(freed, pick.value);
      RemoveKeeps(freed, pick.value, next);
      GrantWellFormed(freed, pick.value, next);
      forall v | granted.line.Has(v)
        ensures !HasRoom(cfg, granted.active, v)
      {
        OneGrantBlocks(cfg, p.active, t, pick.value, v);
      }
      BlockedStays(cfg, granted, next);
    } else {
      AllBlocked(cfg, freed);
      BlockedStays(cfg, freed, next);
    }
  }

  /** `t` left, `u` took the room it made, and `v` has none, as before. */
  lemma OneGrantBlocks(cfg: Config, active: set<Tag>, t: Tag, u: Tag, v: Tag)
    requires t in active && u !in active && ActiveCaps(cfg, active)
    requires !HasRoom(cfg, active, u) && !HasRoom(cfg, active, v) && HasRoom(cfg, active - {t}, u)
    requires forall x :: x in {t, u, v} && x.owner.Some? ==> x.cls == External
    ensures !HasRoom(cfg, active - {t} + {u}, v)
  {
    CountsWithout(active, t);
    Counts(active - {t}, u);
    assert t.owner.Some? ==> t.cls == External by {
      assert t in {t, u, v};
    }
    assert u.owner.Some? ==> u.cls == External by {
      assert u in {t, u, v};
    }
    assert v.owner.Some? ==> v.cls == External by {
      assert v in {t, u, v};
    }
  }

  // One place for each class, one shared place and one place for a key: the least that a configuration allows.
  const TIGHT := Config(ClassLimits(1, 1), ClassLimits(1, 1), ClassLimits(1, 1), ClassLimits(1, 1), 1, 1, 1, 1, 1)
  const KEYS_READER := Tag(0, Reader, Some(7))
  const NEXT_READER := Tag(1, Reader, None)
  const KEYS_AGENT := Tag(2, Agent, Some(7))
  const BOTH_WAIT := Line([NEXT_READER], [KEYS_AGENT], [], [])

  /** The owner rule is needed: without it a key may hold a reader's place, and when it leaves, both a reader that
      waited for the class and an agent that waited for the key become active. */
  lemma WithoutOwnerRuleTwoGrants()
    ensures Good(TIGHT, Places(BOTH_WAIT, {KEYS_READER}), 3)
    ensures Leave(TIGHT, Places(BOTH_WAIT, {KEYS_READER}), KEYS_READER).active == {NEXT_READER, KEYS_AGENT}
  {
    TwoWaitTight();
    var freed := Places(BOTH_WAIT, {});
    assert {KEYS_READER} - {KEYS_READER} == {};
    DispatchesReader();
    DispatchesAgent();
  }

  lemma TwoWaitTight()
    ensures Good(TIGHT, Places(BOTH_WAIT, {KEYS_READER}), 3)
  {
    NoPlacesAreGood(TIGHT);
    FirstEnters();
    EnterKeeps(TIGHT, NO_PLACES, KEYS_READER);
    var second := Places(Line([NEXT_READER], [], [], []), {KEYS_READER});
    SecondWaits();
    EnterKeeps(TIGHT, Places(EMPTY_LINE, {KEYS_READER}), NEXT_READER);
    ThirdWaits();
    EnterKeeps(TIGHT, second, KEYS_AGENT);
  }

  lemma FirstEnters()
    ensures Enter(TIGHT, NO_PLACES, KEYS_READER) == Some(Places(EMPTY_LINE, {KEYS_READER}))
  {
    NoTagCounts();
    assert {} + {KEYS_READER} == {KEYS_READER};
  }

  lemma SecondWaits()
    ensures Enter(TIGHT, Places(EMPTY_LINE, {KEYS_READER}), NEXT_READER)
         == Some(Places(Line([NEXT_READER], [], [], []), {KEYS_READER}))
  {
    OneTagCounts(KEYS_READER);
    assert [] + [NEXT_READER] == [NEXT_READER];
    assert !HasRoom(TIGHT, {KEYS_READER}, NEXT_READER);
  }

  lemma ThirdWaits()
    ensures Enter(TIGHT, Places(Line([NEXT_READER], [], [], []), {KEYS_READER}), KEYS_AGENT)
         == Some(Places(BOTH_WAIT, {KEYS_READER}))
  {
    OneTagCounts(KEYS_READER);
    OneTagCounts(NEXT_READER);
    var line := Line([NEXT_READER], [], [], []);
    assert line.InOrder() == [NEXT_READER];
    assert line.Waiting() == {NEXT_READER};
    assert [] + [KEYS_AGENT] == [KEYS_AGENT];
    assert !HasRoom(TIGHT, {KEYS_READER}, KEYS_AGENT);
  }

  lemma DispatchesReader()
    ensures Dispatch(TIGHT, Places(BOTH_WAIT, {}))
         == Dispatch(TIGHT, Places(Line([], [KEYS_AGENT], [], []), {NEXT_READER}))
  {
    NoTagCounts();
    var p := Places(BOTH_WAIT, {});
    assert p.line.InOrder()[0] == NEXT_READER;
    assert HasRoom(TIGHT, {}, NEXT_READER);
    assert Grant(p, NEXT_READER) == Places(Line([], [KEYS_AGENT], [], []), {NEXT_READER});
  }

  lemma DispatchesAgent()
    ensures Dispatch(TIGHT, Places(Line([], [KEYS_AGENT], [], []), {NEXT_READER})).active == {NEXT_READER, KEYS_AGENT}
  {
    OneTagCounts(NEXT_READER);
    var p := Places(Line([], [KEYS_AGENT], [], []), {NEXT_READER});
    assert p.line.InOrder()[0] == KEYS_AGENT;
    assert HasRoom(TIGHT, {NEXT_READER}, KEYS_AGENT);
    assert Grant(p, KEYS_AGENT) == Places(EMPTY_LINE, {NEXT_READER, KEYS_AGENT});
    assert EMPTY_LINE.InOrder() == [];
  }

  lemma NoTagCounts()
    ensures forall c: Class :: ClassCount({}, c) == 0
    ensures forall k: Key :: OwnerCount({}, k) == 0
  {
    forall c: Class
      ensures ClassCount({}, c) == 0
    {
      assert (set u: Tag | u in {} && u.cls == c) == {};
    }
    forall k: Key
      ensures OwnerCount({}, k) == 0
    {
      assert (set u: Tag | u in {} && u.owner == Some(k)) == {};
    }
  }

  lemma OneTagCounts(t: Tag)
    ensures forall c: Class :: ClassCount({t}, c) == if t.cls == c then 1 else 0
    ensures forall k: Key :: OwnerCount({t}, k) == if t.owner == Some(k) then 1 else 0
  {
    NoTagCounts();
    Counts({}, t);
    assert {} + {t} == {t};
  }

  // ----- Every run

  datatype Move = Arrive(cls: Class, owner: Option<Key>) | Depart(t: Tag)

  /** One move on the places and the next arrival number. A refused arrival leaves no ticket. */
  function Do(cfg: Config, p: Places, next: nat, move: Move): (Places, nat) {
    match move
    case Arrive(cls, owner) =>
      var entered := Enter(cfg, p, Tag(next, cls, owner));
      (if entered.Some? then entered.value else p, next + 1)
    case Depart(t) => (Leave(cfg, p, t), next)
  }

  function Run(cfg: Config, moves: seq<Move>): (Places, nat) {
    if moves == [] then (NO_PLACES, 0)
    else
      var (p, next) := Run(cfg, moves[..|moves| - 1]);
      Do(cfg, p, next, moves[|moves| - 1])
  }

  lemma DoKeeps(cfg: Config, p: Places, next: nat, move: Move)
    requires Good(cfg, p, next)
    ensures Good(cfg, Do(cfg, p, next, move).0, Do(cfg, p, next, move).1)
    ensures forall t: Tag :: t.id < next && t in Do(cfg, p, next, move).0.line.Waiting() ==> t in p.line.Waiting()
  {
    match move
    case Arrive(cls, owner) =>
      EnterKeeps(cfg, p, Tag(next, cls, owner));
      AddKeeps(p, Tag(next, cls, owner));
      GoodLater(cfg, p, next);
    case Depart(t) =>
      LeaveKeeps(cfg, p, t, next);
  }

  /** After every run no waiting ticket has room, every cap holds and nobody is overtaken. */
  lemma {:induction false} RunIsGood(cfg: Config, moves: seq<Move>)
    ensures Good(cfg, Run(cfg, moves).0, Run(cfg, moves).1)
  {
    if moves == [] {
      NoPlacesAreGood(cfg);
    } else {
      var (p, next) := Run(cfg, moves[..|moves| - 1]);
      RunIsGood(cfg, moves[..|moves| - 1]);
      DoKeeps(cfg, p, next, moves[|moves| - 1]);
    }
  }

  /** The owner rule of the configuration: an outside key asks for places of class `external` only. */
  ghost predicate ObeyOwnerRule(moves: seq<Move>) {
    forall i :: 0 <= i < |moves| && moves[i].Arrive? && moves[i].owner.Some? ==> moves[i].cls == External
  }

  lemma {:induction false} OwnersStayExternal(cfg: Config, moves: seq<Move>)
    requires ObeyOwnerRule(moves)
    ensures OwnersAreExternal(Run(cfg, moves).0)
  {
    hide Good, Enter, Leave, Tickets;
    if moves == [] {
      NoPlacesAreGood(cfg);
    } else {
      var before := moves[..|moves| - 1];
      var (p, next) := Run(cfg, before);
      RunIsGood(cfg, before);
      OwnersStayExternal(cfg, before);
      match moves[|moves| - 1]
      case Arrive(cls, owner) => EnterKeeps(cfg, p, Tag(next, cls, owner));
      case Depart(t) => LeaveKeeps(cfg, p, t, next);
    }
  }

  /** In every run that keeps the owner rule, an active ticket that leaves makes room for at most one: the dispatch
      grants once and then finds nobody. */
  lemma DispatchRunsOnce(cfg: Config, moves: seq<Move>, t: Tag)
    requires ObeyOwnerRule(moves) && t in Run(cfg, moves).0.active
    ensures var p := Run(cfg, moves).0;
            var freed := p.(active := p.active - {t});
            var pick := FirstRoom(cfg, freed.active, freed.line.InOrder());
            Leave(cfg, p, t) == if pick.None? then freed else Grant(freed, pick.value)
  {
    hide Good, Leave;
    RunIsGood(cfg, moves);
    OwnersStayExternal(cfg, moves);
    DepartureGrantsOne(cfg, Run(cfg, moves).0, t, Run(cfg, moves).1);
  }

  lemma GoodLater(cfg: Config, p: Places, next: nat)
    requires Good(cfg, p, next)
    ensures Good(cfg, p, next + 1)
  {
  }

  lemma NoPlacesAreGood(cfg: Config)
    ensures Good(cfg, NO_PLACES, 0)
    ensures Tickets(NO_PLACES) == {}
  {
    assert EMPTY_LINE.InOrder() == [];
    assert EMPTY_LINE.Waiting() == {};
    assert forall c: Class :: EMPTY_LINE.Queue(c) == [];
    NoTagCounts();
  }

  lemma MoveAddsOnlyNew(cfg: Config, moves: seq<Move>, t: Tag)
    requires moves != [] && t.id < Run(cfg, moves[..|moves| - 1]).1
    requires t in Run(cfg, moves).0.line.Waiting()
    ensures t in Run(cfg, moves[..|moves| - 1]).0.line.Waiting()
  {
    RunIsGood(cfg, moves[..|moves| - 1]);
    var (p, next) := Run(cfg, moves[..|moves| - 1]);
    DoKeeps(cfg, p, next, moves[|moves| - 1]);
  }

  lemma {:induction false} WaitsSinceItsArrival(cfg: Config, moves: seq<Move>, i: nat, t: Tag)
    requires i <= |moves| && t.id < Run(cfg, moves[..i]).1
    requires t in Run(cfg, moves).0.line.Waiting()
    ensures t in Run(cfg, moves[..i]).0.line.Waiting()
  {
    if i < |moves| {
      var n := |moves| - 1;
      assert moves[..n][..i] == moves[..i];
      NumbersGrow(cfg, moves[..n], i);
      MoveAddsOnlyNew(cfg, moves, t);
      WaitsSinceItsArrival(cfg, moves[..n], i, t);
    } else {
      assert moves[..i] == moves;
    }
  }

  lemma {:induction false} NumbersGrow(cfg: Config, moves: seq<Move>, i: nat)
    requires i <= |moves|
    ensures Run(cfg, moves[..i]).1 <= Run(cfg, moves).1
  {
    if i < |moves| {
      assert moves[..|moves| - 1][..i] == moves[..i];
      NumbersGrow(cfg, moves[..|moves| - 1], i);
    } else {
      assert moves[..i] == moves;
    }
  }

  /** First come, first served, in every run: once a ticket of a class and an owner is active, no ticket of the same
      class and owner that arrived before it waits, then or ever after. */
  lemma FirstComeFirstServed(cfg: Config, moves: seq<Move>, i: nat, early: Tag, late: Tag)
    requires i <= |moves|
    requires early.cls == late.cls && early.owner == late.owner && early.id < late.id
    requires late in Run(cfg, moves[..i]).0.active
    ensures !Run(cfg, moves).0.line.Has(early)
  {
    RunIsGood(cfg, moves[..i]);
    WaitingIs(Run(cfg, moves[..i]).0, Run(cfg, moves[..i]).1);
    RunIsGood(cfg, moves);
    WaitingIs(Run(cfg, moves).0, Run(cfg, moves).1);
    if Run(cfg, moves).0.line.Has(early) {
      WaitsSinceItsArrival(cfg, moves, i, early);
    }
  }
}
