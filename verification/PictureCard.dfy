/** The jobs that the card may hold, and the two sets that account for them: the accepted pictures, and the stops that
    are not confirmed (pictures/service.py, pictures/jobs.py). The card is the environment's: it takes a job only while
    its submit is on the way, and a job that left its queue never comes back. */
module PictureCard {

  import opened PictureStops
  import opened PlaceRules
  import opened Sets

  type Id = nat

  /** A picture from its accept to its release. `sent`: its submit began and was not refused. `gone`: a read has shown
      that it left the card. `closed`: its cleanup has come to an end, even a cut one. */
  datatype Job = Job(cls: Class, begun: bool, sent: bool, missing: nat, gone: bool, closed: bool)

  datatype Unresolved = Unresolved(cls: Class, missing: nat)

  /** `onTheWay`: submits that have not returned. `used`: the jobs the card has ever taken. `cut`: jobs whose cleanup
      the server's shutdown cut short. */
  datatype State = State(
    works: map<Id, Job>, unresolved: map<Id, Unresolved>, card: set<Id>, onTheWay: set<Id>, used: set<Id>, cut: set<Id>)

  const NOTHING := State(map[], map[], {}, {}, {}, {})

  datatype Event =
    | Accept(id: Id, cls: Class)
    | Submits(id: Id)
    | CardTakes(id: Id)
    | CardDrops(id: Id)
    | SubmitReturns(id: Id, refused: bool)
    | SeesOver(id: Id)
    | SeesNowhere(id: Id)
    | SeesHeld(id: Id)
    | Cleans(id: Id)              // nothing of it is on the card, as far as the gateway knows
    | StopConfirmed(id: Id)
    | StopUnconfirmed(id: Id)
    | CleanupCut(id: Id)
    | Releases(id: Id)
    | ResolvesRecorded(id: Id)
    | ResolvesNowhere(id: Id)
    | ResolvesHeld(id: Id)

  function Accepted(s: State, c: Class): set<Id> {
    set id | id in s.works && s.works[id].cls == c
  }

  function Stopping(s: State, c: Class): set<Id> {
    set id | id in s.unresolved && s.unresolved[id].cls == c
  }

  function SetJob(s: State, id: Id, job: Job): State {
    s.(works := s.works[id := job])
  }

  /** Whether the cleanup may look at the job: its submit is not on the way. */
  predicate Cleaning(s: State, id: Id) {
    id in s.works && !s.works[id].closed && id !in s.onTheWay
  }

  /** A read that misses the job is possible only while the card does not hold it and no submit is under way. */
  predicate NotFound(s: State, id: Id) {
    id !in s.card && id !in s.onTheWay
  }

  function Next(limits: Class -> nat, s: State, e: Event): State {
    match e
    case Accept(id, cls) =>
      if id in s.works || id in s.unresolved || id in s.used || id in s.cut then s  // ids are fresh
      else if |Accepted(s, cls)| + |Stopping(s, cls)| >= limits(cls) then s
      else SetJob(s, id, Job(cls, false, false, 0, false, false))
    case Submits(id) =>
      if id in s.works && !s.works[id].begun && !s.works[id].closed
      then SetJob(s, id, s.works[id].(begun := true, sent := true)).(onTheWay := s.onTheWay + {id})
      else s
    case CardTakes(id) =>
      if id in s.onTheWay && id !in s.used then s.(card := s.card + {id}, used := s.used + {id}) else s
    case CardDrops(id) => s.(card := s.card - {id})
    case SubmitReturns(id, refused) =>
      if id !in s.onTheWay || (refused && id in s.used) then s  // a refused submit has left nothing
      else
        var back := s.(onTheWay := s.onTheWay - {id});
        if refused && id in s.works then SetJob(back, id, s.works[id].(sent := false)) else back
    case SeesOver(id) =>
      if id in s.works && s.works[id].sent && NotFound(s, id)
      then SetJob(s, id, s.works[id].(missing := 0, gone := true)) else s
    case SeesNowhere(id) =>
      if id in s.works && s.works[id].sent && NotFound(s, id) then
        var job := s.works[id];
        SetJob(s, id, job.(missing := job.missing + 1, gone := job.gone || job.missing >= 1))
      else s
    case SeesHeld(id) => if id in s.works then SetJob(s, id, s.works[id].(missing := 0)) else s
    case Cleans(id) =>
      if Cleaning(s, id) && (!s.works[id].sent || s.works[id].gone)
      then SetJob(s, id, s.works[id].(begun := true, closed := true))
      else s
    case StopConfirmed(id) =>
      if Cleaning(s, id) && s.works[id].sent && !s.works[id].gone && NotFound(s, id)
      then SetJob(s, id, s.works[id].(begun := true, closed := true))
      else s
    case StopUnconfirmed(id) =>
      if Cleaning(s, id) && s.works[id].sent && !s.works[id].gone
      then SetJob(s, id, s.works[id].(begun := true, closed := true))
             .(unresolved := s.unresolved[id := Unresolved(s.works[id].cls, 0)])
      else s
    case CleanupCut(id) =>
      if id in s.works && !s.works[id].closed
      then SetJob(s, id, s.works[id].(begun := true, closed := true)).(cut := s.cut + {id})
      else s
    case Releases(id) => if id in s.works && s.works[id].closed then s.(works := s.works - {id}) else s
    case ResolvesRecorded(id) =>
      if id in s.unresolved && NotFound(s, id) then s.(unresolved := s.unresolved - {id}) else s
    case ResolvesNowhere(id) =>
      if id !in s.unresolved || !NotFound(s, id) then s
      else if s.unresolved[id].missing >= 1 then s.(unresolved := s.unresolved - {id})
      else s.(unresolved := s.unresolved[id := s.unresolved[id].(missing := s.unresolved[id].missing + 1)])
    case ResolvesHeld(id) =>
      if id in s.unresolved then s.(unresolved := s.unresolved[id := s.unresolved[id].(missing := 0)]) else s
  }

  function Run(limits: Class -> nat, events: seq<Event>): State {
    if events == [] then NOTHING else Next(limits, Run(limits, events[..|events| - 1]), events[|events| - 1])
  }

  // ----- The class's limit

  /** The distinct jobs of a class in either set. */
  function Counted(s: State, c: Class): set<Id> {
    Accepted(s, c) + Stopping(s, c)
  }

  /** A job in both sets is of one class. */
  ghost predicate OneClass(s: State) {
    forall id :: id in s.works && id in s.unresolved ==> s.works[id].cls == s.unresolved[id].cls
  }

  lemma StepsAddNone(limits: Class -> nat, s: State, e: Event, c: Class)
    requires OneClass(s)
    ensures OneClass(Next(limits, s, e))
    ensures !e.Accept? ==> Counted(Next(limits, s, e), c) <= Counted(s, c)
  {
  }

  lemma AcceptAddsOne(limits: Class -> nat, s: State, id: Id, cls: Class, c: Class)
    requires |Counted(s, c)| <= limits(c)
    ensures |Counted(Next(limits, s, Accept(id, cls)), c)| <= limits(c)
  {
    hide Accepted, Stopping;
    var r := Next(limits, s, Accept(id, cls));
    if r != s {
      AcceptCounts(s, r, id, cls, c);
      UnionAtMost(Accepted(s, c), Stopping(s, c));
    }
  }

  lemma AcceptCounts(s: State, r: State, id: Id, cls: Class, c: Class)
    requires id !in s.works && id !in s.unresolved && r == SetJob(s, id, Job(cls, false, false, 0, false, false))
    ensures Counted(r, c) == if c == cls then Counted(s, c) + {id} else Counted(s, c)
    ensures id !in Counted(s, c)
  {
  }

  /** The distinct jobs of a class that the card may still hold, as far as the gateway knows, are within its limit. */
  lemma {:induction false} LimitHolds(limits: Class -> nat, events: seq<Event>, c: Class)
    ensures |Counted(Run(limits, events), c)| <= limits(c) && OneClass(Run(limits, events))
  {
    hide Next, Counted, OneClass;
    if events == [] {
      NothingCounted(c);
    } else {
      var s, e := Run(limits, events[..|events| - 1]), events[|events| - 1];
      LimitHolds(limits, events[..|events| - 1], c);
      StepsAddNone(limits, s, e, c);
      if e.Accept? {
        AcceptAddsOne(limits, s, e.id, e.cls, c);
      } else {
        PartIsSmaller(Counted(Next(limits, s, e), c), Counted(s, c));
      }
    }
  }

  lemma NothingCounted(c: Class)
    ensures Counted(NOTHING, c) == {} && OneClass(NOTHING)
  {
  }

  // ----- What the card holds

  /** Whether the gateway still accounts for a job the card holds or may yet take. */
  ghost predicate Known(s: State, id: Id) {
    || id in s.cut
    || id in s.unresolved
    || (id in s.works && s.works[id].sent && !s.works[id].gone && !s.works[id].closed)
  }

  ghost predicate Inv(s: State) {
    && s.card <= s.used
    && (forall id :: id in s.card ==> Known(s, id))
    && (forall id :: id in s.onTheWay ==>
          id in s.cut || (id in s.works && s.works[id].sent && !s.works[id].gone && !s.works[id].closed))
    && (forall id :: id in s.works && (id in s.used || id in s.onTheWay) ==> s.works[id].sent)
    && (forall id :: id in s.works && (s.works[id].sent || s.works[id].gone) ==> s.works[id].begun)
    && (forall id :: id in s.works && (id in s.unresolved || id in s.cut) ==> s.works[id].closed)
    && s.cut !! s.unresolved.Keys
  }

  lemma NextKeeps(limits: Class -> nat, s: State, e: Event)
    requires Inv(s)
    ensures Inv(Next(limits, s, e))
  {
    hide Accepted, Stopping;
  }

  lemma {:induction false} RunKeeps(limits: Class -> nat, events: seq<Event>)
    ensures Inv(Run(limits, events))
  {
    hide Next;
    if events != [] {
      RunKeeps(limits, events[..|events| - 1]);
      NextKeeps(limits, Run(limits, events[..|events| - 1]), events[|events| - 1]);
    }
  }

  /** A shutdown cuts the job's cleanup short at step `i`. */
  ghost predicate CutShort(limits: Class -> nat, events: seq<Event>, i: nat, id: Id) {
    && i < |events| && events[i] == CleanupCut(id)
    && var s := Run(limits, events[..i]);
       id in s.works && !s.works[id].closed
  }

  ghost predicate EverCut(limits: Class -> nat, events: seq<Event>, id: Id) {
    exists i :: CutShort(limits, events, i, id)
  }

  /** The job's cleanup was cut short, and later the job was released all the same. */
  ghost predicate LeftBehind(limits: Class -> nat, events: seq<Event>, id: Id) {
    exists i, j :: 0 <= i < j < |events| && CutShort(limits, events, i, id) && events[j] == Releases(id)
  }

  /** What the last step adds to the two. */
  lemma CutLast(limits: Class -> nat, events: seq<Event>, id: Id)
    requires events != []
    ensures var n, before := |events| - 1, events[..|events| - 1];
            && (EverCut(limits, events, id) <==> EverCut(limits, before, id) || CutShort(limits, events, n, id))
            && (LeftBehind(limits, events, id) <==>
                  LeftBehind(limits, before, id) || (EverCut(limits, before, id) && events[n] == Releases(id)))
  {
    hide Run;
    var n, before := |events| - 1, events[..|events| - 1];
    forall i: nat | i < n
      ensures CutShort(limits, before, i, id) <==> CutShort(limits, events, i, id)
    {
      assert before[..i] == events[..i];
    }
    if LeftBehind(limits, before, id) {
      var i, j :| 0 <= i < j < n && CutShort(limits, before, i, id) && before[j] == Releases(id);
      assert CutShort(limits, events, i, id) && events[j] == Releases(id);
    }
    if EverCut(limits, before, id) && events[n] == Releases(id) {
      var i :| CutShort(limits, before, i, id);
      assert CutShort(limits, events, i, id) && events[n] == Releases(id);
    }
    if LeftBehind(limits, events, id) {
      var i, j :| 0 <= i < j < |events| && CutShort(limits, events, i, id) && events[j] == Releases(id);
      assert CutShort(limits, before, i, id) && (j < n ==> before[j] == Releases(id));
    }
  }

  lemma CutStep(limits: Class -> nat, s: State, e: Event, id: Id)
    requires Inv(s)
    ensures var r := Next(limits, s, e);
            && (id in r.cut <==> id in s.cut || (e == CleanupCut(id) && id in s.works && !s.works[id].closed))
            && (id in r.cut && id !in r.works <==> id in s.cut && (id !in s.works || e == Releases(id)))
  {
    hide Accepted, Stopping;
  }

  /** The jobs whose cleanup was cut short, and those of them that are let go, are told by the steps that did it. */
  lemma {:induction false} CutThenReleased(limits: Class -> nat, events: seq<Event>, id: Id)
    ensures id in Run(limits, events).cut <==> EverCut(limits, events, id)
    ensures id in Run(limits, events).cut && id !in Run(limits, events).works <==> LeftBehind(limits, events, id)
  {
    hide Next, Inv, EverCut, LeftBehind;
    if events == [] {
      NobodyCutYet(limits, id);
    } else {
      var before := events[..|events| - 1];
      RunKeeps(limits, before);
      CutThenReleased(limits, before, id);
      CutLast(limits, events, id);
      CutStep(limits, Run(limits, before), events[|events| - 1], id);
    }
  }

  lemma NobodyCutYet(limits: Class -> nat, id: Id)
    ensures !EverCut(limits, [], id) && !LeftBehind(limits, [], id) && id !in Run(limits, []).cut
  {
  }

  /** A job on the card is outside both sets exactly if the server's shutdown cut its cleanup short and it was released
      after that. */
  lemma UnaccountedExactly(limits: Class -> nat, events: seq<Event>, id: Id)
    requires id in Run(limits, events).card
    ensures id !in Run(limits, events).works && id !in Run(limits, events).unresolved
       <==> LeftBehind(limits, events, id)
  {
    hide Next, LeftBehind;
    RunKeeps(limits, events);
    CutThenReleased(limits, events, id);
  }

  lemma InCounted(s: State, id: Id, c: Class)
    requires (id in s.works && s.works[id].cls == c) || (id in s.unresolved && s.unresolved[id].cls == c)
    ensures id in Counted(s, c)
  {
  }

  /** The card never holds more jobs of a class than its limit, those left behind by a cut cleanup apart. */
  lemma CardWithinLimits(limits: Class -> nat, events: seq<Event>, c: Class, held: set<Id>)
    requires held <= Run(limits, events).card
    requires forall id :: id in held ==> !LeftBehind(limits, events, id)
    requires var s := Run(limits, events);
             && (forall id :: id in held && id in s.works ==> s.works[id].cls == c)
             && (forall id :: id in held && id in s.unresolved ==> s.unresolved[id].cls == c)
    ensures |held| <= limits(c)
  {
    hide Next, Inv, Run, Accepted, Stopping, LeftBehind;
    var s := Run(limits, events);
    LimitHolds(limits, events, c);
    forall id | id in held
      ensures id in Counted(s, c)
    {
      UnaccountedExactly(limits, events, id);
      InCounted(s, id, c);
    }
    PartIsSmaller(held, Counted(s, c));
  }

  /** A taken job whose cleanup the shutdown cuts short. */
  function CutRun(c: Class): seq<Event> {
    [Accept(0, c), Submits(0), CardTakes(0), SubmitReturns(0, false), CleanupCut(0), Releases(0)]
  }

  lemma RunStep(limits: Class -> nat, events: seq<Event>, i: nat)
    requires i < |events|
    ensures Run(limits, events[..i + 1]) == Next(limits, Run(limits, events[..i]), events[i])
  {
    assert events[..i + 1][..i] == events[..i];
  }

  /** The job stays on the card, in neither set: it is left behind. */
  lemma CutLeavesOneBehind(limits: Class -> nat, c: Class)
    requires limits(c) >= 1
    ensures var s := Run(limits, CutRun(c));
            s.card == {0} && s.works == map[] && s.unresolved == map[]
    ensures LeftBehind(limits, CutRun(c), 0)
  {
    hide Run, LeftBehind;
    var events := CutRun(c);
    NothingYet(limits, events);
    FirstTaken(limits, c);
    var taken := Job(c, true, true, 0, false, false);
    RunStep(limits, events, 0);
    RunStep(limits, events, 1);
    RunStep(limits, events, 2);
    RunStep(limits, events, 3);
    CutJob(limits, taken);
    RunStep(limits, events, 4);
    RunStep(limits, events, 5);
    assert events[..6] == events;
    UnaccountedExactly(limits, events, 0);
  }

  lemma NothingYet(limits: Class -> nat, events: seq<Event>)
    ensures Run(limits, events[..0]) == NOTHING
  {
  }

  /** The state of one job alone. */
  function Alone(job: Job, card: set<Id>, onTheWay: set<Id>, used: set<Id>, cut: set<Id>): State {
    State(map[0 := job], map[], card, onTheWay, used, cut)
  }

  lemma FirstTaken(limits: Class -> nat, c: Class)
    requires limits(c) >= 1
    ensures Next(limits, NOTHING, Accept(0, c)) == Alone(Job(c, false, false, 0, false, false), {}, {}, {}, {})
    ensures Next(limits, Alone(Job(c, false, false, 0, false, false), {}, {}, {}, {}), Submits(0))
         == Alone(Job(c, true, true, 0, false, false), {}, {0}, {}, {})
    ensures Next(limits, Alone(Job(c, true, true, 0, false, false), {}, {0}, {}, {}), CardTakes(0))
         == Alone(Job(c, true, true, 0, false, false), {0}, {0}, {0}, {})
    ensures Next(limits, Alone(Job(c, true, true, 0, false, false), {0}, {0}, {0}, {}), SubmitReturns(0, false))
         == Alone(Job(c, true, true, 0, false, false), {0}, {}, {0}, {})
  {
    assert Accepted(NOTHING, c) == {} && Stopping(NOTHING, c) == {};
    assert {} + {0} == {0} && {0} - {0} == {};
  }

  lemma CutJob(limits: Class -> nat, job: Job)
    requires !job.closed
    ensures Next(limits, Alone(job, {0}, {}, {0}, {}), CleanupCut(0))
         == Alone(job.(begun := true, closed := true), {0}, {}, {0}, {0})
    ensures Next(limits, Alone(job.(begun := true, closed := true), {0}, {}, {0}, {0}), Releases(0))
         == State(map[], map[], {0}, {}, {0}, {0})
  {
    assert {} + {0} == {0};
    assert map[0 := job.(begun := true, closed := true)] - {0} == map[];
  }

  /** The step of a stop's look that was answered. */
  function Resolves(id: Id, look: Answer): Event
    requires !Unanswered(look)
  {
    if look.Held? then ResolvesHeld(id) else if look.Recorded? then ResolvesRecorded(id) else ResolvesNowhere(id)
  }

  /** The picture service's two sets, as it changes them. */
  class PictureService {
    const limits: Class -> nat
    var work: map<Id, Job>
    var unresolved: map<Id, Unresolved>
    ghost var card: set<Id>
    ghost var onTheWay: set<Id>
    ghost var used: set<Id>
    ghost var cut: set<Id>

    ghost function View(): State
      reads this
    {
      State(work, unresolved, card, onTheWay, used, cut)
    }

    constructor (limits: Class -> nat)
      ensures View() == NOTHING && this.limits == limits
    {
      this.limits := limits;
      work, unresolved, card, onTheWay, used, cut := map[], map[], {}, {}, {}, {};
    }

    /** An accept, which a service that does not serve refuses first, and then a class whose two sets have reached its
        limit. */
    method TakeOn(id: Id, cls: Class, serves: bool) returns (taken: bool)
      requires id !in work && id !in unresolved && id !in used && id !in cut
      modifies this`work
      ensures View() == if serves then Next(limits, old(View()), Accept(id, cls)) else old(View())
      ensures taken <==> serves && |Accepted(old(View()), cls)| + |Stopping(old(View()), cls)| < limits(cls)
    {
      if !serves {
        return false;
      }
      var accepted := set one | one in work && work[one].cls == cls;
      var stopping := set one | one in unresolved && unresolved[one].cls == cls;
      assert accepted == Accepted(View(), cls) && stopping == Stopping(View(), cls);
      taken := |accepted| + |stopping| < limits(cls);
      if taken {
        work := work[id := Job(cls, false, false, 0, false, false)];
      }
    }

    /** The end of a cleanup whose stop was not confirmed: the job counts on. */
    method UnresolvedStop(id: Id)
      requires Cleaning(View(), id) && work[id].sent && !work[id].gone
      modifies this`work, this`unresolved
      ensures View() == Next(limits, old(View()), StopUnconfirmed(id))
    {
      unresolved := unresolved[id := Unresolved(work[id].cls, 0)];
      work := work[id := work[id].(begun := true, closed := true)];
    }

    /** A stop asked again: the cancel, and, if that was answered, one look. A look that fails changes nothing. */
    method ResolveStop(id: Id, cancelled: bool, look: Answer) returns (asked: seq<Request>)
      requires id in unresolved && (look.Recorded? || look.Nowhere? ==> NotFound(View(), id))
      modifies this`unresolved
      ensures View() == if !cancelled || Unanswered(look) then old(View())
                        else Next(limits, old(View()), Resolves(id, look))
      ensures asked == [Cancel] + if !cancelled then [] else Asks(look) + if look.Recorded? then [Forget] else []
    {
      asked := [Cancel];
      if !cancelled {
        return;
      }
      asked := asked + Asks(look);
      var stop := unresolved[id];
      match look
      case QueueFails =>
      case RecordFails =>
      case Held => unresolved := unresolved[id := stop.(missing := 0)];
      case Recorded =>
        asked := asked + [Forget];
        unresolved := unresolved - {id};
      case Nowhere =>
        var missing := stop.missing + 1;
        if missing > 1 {
          unresolved := unresolved - {id};
        } else {
          unresolved := unresolved[id := stop.(missing := missing)];
        }
    }
  }

  // ----- The order on the card

  const ORDER: int := 1_000_000_000

  /** The number of the n-th job: the card draws the lowest first. */
  function Number(cls: Class, n: nat): int {
    match cls
    case Reader => -(ORDER + n)
    case Agent => n
    case _ => ORDER + n
  }

  /** A later reader's picture is drawn before an earlier one's, other classes' in the order they came, a reader's
      before all others, and an agent's before an experiment's for the first thousand million jobs, and no longer. */
  lemma NumbersOrder(m: nat, n: nat)
    requires 0 < m < n
    ensures Number(Reader, n) < Number(Reader, m)
    ensures Number(Agent, m) < Number(Agent, n) && Number(Internal, m) < Number(Internal, n)
    ensures Number(Reader, m) < Number(Agent, n) && Number(Reader, n) < Number(Agent, m)
    ensures Number(Reader, m) < Number(Internal, n) && Number(Reader, n) < Number(Internal, m)
    ensures Number(Agent, m) < Number(Internal, n)
    ensures Number(Agent, n) < Number(Internal, m) <==> n < ORDER + m
    ensures Number(Agent, ORDER + 1) == Number(Internal, 1)
  {
  }
}
