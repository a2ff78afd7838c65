/** The text gateway's accepted work as a state machine: each request's task and handler, the two pools of places, and
    the service's drain, sleep and engine status. One step runs one task, handler, timer or control route to its next
    await. An event that cannot happen in a state leaves it as it is, so every list of events is a run. */
module Gateway {

  import opened Wrappers
  import opened PlaceRules
  import CountRules

  type Id = nat

  datatype Kind = Count | Generation

  datatype Reason = Disconnect | Timeout | Draining | EngineChanged | Shutdown

  /** Where a request stands. Its task runs up to `Ended`; then its handler cleans up and answers. */
  datatype Phase =
    | Created    // the task has not run yet
    | CountWait  // in line for a count place
    | Counting   // the engine counts the prompt
    | GenWait    // in line for a generation place
    | Starting   // the engine has the generation and has not answered
    | Streaming  // the engine streams
    | Ended      // the task is done
    | Closing    // the handler closes the engine's stream
    | Answering  // the handler sends the terminal message
  {
    predicate TaskRuns() {
      Created? || CountWait? || Counting? || GenWait? || Starting? || Streaming?
    }
  }

  /** `streams`: the engine's stream is open. `leaving`: the server has cancelled the handler. */
  datatype Work = Work(
    kind: Kind, cls: Class, owner: Option<Key>, phase: Phase, stop: Option<Reason>, streams: bool, leaving: bool)

  datatype EngineStatus = EngineStarting | EngineReady | EngineFailed

  /** The task that waits for the drain and then stops the instance. */
  datatype Sleeper = NoSleep | Waits(since: nat) | Wakes | Stops(late: bool)

  datatype State = State(
    works: map<Id, Work>,
    counts: Places, nextCount: nat, countTickets: map<Id, Tag>,    // each work's count place, until it has left
    places: Places, nextTicket: nat, tickets: map<Id, Tag>,        // each work's generation place, until it has left
    draining: bool, generation: nat, deadline: Option<nat>,        // the drain that armed the deadline
    sleepRequested: bool, noWork: bool, sleeper: Sleeper, now: nat,
    engine: EngineStatus, engineChanged: bool)

  const INITIAL := State(map[], NO_PLACES, 0, map[], NO_PLACES, 0, map[], false, 0, None, false, true, NoSleep, 0,
                         EngineStarting, false)

  const FORCED_STOP_S: nat := 120

  datatype Event =
    | Accept(id: Id, kind: Kind, cls: Class, owner: Option<Key>)
    // the task
    | Start(id: Id)
    | CountGranted(id: Id)
    | CountAnswered(id: Id, ok: bool, fits: bool)
    | PlaceGranted(id: Id)
    | EngineAnswered(id: Id, ok: bool)
    | StreamEnded(id: Id)
    | CancelLands(id: Id)
    // the handler
    | Wake(id: Id)
    | Closed(id: Id)
    | Answered(id: Id)
    | HandlerCancelled(id: Id)
    // what stops work
    | StopOne(id: Id, reason: Reason)
    | Drain(order: seq<Id>)
    | Sleep(order: seq<Id>)
    | Open(generation: nat)
    | DeadlineFires(order: seq<Id>)
    | EngineAnswers
    | EngineFails
    | EngineChanges(order: seq<Id>)
    // the sleep's task and the clock
    | Tick
    | SleeperResumes

  // ----- Parts of steps

  /** Whether the work holds the place that its kind is after: a count its count place, a generation its own. */
  predicate Active(s: State, id: Id) {
    && id in s.works
    && match s.works[id].kind
       case Count => id in s.countTickets && s.countTickets[id] in s.counts.active
       case Generation => id in s.tickets && s.tickets[id] in s.places.active
  }

  predicate IsWaiting(s: State, id: Id) {
    id in s.works && s.works[id].phase.TaskRuns() && !Active(s, id)
  }

  predicate Outside(w: Work) {
    w.owner.Some?
  }

  function SetPhase(s: State, id: Id, phase: Phase): State
    requires id in s.works
  {
    s.(works := s.works[id := s.works[id].(phase := phase)])
  }

  function LeaveCount(cfg: Config, s: State, id: Id): State {
    if id in s.countTickets
    then s.(counts := CountRules.Leave(cfg, s.counts, s.countTickets[id]), countTickets := s.countTickets - {id})
    else s
  }

  function LeavePlace(cfg: Config, s: State, id: Id): State {
    if id in s.tickets
    then s.(places := PlaceRules.Leave(cfg, s.places, s.tickets[id]), tickets := s.tickets - {id})
    else s
  }

  /** The task ends, however it ends: a count place it held is free. */
  function EndTask(cfg: Config, s: State, id: Id): State
    requires id in s.works
  {
    SetPhase(LeaveCount(cfg, s, id), id, Ended)
  }

  function Release(s: State, id: Id): State {
    var works := s.works - {id};
    if works == map[]
    then s.(works := works, noWork := true, sleeper := if s.sleeper.Waits? then Wakes else s.sleeper)
    else s.(works := works)
  }

  /** After the task: the stream is closed, and only then is the place free. */
  function Cleaned(cfg: Config, s: State, id: Id): State
    requires id in s.works
  {
    var closed := s.(works := s.works[id := s.works[id].(phase := Answering, streams := false)]);
    var left := LeavePlace(cfg, closed, id);
    if s.works[id].leaving then Release(left, id) else left
  }

  /** A stop of a work that is stopped changes nothing; of one in line for its generation it also empties that place in
      the line. */
  function Stop(cfg: Config, s: State, id: Id, reason: Reason): State {
    if id !in s.works || s.works[id].stop.Some? then s
    else
      var stopped := s.(works := s.works[id := s.works[id].(stop := Some(reason))]);
      if s.works[id].phase.TaskRuns() && id in s.tickets && s.places.line.Has(s.tickets[id])
      then LeavePlace(cfg, stopped, id)
      else stopped
  }

  function StopAll(cfg: Config, s: State, order: seq<Id>, reason: Reason): State
    decreases |order|
  {
    if order == [] then s else StopAll(cfg, Stop(cfg, s, order[0], reason), order[1..], reason)
  }

  /** A drain's loop: each work, in its turn, is stopped if it waits then, or is not ours. */
  function CloseLoop(cfg: Config, s: State, order: seq<Id>): State
    decreases |order|
  {
    if order == [] then s
    else
      var id := order[0];
      var stop := id in s.works && (IsWaiting(s, id) || Outside(s.works[id]));
      CloseLoop(cfg, if stop then Stop(cfg, s, id, Draining) else s, order[1..])
  }

  function Close(cfg: Config, s: State, order: seq<Id>): State {
    if s.draining then s
    else
      var begun := s.(draining := true, generation := s.generation + 1);
      CloseLoop(cfg, begun, order).(deadline := Some(begun.generation))
  }

  /** Every work exactly once, in any order. */
  predicate Lists(order: seq<Id>, works: map<Id, Work>) {
    (set id | id in order) == works.Keys && |order| == |works|
  }

  // ----- Steps

  predicate TaskCanStep(s: State, id: Id, phase: Phase) {
    id in s.works && s.works[id].phase == phase && s.works[id].stop.None?
  }

  function EnterCount(cfg: Config, s: State, id: Id): State
    requires id in s.works
  {
    var t := Tag(s.nextCount, s.works[id].cls, s.works[id].owner);
    var entered := CountRules.Enter(cfg, s.counts, t);
    var numbered := s.(nextCount := s.nextCount + 1);
    if entered.None? then EndTask(cfg, numbered, id)
    else
      SetPhase(numbered.(counts := entered.value, countTickets := s.countTickets[id := t]), id,
               if t in entered.value.active then Counting else CountWait)
  }

  function EnterPlace(cfg: Config, s: State, id: Id): State
    requires id in s.works
  {
    var t := Tag(s.nextTicket, s.works[id].cls, s.works[id].owner);
    var entered := PlaceRules.Enter(cfg, s.places, t);
    var numbered := s.(nextTicket := s.nextTicket + 1);
    if entered.None? then EndTask(cfg, numbered, id)
    else
      SetPhase(numbered.(places := entered.value, tickets := s.tickets[id := t]), id,
               if t in entered.value.active then Starting else GenWait)
  }

  function Next(cfg: Config, s: State, e: Event): State {
    match e
    case Accept(id, kind, cls, owner) =>
      if s.draining || !s.engine.EngineReady? || id in s.works then s
      else s.(works := s.works[id := Work(kind, cls, owner, Created, None, false, false)], noWork := false)
    case Start(id) =>
      if TaskCanStep(s, id, Created) then EnterCount(cfg, s, id) else s
    case CountGranted(id) =>
      if TaskCanStep(s, id, CountWait) && id in s.countTickets && s.countTickets[id] in s.counts.active
      then SetPhase(s, id, Counting)
      else s
    case CountAnswered(id, ok, fits) =>
      if !TaskCanStep(s, id, Counting) then s
      else if !ok || !fits || s.works[id].kind == Count then EndTask(cfg, s, id)
      else EnterPlace(cfg, LeaveCount(cfg, s, id), id)
    case PlaceGranted(id) =>
      if TaskCanStep(s, id, GenWait) && id in s.tickets && s.tickets[id] in s.places.active
      then SetPhase(s, id, Starting)
      else s
    case EngineAnswered(id, ok) =>
      if !TaskCanStep(s, id, Starting) then s
      else if !ok then EndTask(cfg, s, id)
      else s.(works := s.works[id := s.works[id].(phase := Streaming, streams := true)])
    case StreamEnded(id) =>
      if TaskCanStep(s, id, Streaming) then EndTask(cfg, s, id) else s
    case CancelLands(id) =>
      if id in s.works && s.works[id].phase.TaskRuns() && s.works[id].stop.Some? then EndTask(cfg, s, id) else s
    case Wake(id) =>
      if id !in s.works || !s.works[id].phase.Ended? then s
      else if s.works[id].streams then SetPhase(s, id, Closing)
      else Cleaned(cfg, s, id)
    case Closed(id) =>
      if id in s.works && s.works[id].phase.Closing? then Cleaned(cfg, s, id) else s
    case Answered(id) =>
      if id in s.works && s.works[id].phase.Answering? then Release(s, id) else s
    case HandlerCancelled(id) =>
      if id !in s.works || s.works[id].leaving then s
      else
        var leaving := s.(works := s.works[id := s.works[id].(leaving := true)]);
        (match s.works[id].phase
         case Answering => Release(s, id)
         case Closing => Cleaned(cfg, leaving, id)
         case Ended => leaving
         case _ => Stop(cfg, leaving, id, Shutdown))
    case StopOne(id, reason) => Stop(cfg, s, id, reason)
    case Drain(order) => if Lists(order, s.works) then Close(cfg, s, order) else s
    case Sleep(order) =>
      if s.sleepRequested || !Lists(order, s.works) then s
      else
        var closed := Close(cfg, s, order);
        closed.(sleepRequested := true, sleeper := if closed.noWork then Wakes else Waits(s.now))
    case Open(generation) =>
      if s.sleepRequested || generation != s.generation then s else s.(draining := false, deadline := None)
    case DeadlineFires(order) =>
      if s.deadline.None? || !Lists(order, s.works) then s
      else StopAll(cfg, s.(deadline := None), order, Draining)
    case EngineAnswers => s.(engine := EngineReady, engineChanged := false)
    case EngineFails => if s.engine.EngineReady? then s.(engine := EngineFailed) else s
    case EngineChanges(order) =>
      if s.engineChanged || !Lists(order, s.works) then s
      else StopAll(cfg, s.(engineChanged := true, engine := EngineFailed), order, EngineChanged)
    case Tick => s.(now := s.now + 1)
    case SleeperResumes =>
      (match s.sleeper
       case Wakes => s.(sleeper := Stops(false))
       case Waits(since) => if s.now >= since + FORCED_STOP_S then s.(sleeper := Stops(true)) else s
       case _ => s)
  }

  function Run(cfg: Config, events: seq<Event>): State {
    if events == [] then INITIAL
    else Next(cfg, Run(cfg, events[..|events| - 1]), events[|events| - 1])
  }
}
