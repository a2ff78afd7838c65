/** The upload registry (docs/pictures.md, section 5) as a state machine: the names a reader's references are kept
    under, the turns that sends and erasures take at each upload's lock, and the remote store they write. One step runs
    one coroutine to its next await, so what the code does between two awaits is one step here. */
module Uploads {

  import opened Wrappers

  type Name = nat

  type Scope = nat

  type Data = nat

  type Id = nat

  const TTL_S: nat := 600

  datatype Status = Sending | Live | Stale | Erased

  datatype Content = Blank | Bytes(data: Data)

  /** A turn at an upload's lock, of the PUT with this generation: its send, or an erasure for it. */
  datatype Turn = Send(generation: nat) | Erase(generation: nat, expired: bool)

  /** The holder of a lock while it writes. `landed`: the store has taken the write. */
  datatype Writer = Writer(turn: Turn, landed: bool)

  /** `puts`: what each PUT sent; the last one's number is the generation. `started`: how many of their sends have
      asked for the lock, in the order of the PUTs. `ended`: the sends that are over. */
  datatype Upload = Upload(
    name: Name, scope: Scope, expires: nat, status: Status,
    puts: seq<Data>, started: nat, ended: set<nat>, line: seq<Turn>, holder: Option<Writer>)
  {
    function Generation(): nat {
      |puts|
    }

    function Writes(turn: Turn): Content {
      match turn
      case Send(g) => if 0 < g <= |puts| then Bytes(puts[g - 1]) else Blank
      case Erase(_, _) => Blank
    }
  }

  datatype State = State(
    now: nat, registry: map<Name, Id>, uploads: map<Id, Upload>, next: Id, store: map<Name, Content>)

  const INITIAL := State(0, map[], map[], 0, map[])

  datatype Event =
    | Put(name: Name, scope: Scope, cap: nat, data: Data)
    | SendStarts(id: Id)
    | ClientErases(name: Name, scope: Scope)
    | CleansUp(id: Id, generation: nat)   // after a PUT that was not kept, once its send is over
    | Sweeps(id: Id, generation: nat)
    | TurnComes(id: Id)
    | GivesUp(id: Id, i: nat)   // an erasure that waits in line is cancelled
    | WriteLands(id: Id)
    | WriteEnds(id: Id, ok: bool)
    | Tick

  // ----- The registry

  predicate Registered(s: State, id: Id) {
    id in s.uploads && s.uploads[id].name in s.registry && s.registry[s.uploads[id].name] == id
  }

  predicate Current(s: State, id: Id, generation: nat) {
    Registered(s, id) && s.uploads[id].Generation() == generation
  }

  /** The names that count against a scope's cap. */
  function LiveNames(s: State, scope: Scope): set<Name> {
    set n | n in s.registry && s.registry[n] in s.uploads
            && var u := s.uploads[s.registry[n]]; u.scope == scope && !u.status.Erased? && s.now < u.expires
  }

  function SetUpload(s: State, id: Id, u: Upload): State {
    s.(uploads := s.uploads[id := u])
  }

  /** A name over its ten minutes is free for whoever asks, unless its lock is held. */
  predicate Reclaimable(s: State, name: Name) {
    && name in s.registry && s.registry[name] in s.uploads
    && s.uploads[s.registry[name]].expires <= s.now && s.uploads[s.registry[name]].holder.None?
  }

  function DropExpired(s: State, name: Name): State {
    if Reclaimable(s, name) then s.(registry := s.registry - {name}) else s
  }

  function NewUpload(s: State, name: Name, scope: Scope): State {
    SetUpload(s, s.next, Upload(name, scope, s.now + TTL_S, Sending, [], 0, {}, [], None))
      .(registry := s.registry[name := s.next], next := s.next + 1)
  }

  /** The claim of a name that is not expired: the scope's own, whose ten minutes begin again, or a new one within the
      cap; none if it is another scope's. */
  function ClaimKept(s: State, name: Name, scope: Scope, cap: nat): (State, Option<Id>) {
    if name in s.registry && s.registry[name] in s.uploads then
      var id := s.registry[name];
      if s.uploads[id].scope != scope then (s, None)
      else (SetUpload(s, id, s.uploads[id].(expires := s.now + TTL_S)), Some(id))
    else if |LiveNames(s, scope)| >= cap then (s, None)
    else (NewUpload(s, name, scope), Some(s.next))
  }

  /** The upload of a name for a scope, or none; the first state is what is left even then. */
  function Claim(s: State, name: Name, scope: Scope, cap: nat): (State, Option<Id>) {
    ClaimKept(DropExpired(s, name), name, scope, cap)
  }

  // ----- The lock

  /** A sweep forgets the name it went for, if that is still the one and its ten minutes are still over. */
  function Forget(s: State, id: Id, turn: Turn): State {
    if turn.Erase? && turn.expired && Current(s, id, turn.generation) && s.uploads[id].expires <= s.now
    then s.(registry := s.registry - {s.uploads[id].name})
    else s
  }

  /** A turn begins: it writes, or has nothing to do and gives the lock back. */
  function TakeTurn(s: State, id: Id, turn: Turn): State
    requires id in s.uploads
  {
    var u := s.uploads[id];
    match turn
    case Send(g) =>
      if Registered(s, id) then SetUpload(s, id, u.(holder := Some(Writer(turn, false))))
      else SetUpload(s, id, u.(ended := u.ended + {g}))
    case Erase(g, expired) =>
      if !Current(s, id, g) || (expired && u.expires > s.now) || u.status.Erased? then Forget(s, id, turn)
      else SetUpload(s, id, u.(holder := Some(Writer(turn, false))))
  }

  /** Ask for the lock: first come, first served. */
  function AskTurn(s: State, id: Id, turn: Turn): State
    requires id in s.uploads
  {
    var u := s.uploads[id];
    if u.holder.None? && u.line == [] then TakeTurn(s, id, turn)
    else SetUpload(s, id, u.(line := u.line + [turn]))
  }

  function Without(line: seq<Turn>, i: nat): seq<Turn>
    requires i < |line|
  {
    line[..i] + line[i + 1..]
  }

  /** The upload once its write is answered: its state is the writer's to set only while its PUT is the newest. */
  function Answered(s: State, id: Id, ok: bool): Upload
    requires id in s.uploads && s.uploads[id].holder.Some?
  {
    var u := s.uploads[id];
    var turn := u.holder.value.turn;
    u.(holder := None,
       status := if !Current(s, id, turn.generation) then u.status
                 else if !ok then Stale
                 else if turn.Send? then Live else Erased,
       ended := if turn.Send? then u.ended + {turn.generation} else u.ended)
  }

  function EndWrite(s: State, id: Id, ok: bool): State
    requires id in s.uploads && s.uploads[id].holder.Some?
  {
    Forget(SetUpload(s, id, Answered(s, id, ok)), id, s.uploads[id].holder.value.turn)
  }

  function Next(s: State, e: Event): State {
    match e
    case Put(name, scope, cap, data) =>
      var (claimed, id) := Claim(s, name, scope, cap);
      if id.None? || id.value !in claimed.uploads then claimed
      else
        var u := claimed.uploads[id.value];
        SetUpload(claimed, id.value, u.(puts := u.puts + [data], status := Sending))
    case SendStarts(id) =>
      if id in s.uploads && s.uploads[id].started < |s.uploads[id].puts| then
        var u := s.uploads[id];
        AskTurn(SetUpload(s, id, u.(started := u.started + 1)), id, Send(u.started + 1))
      else s
    case ClientErases(name, scope) =>
      if name in s.registry && s.registry[name] in s.uploads && s.uploads[s.registry[name]].scope == scope
      then AskTurn(s, s.registry[name], Erase(s.uploads[s.registry[name]].Generation(), false))
      else s
    case CleansUp(id, generation) =>
      if id in s.uploads && generation in s.uploads[id].ended then AskTurn(s, id, Erase(generation, false)) else s
    case Sweeps(id, generation) =>
      if id in s.uploads && generation <= s.uploads[id].Generation() then AskTurn(s, id, Erase(generation, true)) else s
    case TurnComes(id) =>
      if id in s.uploads && s.uploads[id].holder.None? && s.uploads[id].line != [] then
        var u := s.uploads[id];
        TakeTurn(SetUpload(s, id, u.(line := u.line[1..])), id, u.line[0])
      else s
    case GivesUp(id, i) =>
      if id in s.uploads && i < |s.uploads[id].line| && s.uploads[id].line[i].Erase?
      then SetUpload(s, id, s.uploads[id].(line := Without(s.uploads[id].line, i)))
      else s
    case WriteLands(id) =>
      if id in s.uploads && s.uploads[id].holder.Some? then
        var u := s.uploads[id];
        SetUpload(s, id, u.(holder := Some(u.holder.value.(landed := true))))
          .(store := s.store[u.name := u.Writes(u.holder.value.turn)])
      else s
    case WriteEnds(id, ok) =>
      if id in s.uploads && s.uploads[id].holder.Some? && (ok ==> s.uploads[id].holder.value.landed)
      then EndWrite(s, id, ok)
      else s
    case Tick => s.(now := s.now + 1)
  }

  function Run(events: seq<Event>): State {
    if events == [] then INITIAL else Next(Run(events[..|events| - 1]), events[|events| - 1])
  }

  // ----- The invariant

  predicate Holds(store: map<Name, Content>, name: Name, content: Content) {
    name in store && store[name] == content
  }

  /** The sends of an upload take their turns in the order of its PUTs: what is over came before what waits, what
      waits before what has not started. */
  ghost predicate InOrder(u: Upload) {
    && u.started <= |u.puts|
    && (forall g :: g in u.ended ==> 0 < g <= u.started)
    && (forall i :: 0 <= i < |u.line| && u.line[i].Send? ==> 0 < u.line[i].generation <= u.started)
    && (forall i, g :: 0 <= i < |u.line| && u.line[i].Send? && g in u.ended ==> g < u.line[i].generation)
    && (forall i, j :: 0 <= i < j < |u.line| && u.line[i].Send? && u.line[j].Send? ==>
          u.line[i].generation < u.line[j].generation)
    && (forall i :: 0 <= i < |u.line| && u.line[i].Erase? ==> u.line[i].generation <= |u.puts|)
  }

  /** The lock's holder: a send after all that are over and before all that wait, or an erasure of the PUT that was the
      newest when it began. */
  ghost predicate HolderOk(store: map<Name, Content>, u: Upload) {
    u.holder.Some? ==>
      var turn := u.holder.value.turn;
      && (u.holder.value.landed ==> Holds(store, u.name, u.Writes(turn)))
      && (turn.Send? ==>
            && 0 < turn.generation <= u.started
            && (forall g :: g in u.ended ==> g < turn.generation)
            && (forall i :: 0 <= i < |u.line| && u.line[i].Send? ==> turn.generation < u.line[i].generation))
      && (turn.Erase? ==>
            turn.generation <= |u.puts| && forall g :: g in u.ended ==> g <= turn.generation)
  }

  /** Once the newest PUT's send is over and nothing writes, the store holds what the state says. */
  ghost predicate Agrees(store: map<Name, Content>, u: Upload) {
    u.Generation() in u.ended && u.puts != [] ==>
      if u.holder.None?
      then && (u.status.Live? ==> Holds(store, u.name, Bytes(u.puts[u.Generation() - 1])))
           && (u.status.Erased? ==> Holds(store, u.name, Blank))
      else u.holder.value.turn.Erase? && !u.status.Erased?
  }

  ghost predicate UploadOk(s: State, id: Id)
    requires id in s.uploads
  {
    var u := s.uploads[id];
    && id < s.next && u.expires <= s.now + TTL_S
    && InOrder(u)
    && (u.holder.Some? ==> Registered(s, id) && HolderOk(s.store, u))
    && (Registered(s, id) ==> Agrees(s.store, u))
  }

  ghost predicate Inv(s: State) {
    && (forall id :: id in s.uploads ==> UploadOk(s, id))
    && (forall n :: n in s.registry ==> s.registry[n] in s.uploads && s.uploads[s.registry[n]].name == n)
    && (forall n, id :: n in s.registry && id in s.uploads && s.uploads[id].name == n ==> id <= s.registry[n])
  }

  // ----- Every step keeps it

  /** What a step of one upload leaves of another: its entry, and the store under its name while it is registered. */
  lemma OtherOk(s: State, r: State, j: Id)
    requires j in s.uploads && UploadOk(s, j) && j in r.uploads && r.uploads[j] == s.uploads[j]
    requires s.now <= r.now && s.next <= r.next && (Registered(r, j) <==> Registered(s, j))
    requires Registered(s, j) ==>
               forall c :: Holds(s.store, s.uploads[j].name, c) <==> Holds(r.store, s.uploads[j].name, c)
    ensures UploadOk(r, j)
  {
  }

  lemma OkOf(s: State, id: Id)
    requires Inv(s) && id in s.uploads
    ensures UploadOk(s, id)
  {
  }

  lemma RegisteredOk(s: State, name: Name)
    requires Inv(s) && name in s.registry
    ensures s.registry[name] in s.uploads && s.uploads[s.registry[name]].name == name
  {
  }

  /** One upload changes, and nothing else does. */
  lemma SetKeeps(s: State, id: Id, u: Upload)
    requires Inv(s) && id in s.uploads && u.name == s.uploads[id].name && UploadOk(SetUpload(s, id, u), id)
    ensures Inv(SetUpload(s, id, u))
  {
    hide UploadOk;
    var r := SetUpload(s, id, u);
    forall j | j in r.uploads && j != id
      ensures UploadOk(r, j)
    {
      OtherOk(s, r, j);
    }
  }

  lemma DropKeeps(s: State, id: Id)
    requires Inv(s) && Registered(s, id) && s.uploads[id].holder.None?
    ensures Inv(s.(registry := s.registry - {s.uploads[id].name}))
  {
    var r := s.(registry := s.registry - {s.uploads[id].name});
    forall j | j in r.uploads
      ensures UploadOk(r, j)
    {
      if j != id {
        assert UploadOk(s, j);
        OtherOk(s, r, j);
      }
    }
  }

  lemma ForgetKeeps(s: State, id: Id, turn: Turn)
    requires Inv(s) && id in s.uploads && s.uploads[id].holder.None?
    ensures Inv(Forget(s, id, turn))
  {
    hide Inv;
    if Registered(s, id) {
      DropKeeps(s, id);
    }
  }

  /** A turn that may come next: a send after all that are over and before all that wait. */
  ghost predicate ComesNext(u: Upload, turn: Turn) {
    && (turn.Send? ==>
          && 0 < turn.generation <= u.started
          && (forall g :: g in u.ended ==> g < turn.generation)
          && (forall i :: 0 <= i < |u.line| && u.line[i].Send? ==> turn.generation < u.line[i].generation))
    && (turn.Erase? ==> turn.generation <= |u.puts|)
  }

  lemma SendTakesTurn(s: State, id: Id, g: nat)
    requires Inv(s) && id in s.uploads && s.uploads[id].holder.None? && ComesNext(s.uploads[id], Send(g))
    ensures Inv(TakeTurn(s, id, Send(g)))
  {
    hide Inv;
    var u := s.uploads[id];
    OkOf(s, id);
    SetKeeps(s, id, if Registered(s, id) then u.(holder := Some(Writer(Send(g), false)))
                    else u.(ended := u.ended + {g}));
  }

  lemma EraseTakesTurn(s: State, id: Id, turn: Turn)
    requires Inv(s) && id in s.uploads && s.uploads[id].holder.None? && turn.Erase? && Current(s, id, turn.generation)
    requires !s.uploads[id].status.Erased?
    ensures Inv(SetUpload(s, id, s.uploads[id].(holder := Some(Writer(turn, false)))))
  {
    hide Inv;
    OkOf(s, id);
    SetKeeps(s, id, s.uploads[id].(holder := Some(Writer(turn, false))));
  }

  lemma TakeTurnKeeps(s: State, id: Id, turn: Turn)
    requires Inv(s) && id in s.uploads && s.uploads[id].holder.None? && ComesNext(s.uploads[id], turn)
    ensures Inv(TakeTurn(s, id, turn))
  {
    hide Inv, ComesNext;
    match turn
    case Send(g) => SendTakesTurn(s, id, g);
    case Erase(g, expired) =>
      ForgetKeeps(s, id, turn);
      if Current(s, id, g) && !s.uploads[id].status.Erased? {
        EraseTakesTurn(s, id, turn);
      }
  }

  /** A turn that may join the end of the line. */
  ghost predicate MayJoin(u: Upload, turn: Turn) {
    && (turn.Send? ==>
          && 0 < turn.generation <= u.started
          && (forall g :: g in u.ended ==> g < turn.generation)
          && (forall i :: 0 <= i < |u.line| && u.line[i].Send? ==> u.line[i].generation < turn.generation)
          && (u.holder.Some? && u.holder.value.turn.Send? ==> u.holder.value.turn.generation < turn.generation))
    && (turn.Erase? ==> turn.generation <= |u.puts|)
  }

  lemma AskTurnKeeps(s: State, id: Id, turn: Turn)
    requires Inv(s) && id in s.uploads && MayJoin(s.uploads[id], turn)
    ensures Inv(AskTurn(s, id, turn))
  {
    hide Inv, TakeTurn;
    if s.uploads[id].holder.None? && s.uploads[id].line == [] {
      TakeTurnKeeps(s, id, turn);
    } else {
      JoinKeeps(s, id, turn);
    }
  }

  lemma JoinKeeps(s: State, id: Id, turn: Turn)
    requires Inv(s) && id in s.uploads && MayJoin(s.uploads[id], turn)
    ensures Inv(SetUpload(s, id, s.uploads[id].(line := s.uploads[id].line + [turn])))
  {
    hide Inv, Agrees, InOrder, Holds;
    var u := s.uploads[id];
    OkOf(s, id);
    var v := u.(line := u.line + [turn]);
    JoinInOrder(u, turn);
    SameAgrees(s.store, u, v);
    SetKeeps(s, id, v);
  }

  lemma JoinInOrder(u: Upload, turn: Turn)
    requires InOrder(u) && MayJoin(u, turn)
    ensures InOrder(u.(line := u.line + [turn]))
  {
  }

  lemma SameAgrees(store: map<Name, Content>, u: Upload, v: Upload)
    requires v == u.(line := v.line, started := v.started, expires := v.expires)
    ensures Agrees(store, u) <==> Agrees(store, v)
  {
  }

  /** A PUT that was made: another send is due, and the state is open until it is over. */
  lemma MadeKeeps(s: State, id: Id, data: Data)
    requires Inv(s) && id in s.uploads
    ensures Inv(SetUpload(s, id, s.uploads[id].(puts := s.uploads[id].puts + [data], status := Sending)))
  {
    hide Inv;
    var u := s.uploads[id];
    OkOf(s, id);
    var v := u.(puts := u.puts + [data], status := Sending);
    if u.holder.Some? {
      assert v.Writes(u.holder.value.turn) == u.Writes(u.holder.value.turn);
    }
    SetKeeps(s, id, v);
  }

  lemma RenewKeeps(s: State, id: Id)
    requires Inv(s) && id in s.uploads
    ensures Inv(SetUpload(s, id, s.uploads[id].(expires := s.now + TTL_S)))
  {
    hide Inv;
    OkOf(s, id);
    SetKeeps(s, id, s.uploads[id].(expires := s.now + TTL_S));
  }

  lemma NewKeeps(s: State, name: Name, scope: Scope)
    requires Inv(s) && name !in s.registry
    ensures Inv(SetUpload(s, s.next, Upload(name, scope, s.now + TTL_S, Sending, [], 0, {}, [], None))
                  .(registry := s.registry[name := s.next], next := s.next + 1))
  {
    hide UploadOk;
    var r := SetUpload(s, s.next, Upload(name, scope, s.now + TTL_S, Sending, [], 0, {}, [], None))
               .(registry := s.registry[name := s.next], next := s.next + 1);
    NewOk(s, r, name, scope);
    forall j | j in s.uploads
      ensures j < s.next && UploadOk(r, j)
    {
      BelowNext(s, j);
      OtherOk(s, r, j);
    }
  }

  lemma BelowNext(s: State, j: Id)
    requires j in s.uploads && UploadOk(s, j)
    ensures j < s.next
  {
  }

  lemma NewOk(s: State, r: State, name: Name, scope: Scope)
    requires r.uploads == s.uploads[s.next := Upload(name, scope, s.now + TTL_S, Sending, [], 0, {}, [], None)]
    requires r.now == s.now && r.next == s.next + 1
    ensures UploadOk(r, s.next)
  {
  }

  lemma ClaimKeeps(s: State, name: Name, scope: Scope, cap: nat)
    requires Inv(s)
    ensures Inv(Claim(s, name, scope, cap).0)
    ensures var (claimed, id) := Claim(s, name, scope, cap);
            id.Some? ==> Registered(claimed, id.value)
  {
    hide Inv;
    if name in s.registry {
      RegisteredOk(s, name);
    }
    if Reclaimable(s, name) {
      DropKeeps(s, s.registry[name]);
    }
    var kept := if Reclaimable(s, name) then s.(registry := s.registry - {name}) else s;
    if name in kept.registry {
      RenewKeeps(kept, kept.registry[name]);
    } else {
      NewKeeps(kept, name, scope);
    }
  }

  lemma PutKeeps(s: State, name: Name, scope: Scope, cap: nat, data: Data)
    requires Inv(s)
    ensures Inv(Next(s, Put(name, scope, cap, data)))
  {
    hide Inv, Claim;
    ClaimKeeps(s, name, scope, cap);
    var (claimed, id) := Claim(s, name, scope, cap);
    if id.Some? {
      MadeKeeps(claimed, id.value, data);
    }
  }

  lemma SendStartsKeeps(s: State, id: Id)
    requires Inv(s)
    ensures Inv(Next(s, SendStarts(id)))
  {
    hide Inv, AskTurn, Registered, Agrees, HolderOk, InOrder, MayJoin;
    if id in s.uploads && s.uploads[id].started < |s.uploads[id].puts| {
      SendDue(s, id);
      AskTurnKeeps(SetUpload(s, id, s.uploads[id].(started := s.uploads[id].started + 1)), id,
                   Send(s.uploads[id].started + 1));
    }
  }

  lemma SendDue(s: State, id: Id)
    requires Inv(s) && id in s.uploads && s.uploads[id].started < |s.uploads[id].puts|
    ensures var v := s.uploads[id].(started := s.uploads[id].started + 1);
            Inv(SetUpload(s, id, v)) && MayJoin(v, Send(v.started))
  {
    hide Inv, Holds;
    OkOf(s, id);
    var v := s.uploads[id].(started := s.uploads[id].started + 1);
    SameAgrees(s.store, s.uploads[id], v);
    SetKeeps(s, id, v);
  }

  lemma EraseAsksKeeps(s: State, e: Event)
    requires Inv(s) && (e.ClientErases? || e.CleansUp? || e.Sweeps?)
    ensures Inv(Next(s, e))
  {
    hide Inv, AskTurn;
    match e
    case ClientErases(name, scope) =>
      if name in s.registry && s.registry[name] in s.uploads && s.uploads[s.registry[name]].scope == scope {
        AskTurnKeeps(s, s.registry[name], Erase(s.uploads[s.registry[name]].Generation(), false));
      }
    case CleansUp(id, generation) =>
      if id in s.uploads && generation in s.uploads[id].ended {
        OkOf(s, id);
        AskTurnKeeps(s, id, Erase(generation, false));
      }
    case Sweeps(id, generation) =>
      if id in s.uploads && generation <= s.uploads[id].Generation() {
        AskTurnKeeps(s, id, Erase(generation, true));
      }
  }

  lemma TurnComesKeeps(s: State, id: Id)
    requires Inv(s)
    ensures Inv(Next(s, TurnComes(id)))
  {
    hide Inv, TakeTurn, ComesNext, InOrder, Registered;
    if id in s.uploads && s.uploads[id].holder.None? && s.uploads[id].line != [] {
      HeadComes(s, id);
      TakeTurnKeeps(SetUpload(s, id, s.uploads[id].(line := s.uploads[id].line[1..])), id, s.uploads[id].line[0]);
    }
  }

  lemma HeadComes(s: State, id: Id)
    requires Inv(s) && id in s.uploads && s.uploads[id].holder.None? && s.uploads[id].line != []
    ensures var v := s.uploads[id].(line := s.uploads[id].line[1..]);
            Inv(SetUpload(s, id, v)) && ComesNext(v, s.uploads[id].line[0])
  {
    hide Inv, Holds;
    OkOf(s, id);
    var v := s.uploads[id].(line := s.uploads[id].line[1..]);
    SameAgrees(s.store, s.uploads[id], v);
    SetKeeps(s, id, v);
  }

  lemma GivesUpKeeps(s: State, id: Id, i: nat)
    requires Inv(s)
    ensures Inv(Next(s, GivesUp(id, i)))
  {
    hide Inv, Holds, Agrees, InOrder, HolderOk, Without;
    if id in s.uploads && i < |s.uploads[id].line| && s.uploads[id].line[i].Erase? {
      OkOf(s, id);
      var u := s.uploads[id];
      var v := u.(line := Without(u.line, i));
      SameAgrees(s.store, u, v);
      LeavesInOrder(s.store, u, i);
      SetKeeps(s, id, v);
    }
  }

  lemma LeavesInOrder(store: map<Name, Content>, u: Upload, i: nat)
    requires i < |u.line| && InOrder(u)
    ensures InOrder(u.(line := Without(u.line, i)))
    ensures HolderOk(store, u) ==> HolderOk(store, u.(line := Without(u.line, i)))
  {
    var rest := Without(u.line, i);
    assert forall k :: 0 <= k < |rest| ==> rest[k] == u.line[if k < i then k else k + 1];
  }

  lemma WriteLandsKeeps(s: State, id: Id)
    requires Inv(s)
    ensures Inv(Next(s, WriteLands(id)))
  {
    hide UploadOk, Registered;
    if id in s.uploads && s.uploads[id].holder.Some? {
      var r := Next(s, WriteLands(id));
      LandsSelf(s, id);
      forall j | j in r.uploads && j != id
        ensures UploadOk(r, j)
      {
        LandsOther(s, id, j);
      }
    }
  }

  lemma LandsSelf(s: State, id: Id)
    requires id in s.uploads && UploadOk(s, id) && s.uploads[id].holder.Some?
    ensures UploadOk(Next(s, WriteLands(id)), id)
  {
  }

  lemma LandsOther(s: State, id: Id, j: Id)
    requires id in s.uploads && UploadOk(s, id) && s.uploads[id].holder.Some? && j in s.uploads && UploadOk(s, j)
    requires j != id
    ensures UploadOk(Next(s, WriteLands(id)), j)
  {
    OtherOk(s, Next(s, WriteLands(id)), j);
  }

  lemma AnsweredKeeps(s: State, id: Id, ok: bool)
    requires Inv(s) && id in s.uploads && s.uploads[id].holder.Some? && (ok ==> s.uploads[id].holder.value.landed)
    ensures Inv(SetUpload(s, id, Answered(s, id, ok)))
  {
    hide Inv;
    OkOf(s, id);
    EndsOk(s, id, ok);
    SetKeeps(s, id, Answered(s, id, ok));
  }

  lemma WriteEndsKeeps(s: State, id: Id, ok: bool)
    requires Inv(s)
    ensures Inv(Next(s, WriteEnds(id, ok)))
  {
    hide Inv, Forget;
    if id in s.uploads && s.uploads[id].holder.Some? && (ok ==> s.uploads[id].holder.value.landed) {
      AnsweredKeeps(s, id, ok);
      AnsweredIs(s, id, ok);
      ForgetKeeps(SetUpload(s, id, Answered(s, id, ok)), id, s.uploads[id].holder.value.turn);
    }
  }

  lemma AnsweredIs(s: State, id: Id, ok: bool)
    requires id in s.uploads && s.uploads[id].holder.Some?
    ensures Answered(s, id, ok).holder.None?
    ensures EndWrite(s, id, ok) == Forget(SetUpload(s, id, Answered(s, id, ok)), id, s.uploads[id].holder.value.turn)
  {
  }

  lemma EndsOk(s: State, id: Id, ok: bool)
    requires id in s.uploads && s.uploads[id].holder.Some? && (ok ==> s.uploads[id].holder.value.landed)
    requires UploadOk(s, id)
    ensures UploadOk(SetUpload(s, id, Answered(s, id, ok)), id)
  {
  }

  /** Every step keeps the invariant, and so does every run. */
  lemma NextKeeps(s: State, e: Event)
    requires Inv(s)
    ensures Inv(Next(s, e))
  {
    hide Inv;
    match e
    case Put(name, scope, cap, data) => PutKeeps(s, name, scope, cap, data);
    case SendStarts(id) => SendStartsKeeps(s, id);
    case TurnComes(id) => TurnComesKeeps(s, id);
    case GivesUp(id, i) => GivesUpKeeps(s, id, i);
    case WriteLands(id) => WriteLandsKeeps(s, id);
    case WriteEnds(id, ok) => WriteEndsKeeps(s, id, ok);
    case Tick => TickKeeps(s);
    case _ => EraseAsksKeeps(s, e);
  }

  lemma TickKeeps(s: State)
    requires Inv(s)
    ensures Inv(Next(s, Tick))
  {
    hide UploadOk;
    forall j | j in s.uploads
      ensures UploadOk(Next(s, Tick), j)
    {
      OtherOk(s, Next(s, Tick), j);
    }
  }

  lemma {:induction false} RunKeeps(events: seq<Event>)
    ensures Inv(Run(events))
  {
    hide Next;
    if events != [] {
      RunKeeps(events[..|events| - 1]);
      NextKeeps(Run(events[..|events| - 1]), events[|events| - 1]);
    }
  }
}
