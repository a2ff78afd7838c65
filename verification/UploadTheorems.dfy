/** What the upload registry promises of every run: one write at a time, a state that agrees with the store, and
    cleanups that touch nothing newer. */
module UploadTheorems {

  import opened Wrappers
  import opened Uploads

  /** At most one write of a name is ever in flight, even when the name was given up and claimed anew. */
  lemma OneWriteAtATime(events: seq<Event>, a: Id, b: Id)
    requires a in Run(events).uploads && b in Run(events).uploads
    requires Run(events).uploads[a].name == Run(events).uploads[b].name
    requires Run(events).uploads[a].holder.Some? && Run(events).uploads[b].holder.Some?
    ensures a == b
  {
    hide Inv, Next, InOrder, HolderOk, Agrees;
    RunKeeps(events);
    OkOf(Run(events), a);
    OkOf(Run(events), b);
  }

  /** Once the newest PUT's send is over and nothing writes the name, `live` means that the store holds exactly that
      PUT's bytes, and `erased` that it holds the blank. */
  lemma StateAgreesWithStore(events: seq<Event>, name: Name)
    requires name in Run(events).registry && Run(events).registry[name] in Run(events).uploads
    requires var u := Run(events).uploads[Run(events).registry[name]];
             u.Generation() in u.ended && u.holder.None?
    ensures var u := Run(events).uploads[Run(events).registry[name]];
            && u.puts != []
            && (u.status.Live? ==> Holds(Run(events).store, name, Bytes(u.puts[|u.puts| - 1])))
            && (u.status.Erased? ==> Holds(Run(events).store, name, Blank))
  {
    hide Inv, Next, Holds;
    RunKeeps(events);
    RegisteredOk(Run(events), name);
    OkOf(Run(events), Run(events).registry[name]);
  }

  /** A write of the newest PUT that the store has taken and answered is told as it is: a send makes the name live with
      exactly its bytes, an erasure blank. */
  lemma SuccessIsTold(events: seq<Event>, id: Id)
    requires id in Run(events).uploads && Run(events).uploads[id].holder.Some?
    requires Run(events).uploads[id].holder.value.landed
    requires Run(events).uploads[id].holder.value.turn.generation == Run(events).uploads[id].Generation()
    ensures var u, r := Run(events).uploads[id], Next(Run(events), WriteEnds(id, true));
            && id in r.uploads && r.uploads[id].holder.None? && r.uploads[id].puts == u.puts
            && (u.holder.value.turn.Send? ==>
                  r.uploads[id].status == Live && u.puts != [] && Holds(r.store, u.name, Bytes(u.puts[|u.puts| - 1])))
            && (u.holder.value.turn.Erase? ==> r.uploads[id].status == Erased && Holds(r.store, u.name, Blank))
  {
    hide Inv, InOrder, Agrees;
    RunKeeps(events);
    OkOf(Run(events), id);
  }

  // ----- Steps

  /** What a step does to the registry and to an upload that was there: it stays, with its name and scope, its ten
      minutes only grow, and it leaves the registry only when they are over. */
  ghost predicate Stays(s: State, r: State, id: Id)
    requires id in s.uploads
  {
    && id in r.uploads && r.uploads[id].name == s.uploads[id].name && r.uploads[id].scope == s.uploads[id].scope
    && s.uploads[id].expires <= r.uploads[id].expires && s.now <= r.now
    && (Registered(s, id) && s.now < s.uploads[id].expires ==> Registered(r, id))
  }

  lemma ForgetStays(s: State, id: Id, turn: Turn, j: Id)
    requires id in s.uploads && j in s.uploads
    ensures Stays(s, Forget(s, id, turn), j)
  {
  }

  lemma SetStays(s: State, id: Id, u: Upload, j: Id)
    requires j in s.uploads && id in s.uploads
    requires u.name == s.uploads[id].name && u.scope == s.uploads[id].scope && u.expires == s.uploads[id].expires
    ensures Stays(s, SetUpload(s, id, u), j)
  {
  }

  lemma StaysOn(s: State, m: State, r: State, j: Id)
    requires j in s.uploads && Stays(s, m, j) && Stays(m, r, j) && m.now == s.now
    requires m.uploads[j].expires == s.uploads[j].expires
    ensures Stays(s, r, j)
  {
  }

  lemma TakeTurnStays(s: State, id: Id, turn: Turn, j: Id)
    requires id in s.uploads && j in s.uploads
    ensures Stays(s, TakeTurn(s, id, turn), j)
  {
    hide Forget, Stays;
    ForgetStays(s, id, turn, j);
    var u := s.uploads[id];
    SetStays(s, id, u.(holder := Some(Writer(turn, false))), j);
    SetStays(s, id, u.(ended := u.ended + {turn.generation}), j);
  }

  lemma AskTurnStays(s: State, id: Id, turn: Turn, j: Id)
    requires id in s.uploads && j in s.uploads
    ensures Stays(s, AskTurn(s, id, turn), j)
  {
    hide TakeTurn, Stays;
    TakeTurnStays(s, id, turn, j);
    SetStays(s, id, s.uploads[id].(line := s.uploads[id].line + [turn]), j);
  }

  lemma ClaimStays(s: State, name: Name, scope: Scope, cap: nat, j: Id)
    requires Inv(s) && j in s.uploads
    ensures Stays(s, Claim(s, name, scope, cap).0, j)
  {
    hide InOrder, HolderOk, Agrees;
    assert UploadOk(s, j);
  }

  lemma PutStays(s: State, name: Name, scope: Scope, cap: nat, data: Data, j: Id)
    requires Inv(s) && j in s.uploads
    ensures Stays(s, Next(s, Put(name, scope, cap, data)), j)
  {
    hide Inv, Claim;
    ClaimStays(s, name, scope, cap, j);
  }

  lemma WriteStays(s: State, e: Event, j: Id)
    requires j in s.uploads && (e.WriteLands? || e.WriteEnds?)
    ensures Stays(s, Next(s, e), j)
  {
    hide Forget;
    match e
    case WriteLands(id) =>
    case WriteEnds(id, ok) =>
      if id in s.uploads && s.uploads[id].holder.Some? && (ok ==> s.uploads[id].holder.value.landed) {
        var v, turn := Answered(s, id, ok), s.uploads[id].holder.value.turn;
        SetStays(s, id, v, j);
        ForgetStays(SetUpload(s, id, v), id, turn, j);
        StaysOn(s, SetUpload(s, id, v), Next(s, e), j);
      }
  }

  lemma LockStays(s: State, e: Event, j: Id)
    requires j in s.uploads && (e.SendStarts? || e.ClientErases? || e.CleansUp? || e.Sweeps? || e.TurnComes?)
    ensures Stays(s, Next(s, e), j)
  {
    hide AskTurn, TakeTurn;
    match e
    case SendStarts(id) =>
      if id in s.uploads && s.uploads[id].started < |s.uploads[id].puts| {
        var m := SetUpload(s, id, s.uploads[id].(started := s.uploads[id].started + 1));
        AskTurnStays(m, id, Send(s.uploads[id].started + 1), j);
      }
    case ClientErases(name, scope) =>
      if name in s.registry && s.registry[name] in s.uploads {
        AskTurnStays(s, s.registry[name], Erase(s.uploads[s.registry[name]].Generation(), false), j);
      }
    case CleansUp(id, generation) =>
      if id in s.uploads {
        AskTurnStays(s, id, Erase(generation, false), j);
      }
    case Sweeps(id, generation) =>
      if id in s.uploads {
        AskTurnStays(s, id, Erase(generation, true), j);
      }
    case TurnComes(id) =>
      if id in s.uploads && s.uploads[id].holder.None? && s.uploads[id].line != [] {
        var m := SetUpload(s, id, s.uploads[id].(line := s.uploads[id].line[1..]));
        TakeTurnStays(m, id, s.uploads[id].line[0], j);
      }
  }

  lemma NextStays(s: State, e: Event, j: Id)
    requires Inv(s) && j in s.uploads
    ensures Stays(s, Next(s, e), j)
  {
    hide Inv, Next, Stays;
    match e
    case Put(name, scope, cap, data) => PutStays(s, name, scope, cap, data, j);
    case WriteLands(_) => WriteStays(s, e, j);
    case WriteEnds(_, _) => WriteStays(s, e, j);
    case GivesUp(_, _) => GivesUpStays(s, e, j);
    case Tick => TickStays(s, j);
    case _ => LockStays(s, e, j);
  }

  lemma GivesUpStays(s: State, e: Event, j: Id)
    requires j in s.uploads && e.GivesUp?
    ensures Stays(s, Next(s, e), j)
  {
    hide Without;
  }

  lemma TickStays(s: State, j: Id)
    requires j in s.uploads
    ensures Stays(s, Next(s, Tick), j)
  {
  }

  /** A scope keeps its entry for as long as it was given: neither a cleanup, nor a sweep, nor another claim takes it
      away before the time that stood when the run was at `i`, and later PUTs only move that time on. */
  lemma {:induction false} EntryStays(events: seq<Event>, i: nat, id: Id)
    requires i <= |events| && id in Run(events[..i]).uploads && Registered(Run(events[..i]), id)
    requires Run(events).now < Run(events[..i]).uploads[id].expires
    ensures id in Run(events).uploads && Registered(Run(events), id)
    ensures Run(events).uploads[id].scope == Run(events[..i]).uploads[id].scope
    ensures Run(events).uploads[id].expires >= Run(events[..i]).uploads[id].expires
  {
    hide Inv, Next;
    if i == |events| {
      assert events[..i] == events;
    } else {
      var before := events[..|events| - 1];
      assert before[..i] == events[..i];
      RunKeeps(before);
      TimePasses(Run(before), events[|events| - 1]);
      EntryStays(before, i, id);
      NextStays(Run(before), events[|events| - 1], id);
    }
  }

  lemma TimePasses(s: State, e: Event)
    ensures s.now <= Next(s, e).now
  {
  }

  /** A PUT that is taken starts the ten minutes of its name again, for its scope. */
  lemma PutStartsTenMinutes(events: seq<Event>, name: Name, scope: Scope, cap: nat, data: Data)
    requires Claim(Run(events), name, scope, cap).1.Some?
    ensures var s, r, id := Run(events), Next(Run(events), Put(name, scope, cap, data)),
                            Claim(Run(events), name, scope, cap).1.value;
            && Registered(r, id) && r.uploads[id].name == name && r.uploads[id].scope == scope
            && r.uploads[id].expires == s.now + TTL_S
            && |r.uploads[id].puts| > 0 && r.uploads[id].puts[|r.uploads[id].puts| - 1] == data
            && r.uploads[id].status.Sending? && r.uploads[id].Generation() !in r.uploads[id].ended
  {
    hide Inv, Next, HolderOk, Agrees;
    RunKeeps(events);
    PutTaken(Run(events), name, scope, cap, data);
  }

  lemma PutTaken(s: State, name: Name, scope: Scope, cap: nat, data: Data)
    requires Inv(s) && Claim(s, name, scope, cap).1.Some?
    ensures var r, id := Next(s, Put(name, scope, cap, data)), Claim(s, name, scope, cap).1.value;
            && Registered(r, id) && r.uploads[id].name == name && r.uploads[id].scope == scope
            && r.uploads[id].expires == s.now + TTL_S
            && |r.uploads[id].puts| > 0 && r.uploads[id].puts[|r.uploads[id].puts| - 1] == data
            && r.uploads[id].status.Sending? && r.uploads[id].Generation() !in r.uploads[id].ended
  {
    hide Inv, Claim, HolderOk, Agrees;
    ClaimKeeps(s, name, scope, cap);
    ClaimGives(s, name, scope, cap);
    RegisteredOk(Claim(s, name, scope, cap).0, name);
    var (claimed, id) := Claim(s, name, scope, cap);
    OkOf(claimed, id.value);
  }

  lemma ClaimGives(s: State, name: Name, scope: Scope, cap: nat)
    requires Claim(s, name, scope, cap).1.Some?
    ensures var (claimed, id) := Claim(s, name, scope, cap);
            && id.value in claimed.uploads && claimed.uploads[id.value].expires == s.now + TTL_S
            && claimed.uploads[id.value].scope == scope && claimed.now == s.now
            && name in claimed.registry && claimed.registry[name] == id.value
  {
  }

  // ----- Cleanups

  /** While the newest PUT's bytes are live, the store changes under the name only by an erasure that was asked for
      that very PUT: no cleanup or sweep of an older one, and no write of an upload that lost the name. */
  lemma OnlyItsOwnErasure(events: seq<Event>, e: Event, id: Id)
    requires id in Run(events).uploads && Registered(Run(events), id)
    requires Run(events).uploads[id].Generation() in Run(events).uploads[id].ended
    ensures var s, r, u := Run(events), Next(Run(events), e), Run(events).uploads[id];
            (exists c :: Holds(s.store, u.name, c) != Holds(r.store, u.name, c)) ==>
              && e == WriteLands(id) && u.holder.Some? && u.holder.value.turn.Erase?
              && u.holder.value.turn.generation == u.Generation()
  {
    hide Inv, Next, Holds;
    var s, u := Run(events), Run(events).uploads[id];
    RunKeeps(events);
    OkOf(s, id);
    if e.WriteLands? && e.id in s.uploads {
      OkOf(s, e.id);
      LandsUnder(s, e.id, u.name);
    } else {
      StoreKept(s, e);
    }
  }

  lemma LandsUnder(s: State, id: Id, name: Name)
    requires id in s.uploads && UploadOk(s, id)
    ensures name != s.uploads[id].name || s.uploads[id].holder.None? ==>
              forall c :: Holds(s.store, name, c) == Holds(Next(s, WriteLands(id)).store, name, c)
  {
  }

  /** Only a landing write changes the store. */
  lemma StoreKept(s: State, e: Event)
    requires !e.WriteLands? || e.id !in s.uploads
    ensures Next(s, e).store == s.store
  {
    hide Reclaimable, LiveNames, Registered, Current, Without;
  }

  /** A cleanup of a PUT that is not the newest does nothing when its turn comes. */
  lemma OlderCleanupDoesNothing(s: State, id: Id, generation: nat, expired: bool)
    requires id in s.uploads && (generation != s.uploads[id].Generation() || !Registered(s, id))
    ensures TakeTurn(s, id, Erase(generation, expired)) == s
  {
  }

  // ----- The cap

  /** Whether the scope's entry under the name counts against its cap. */
  predicate Counts(s: State, name: Name, scope: Scope) {
    name in LiveNames(s, scope)
  }

  /** The cap on live uploads is not kept by every PUT: one of a name that the scope already has, and that does not
      count because it was erased or its time is over under a held lock, skips it. From within the cap a PUT that is
      taken goes past it exactly then, with the cap reached. */
  lemma CapExactly(s: State, name: Name, scope: Scope, cap: nat, data: Data)
    requires Inv(s) && |LiveNames(s, scope)| <= cap && Claim(s, name, scope, cap).1.Some?
    ensures |LiveNames(Next(s, Put(name, scope, cap, data)), scope)| > cap
       <==> name in s.registry && !Reclaimable(s, name) && !Counts(s, name, scope) && |LiveNames(s, scope)| == cap
  {
    hide UploadOk, Next;
    var r := Next(s, Put(name, scope, cap, data));
    LiveAfterPut(s, name, scope, cap, data);
    var live := LiveNames(s, scope);
    assert LiveNames(r, scope) == live + {name};
    if name in live {
      assert live + {name} == live;
    } else {
      assert |live + {name}| == |live| + 1;
    }
    if !(name in s.registry && !Reclaimable(s, name)) {
      FreshIsBelowCap(s, name, scope, cap);
    }
  }

  lemma LiveAfterPut(s: State, name: Name, scope: Scope, cap: nat, data: Data)
    requires Inv(s) && Claim(s, name, scope, cap).1.Some?
    ensures forall n :: n in LiveNames(Next(s, Put(name, scope, cap, data)), scope)
                   <==> n in LiveNames(s, scope) || n == name
  {
    hide InOrder, HolderOk, Agrees;
    assert name in s.registry ==> UploadOk(s, s.registry[name]);
  }

  lemma FreshIsBelowCap(s: State, name: Name, scope: Scope, cap: nat)
    requires Inv(s) && Claim(s, name, scope, cap).1.Some? && (name !in s.registry || Reclaimable(s, name))
    ensures |LiveNames(s, scope)| < cap
  {
    hide UploadOk;
    var kept := if Reclaimable(s, name) then s.(registry := s.registry - {name}) else s;
    assert LiveNames(kept, scope) == LiveNames(s, scope);
  }

  /** A name sent and erased, another sent in its place, and the first sent again. */
  const PAST_THE_CAP: seq<Event> := [
    Put(0, 0, 1, 5), SendStarts(0), WriteLands(0), WriteEnds(0, true),
    ClientErases(0, 0), WriteLands(0), WriteEnds(0, true),
    Put(1, 0, 1, 6), Put(0, 0, 1, 7)]

  lemma RunStep(events: seq<Event>, i: nat)
    requires i < |events|
    ensures Run(events[..i + 1]) == Next(Run(events[..i]), events[i])
  {
    assert events[..i + 1][..i] == events[..i];
  }

  /** The state of the first name alone, at the time 0. */
  function FirstAlone(status: Status, started: nat, ended: set<nat>, holder: Option<Writer>,
                      store: map<Name, Content>): State
  {
    State(0, map[0 := 0], map[0 := Upload(0, 0, TTL_S, status, [5], started, ended, [], holder)], 1, store)
  }

  lemma FirstPut()
    ensures Next(INITIAL, Put(0, 0, 1, 5)) == FirstAlone(Sending, 0, {}, None, map[])
  {
    assert LiveNames(INITIAL, 0) == {};
    assert [] + [5] == [5];
    var r := Next(INITIAL, Put(0, 0, 1, 5));
    assert r.uploads == map[0 := Upload(0, 0, TTL_S, Sending, [] + [5], 0, {}, [], None)];
    assert r.registry == map[0 := 0] && r.store == map[];
  }

  lemma FirstLands(turn: Turn, status: Status, ended: set<nat>, store: map<Name, Content>)
    requires turn == Send(1) || turn == Erase(1, false)
    ensures Next(FirstAlone(status, 1, ended, Some(Writer(turn, false)), store), WriteLands(0))
         == FirstAlone(status, 1, ended, Some(Writer(turn, true)), store[0 := if turn.Send? then Bytes(5) else Blank])
  {
  }

  lemma FirstAsks()
    ensures Next(FirstAlone(Sending, 0, {}, None, map[]), SendStarts(0))
         == FirstAlone(Sending, 1, {}, Some(Writer(Send(1), false)), map[])
    ensures Next(FirstAlone(Live, 1, {1}, None, map[0 := Bytes(5)]), ClientErases(0, 0))
         == FirstAlone(Live, 1, {1}, Some(Writer(Erase(1, false), false)), map[0 := Bytes(5)])
  {
  }

  lemma FirstEnds()
    ensures Next(FirstAlone(Sending, 1, {}, Some(Writer(Send(1), true)), map[0 := Bytes(5)]), WriteEnds(0, true))
         == FirstAlone(Live, 1, {1}, None, map[0 := Bytes(5)])
    ensures Next(FirstAlone(Live, 1, {1}, Some(Writer(Erase(1, false), true)), map[0 := Blank]), WriteEnds(0, true))
         == FirstAlone(Erased, 1, {1}, None, map[0 := Blank])
  {
    assert {} + {1} == {1};
    var s := FirstAlone(Sending, 1, {}, Some(Writer(Send(1), true)), map[0 := Bytes(5)]);
    assert Next(s, WriteEnds(0, true)).uploads
        == map[0 := Upload(0, 0, TTL_S, Live, [5], 1, {1}, [], None)];
  }

  lemma FirstSent()
    ensures Run(PAST_THE_CAP[..4]) == FirstAlone(Live, 1, {1}, None, map[0 := Bytes(5)])
  {
    hide Next, FirstAlone;
    var events := PAST_THE_CAP;
    assert events[..0] == [];
    RunStep(events, 0);
    FirstPut();
    RunStep(events, 1);
    FirstAsks();
    RunStep(events, 2);
    FirstLands(Send(1), Sending, {}, map[]);
    assert map[][0 := Bytes(5)] == map[0 := Bytes(5)];
    RunStep(events, 3);
    FirstEnds();
  }

  lemma FirstErased()
    ensures Run(PAST_THE_CAP[..7]) == FirstAlone(Erased, 1, {1}, None, map[0 := Blank])
  {
    hide Next, FirstAlone;
    var events := PAST_THE_CAP;
    FirstSent();
    RunStep(events, 4);
    FirstAsks();
    RunStep(events, 5);
    FirstLands(Erase(1, false), Live, {1}, map[0 := Bytes(5)]);
    assert map[0 := Bytes(5)][0 := Blank] == map[0 := Blank];
    RunStep(events, 6);
    FirstEnds();
  }

  /** A scope with a cap of one has two uploads that count at the end of that run. */
  lemma CapIsPassed()
    ensures LiveNames(Run(PAST_THE_CAP), 0) == {0, 1}
  {
    hide Next, FirstAlone, Run;
    var events := PAST_THE_CAP;
    FirstErased();
    RunStep(events, 7);
    RunStep(events, 8);
    assert events[..9] == events;
    SecondPut();
  }

  lemma SecondPut()
    ensures var s := FirstAlone(Erased, 1, {1}, None, map[0 := Blank]);
            LiveNames(Next(Next(s, Put(1, 0, 1, 6)), Put(0, 0, 1, 7)), 0) == {0, 1}
  {
    var s := FirstAlone(Erased, 1, {1}, None, map[0 := Blank]);
    assert LiveNames(s, 0) == {};
    var r := Next(s, Put(1, 0, 1, 6));
    assert r.registry == map[0 := 0, 1 := 1] && r.now == 0;
  }
}
