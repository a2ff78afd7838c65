/** The upload registry as the picture lane keeps it (pictures/uploads.py): one object per name that was claimed,
    changed in place under its lock, and a dictionary of the ones that names stand for. There is a method for every
    event of Uploads.dfy, whose step is proved to be the machine's. */
module UploadRegistry {

  import opened Wrappers
  import opened Uploads

  class Entry {
    ghost const id: Id
    const name: Name
    const scope: Scope
    var expires: nat
    var state: Status
    var puts: seq<Data>      // what each PUT sent: their number is the generation
    var started: nat
    var ended: set<nat>
    var waiters: seq<Turn>   // of the lock, in the order they asked
    var holder: Option<Writer>

    constructor (ghost id: Id, name: Name, scope: Scope, expires: nat)
      ensures this.id == id && View() == Upload(name, scope, expires, Sending, [], 0, {}, [], None)
    {
      this.id, this.name, this.scope, this.expires := id, name, scope, expires;
      state, puts, started, ended, waiters, holder := Sending, [], 0, {}, [], None;
    }

    ghost function View(): Upload
      reads this
    {
      Upload(name, scope, expires, state, puts, started, ended, waiters, holder)
    }
  }

  ghost function Values(all: map<Id, Entry>): (values: map<Id, Upload>)
    reads all.Values
    ensures values.Keys == all.Keys && forall id :: id in all ==> values[id] == all[id].View()
  {
    map id | id in all :: all[id].View()
  }

  ghost function Ids(byName: map<Name, Entry>): (ids: map<Name, Id>)
    ensures ids.Keys == byName.Keys && forall n :: n in byName ==> ids[n] == byName[n].id
  {
    map n | n in byName :: byName[n].id
  }

  /** Entries are told apart by their numbers, and names stand for entries. */
  ghost predicate Sound(uploads: map<Name, Entry>, all: map<Id, Entry>) {
    && (forall id :: id in all ==> all[id].id == id)
    && (forall n :: n in uploads ==> uploads[n].id in all && all[uploads[n].id] == uploads[n])
  }

  class Registry {
    var uploads: map<Name, Entry>
    var now: nat
    ghost var all: map<Id, Entry>             // every entry there ever was
    ghost var next: Id
    ghost var store: map<Name, Content>       // the remote store's

    ghost predicate Valid()
      reads this
    {
      Sound(uploads, all)
    }

    ghost function View(): State
      reads this, all.Values
    {
      State(now, Ids(uploads), Values(all), next, store)
    }

    constructor ()
      ensures Valid() && View() == INITIAL
    {
      uploads, now, all, next, store := map[], 0, map[], 0, map[];
      new;
      assert Values(all) == map[] && Ids(uploads) == map[];
    }

    /** Whether the entry is still the one of its name, and the PUT its newest. */
    method IsCurrent(entry: Entry, generation: nat) returns (current: bool)
      requires Valid() && entry.id in all && all[entry.id] == entry
      ensures current == Current(View(), entry.id, generation)
    {
      current := entry.name in uploads && uploads[entry.name] == entry && |entry.puts| == generation;
    }

    /** Part of a sweep: the name is forgotten if it is still the one that expired. */
    method Forget(entry: Entry, turn: Turn)
      requires Valid() && entry.id in all && all[entry.id] == entry && entry.holder.None?
      modifies this`uploads
      ensures Valid() && View() == Uploads.Forget(old(View()), entry.id, turn)
    {
      if turn.Erase? && turn.expired {
        var current := IsCurrent(entry, turn.generation);
        if current && entry.expires <= now {
          uploads := uploads - {entry.name};
          assert Ids(uploads) == old(Ids(uploads)) - {entry.name};
        }
      }
    }

    // ----- One entry at a time

    method Hold(entry: Entry, holder: Option<Writer>)
      requires Valid() && entry.id in all && all[entry.id] == entry
      modifies entry`holder
      ensures Valid() && View() == SetUpload(old(View()), entry.id, old(entry.View()).(holder := holder))
    {
      entry.holder := holder;
      assert Values(all) == old(Values(all))[entry.id := entry.View()];
    }

    method SendIsOver(entry: Entry, generation: nat)
      requires Valid() && entry.id in all && all[entry.id] == entry
      modifies entry`ended
      ensures Valid()
      ensures View() == SetUpload(old(View()), entry.id, old(entry.View()).(ended := old(entry.ended) + {generation}))
    {
      entry.ended := entry.ended + {generation};
      assert Values(all) == old(Values(all))[entry.id := entry.View()];
    }

    method Queue(entry: Entry, waiters: seq<Turn>)
      requires Valid() && entry.id in all && all[entry.id] == entry
      modifies entry`waiters
      ensures Valid() && View() == SetUpload(old(View()), entry.id, old(entry.View()).(line := waiters))
    {
      entry.waiters := waiters;
      assert Values(all) == old(Values(all))[entry.id := entry.View()];
    }

    method SendHasStarted(entry: Entry)
      requires Valid() && entry.id in all && all[entry.id] == entry
      modifies entry`started
      ensures Valid()
      ensures View() == SetUpload(old(View()), entry.id, old(entry.View()).(started := old(entry.started) + 1))
    {
      entry.started := entry.started + 1;
      assert Values(all) == old(Values(all))[entry.id := entry.View()];
    }

    // ----- The lock

    /** A turn that has the lock: it writes, or has nothing to do and gives the lock back. */
    method TakeTurn(entry: Entry, turn: Turn)
      requires Valid() && entry.id in all && all[entry.id] == entry && entry.holder.None?
      modifies this`uploads, entry`holder, entry`ended
      ensures Valid() && View() == Uploads.TakeTurn(old(View()), entry.id, turn)
    {
      hide Values, Ids, Uploads.Forget;
      match turn {
        case Send(g) =>
          var registered := entry.name in uploads && uploads[entry.name] == entry;
          if registered {
            Hold(entry, Some(Writer(turn, false)));
          } else {
            SendIsOver(entry, g);
          }
        case Erase(g, expired) =>
          var current := IsCurrent(entry, g);
          if !current || (expired && entry.expires > now) || entry.state == Erased {
            Forget(entry, turn);
          } else {
            Hold(entry, Some(Writer(turn, false)));
          }
      }
    }

    /** Ask for the lock: first come, first served. */
    method AskTurn(entry: Entry, turn: Turn)
      requires Valid() && entry.id in all && all[entry.id] == entry
      modifies this`uploads, entry`holder, entry`ended, entry`waiters
      ensures Valid() && View() == Uploads.AskTurn(old(View()), entry.id, turn)
    {
      hide Values, Ids, Uploads.TakeTurn;
      if entry.holder.None? && entry.waiters == [] {
        TakeTurn(entry, turn);
      } else {
        Queue(entry, entry.waiters + [turn]);
      }
    }

    /** The send of the entry's next PUT starts. */
    method StartSend(entry: Entry)
      requires Valid() && entry.id in all && all[entry.id] == entry && entry.started < |entry.puts|
      modifies this`uploads, entry`started, entry`holder, entry`ended, entry`waiters
      ensures Valid() && View() == Next(old(View()), SendStarts(entry.id))
    {
      hide Values, Ids, Uploads.AskTurn;
      SendHasStarted(entry);
      AskTurn(entry, Send(entry.started));
    }

    /** The caller's own upload, to be erased; a name that is not the scope's is not found. */
    method EraseByClient(name: Name, scope: Scope) returns (found: bool)
      requires Valid()
      modifies this`uploads, all.Values`holder, all.Values`ended, all.Values`waiters
      ensures Valid() && View() == Next(old(View()), ClientErases(name, scope))
    {
      hide Uploads.AskTurn;
      found := name in uploads && uploads[name].scope == scope;
      if found {
        AskTurn(uploads[name], Erase(|uploads[name].puts|, false));
      }
    }

    /** The cleanup of a PUT that was not kept, or an expired name's erasure by the sweep. */
    method EraseFor(entry: Entry, generation: nat, expired: bool)
      requires Valid() && entry.id in all && all[entry.id] == entry && generation <= |entry.puts|
      requires !expired ==> generation in entry.ended
      modifies this`uploads, entry`holder, entry`ended, entry`waiters
      ensures Valid()
      ensures View() == Next(old(View()),
                             if expired then Sweeps(entry.id, generation) else CleansUp(entry.id, generation))
    {
      hide Uploads.AskTurn;
      AskTurn(entry, Erase(generation, expired));
    }

    /** The lock comes to the first that waits for it. */
    method NextTurn(entry: Entry)
      requires Valid() && entry.id in all && all[entry.id] == entry && entry.holder.None? && entry.waiters != []
      modifies this`uploads, entry`holder, entry`ended, entry`waiters
      ensures Valid() && View() == Next(old(View()), TurnComes(entry.id))
    {
      hide Values, Ids, Uploads.TakeTurn;
      var turn := entry.waiters[0];
      Queue(entry, entry.waiters[1..]);
      TakeTurn(entry, turn);
    }

    /** An erasure that waits for the lock is cancelled, and the others keep their order. */
    method GiveUp(entry: Entry, i: nat)
      requires Valid() && entry.id in all && all[entry.id] == entry
      requires i < |entry.waiters| && entry.waiters[i].Erase?
      modifies entry`waiters
      ensures Valid() && View() == Next(old(View()), GivesUp(entry.id, i))
    {
      hide Values, Ids;
      Queue(entry, Without(entry.waiters, i));
    }

    method Settle(entry: Entry, state: Status, ended: set<nat>)
      requires Valid() && entry.id in all && all[entry.id] == entry
      modifies entry`holder, entry`ended, entry`state
      ensures Valid() && entry.holder.None?
      ensures var u := old(entry.View());
              View() == SetUpload(old(View()), entry.id, u.(holder := None, status := state, ended := ended))
    {
      entry.state, entry.ended, entry.holder := state, ended, None;
      assert Values(all) == old(Values(all))[entry.id := entry.View()];
    }

    /** The store answers a write: the state is the writer's to set only while its PUT is the newest. */
    method Answer(entry: Entry, ok: bool)
      requires Valid() && entry.id in all && all[entry.id] == entry && entry.holder.Some?
      modifies entry`holder, entry`ended, entry`state
      ensures Valid() && entry.holder.None?
      ensures View() == SetUpload(old(View()), entry.id, Answered(old(View()), entry.id, ok))
    {
      hide Values, Ids;
      var turn := entry.holder.value.turn;
      var current := IsCurrent(entry, turn.generation);
      var state := entry.state;
      if current {
        state := if !ok then Stale else if turn.Send? then Live else Erased;
      }
      Settle(entry, state, if turn.Send? then entry.ended + {turn.generation} else entry.ended);
    }

    method EndWrite(entry: Entry, ok: bool)
      requires Valid() && entry.id in all && all[entry.id] == entry && entry.holder.Some?
      requires ok ==> entry.holder.value.landed
      modifies this`uploads, entry`holder, entry`ended, entry`state
      ensures Valid() && View() == Next(old(View()), WriteEnds(entry.id, ok))
    {
      hide Values, Ids, Uploads.Forget, Answered;
      var turn := entry.holder.value.turn;
      Answer(entry, ok);
      Forget(entry, turn);
    }

    // ----- What is not the gateway's: the remote store, and time

    /** The store takes the write of the lock's holder, which does not know it yet. */
    method WriteHasLanded(entry: Entry)
      requires Valid() && entry.id in all && all[entry.id] == entry && entry.holder.Some?
      modifies this`store, entry`holder
      ensures Valid() && View() == Next(old(View()), WriteLands(entry.id))
    {
      hide Values, Ids;
      var writer := entry.holder.value;
      store := store[entry.name := entry.View().Writes(writer.turn)];
      Hold(entry, Some(writer.(landed := true)));
    }

    method TimePasses()
      requires Valid()
      modifies this`now
      ensures Valid() && View() == Next(old(View()), Tick)
    {
      hide Values, Ids;
      now := now + 1;
    }

    // ----- PUT

    /** The name for the scope, with its ten minutes begun: none if the name is another scope's, or the cap of live
        uploads is reached. */
    method Claim(name: Name, scope: Scope, cap: nat) returns (entry: Option<Entry>)
      requires Valid() && next !in all
      modifies this, all.Values`expires
      ensures Valid()
      ensures View() == Uploads.Claim(old(View()), name, scope, cap).0
      ensures entry.None? <==> Uploads.Claim(old(View()), name, scope, cap).1.None?
      ensures entry.Some? ==>
                && entry.value.id in all && all[entry.value.id] == entry.value
                && Uploads.Claim(old(View()), name, scope, cap).1 == Some(entry.value.id)
                && (fresh(entry.value) || entry.value in old(all.Values))
    {
      hide Values, Ids, LiveNames, ClaimKept;
      DropExpiredName(name);
      entry := ClaimRest(name, scope, cap);
    }

    method ClaimRest(name: Name, scope: Scope, cap: nat) returns (entry: Option<Entry>)
      requires Valid() && next !in all
      modifies this, all.Values`expires
      ensures Valid()
      ensures View() == ClaimKept(old(View()), name, scope, cap).0
      ensures entry.None? <==> ClaimKept(old(View()), name, scope, cap).1.None?
      ensures entry.Some? ==>
                && entry.value.id in all && all[entry.value.id] == entry.value
                && ClaimKept(old(View()), name, scope, cap).1 == Some(entry.value.id)
                && (fresh(entry.value) || entry.value in old(all.Values))
    {
      hide Values, Ids, LiveNames, NewUpload, SetUpload;
      if name in uploads {
        var known := uploads[name];
        if known.scope != scope {
          return None;
        }
        Renew(known);
        return Some(known);
      }
      var live := CountLive(scope);
      if live >= cap {
        return None;
      }
      var added := AddEntry(name, scope);
      return Some(added);
    }

    /** A name over its ten minutes is free, unless its lock is held. */
    method DropExpiredName(name: Name)
      requires Valid()
      modifies this`uploads
      ensures Valid() && View() == DropExpired(old(View()), name)
    {
      if name in uploads && uploads[name].expires <= now && uploads[name].holder.None? {
        uploads := uploads - {name};
        assert Ids(uploads) == old(Ids(uploads)) - {name};
      }
    }

    method Renew(entry: Entry)
      requires Valid() && entry.id in all && all[entry.id] == entry
      modifies entry`expires
      ensures Valid() && View() == SetUpload(old(View()), entry.id, old(entry.View()).(expires := old(now) + TTL_S))
    {
      entry.expires := now + TTL_S;
      assert Values(all) == old(Values(all))[entry.id := entry.View()];
    }

    method CountLive(scope: Scope) returns (live: nat)
      requires Valid()
      ensures live == |LiveNames(View(), scope)|
    {
      var names := set n | && n in uploads && uploads[n].scope == scope
                           && uploads[n].state != Erased && now < uploads[n].expires;
      assert names == LiveNames(View(), scope);
      live := |names|;
    }

    method AddEntry(name: Name, scope: Scope) returns (entry: Entry)
      requires Valid() && next !in all && name !in uploads
      modifies this`all, this`next, this`uploads
      ensures Valid() && fresh(entry) && entry.id == old(next) && all == old(all)[entry.id := entry]
      ensures View() == NewUpload(old(View()), name, scope)
    {
      hide Values, Ids, Sound, SetUpload;
      entry := new Entry(next, name, scope, now + TTL_S);
      Insert(entry);
    }

    method Insert(entry: Entry)
      requires Valid() && entry.id == next && next !in all && entry.name !in uploads
      modifies this`all, this`next, this`uploads
      ensures Valid() && all == old(all)[entry.id := entry]
      ensures var s := old(View());
              View() == SetUpload(s, s.next, old(entry.View()))
                          .(registry := s.registry[entry.name := s.next], next := s.next + 1)
    {
      hide Values, Ids, Sound;
      ValuesWith(all, next, entry);
      IdsWith(uploads, entry.name, entry);
      StaysSound(uploads, all, entry);
      all, next, uploads := all[entry.id := entry], next + 1, uploads[entry.name := entry];
    }

    lemma StaysSound(uploads: map<Name, Entry>, all: map<Id, Entry>, entry: Entry)
      requires Sound(uploads, all) && entry.id !in all
      ensures Sound(uploads[entry.name := entry], all[entry.id := entry])
    {
    }

    lemma ValuesWith(all: map<Id, Entry>, id: Id, entry: Entry)
      ensures Values(all[id := entry]) == Values(all)[id := entry.View()]
    {
    }

    lemma IdsWith(uploads: map<Name, Entry>, name: Name, entry: Entry)
      ensures Ids(uploads[name := entry]) == Ids(uploads)[name := entry.id]
    {
    }

    /** A PUT that is taken: another generation of its name, whose send is due. */
    method Put(name: Name, scope: Scope, cap: nat, data: Data) returns (entry: Option<Entry>)
      requires Valid() && next !in all
      modifies this, all.Values
      ensures Valid() && View() == Next(old(View()), Event.Put(name, scope, cap, data))
    {
      hide Values, Ids, Uploads.Claim;
      entry := Claim(name, scope, cap);
      if entry.Some? {
        Made(entry.value, data);
      }
    }

    method Made(entry: Entry, data: Data)
      requires Valid() && entry.id in all && all[entry.id] == entry
      modifies entry`puts, entry`state
      ensures Valid()
      ensures var u := old(entry.View());
              View() == SetUpload(old(View()), entry.id, u.(puts := u.puts + [data], status := Sending))
    {
      entry.puts := entry.puts + [data];
      entry.state := Sending;
      assert Values(all) == old(Values(all))[entry.id := entry.View()];
    }
  }
}
