/** Links of a prompt's hash chain by their last use, and the least recently used stores that keep a part of them. */
module LastUse {

  /** A link of the chain, taken as collision free: the salt and the text of all the blocks so far. */
  datatype Link = Link(salt: string, text: string)

  // ----- Links by their last use

  ghost predicate NoDuplicates(s: seq<Link>) {
    forall i, j :: 0 <= i < j < |s| ==> s[i] != s[j]
  }

  /** `s` without the link `x`. */
  function Drop(s: seq<Link>, x: Link): seq<Link> {
    if s == [] then []
    else if s[0] == x then s[1..]
    else [s[0]] + Drop(s[1..], x)
  }

  /** The links of `chain`, used one after the other: each moves to the end. */
  function Touch(s: seq<Link>, chain: seq<Link>): seq<Link>
    decreases |chain|
  {
    if chain == [] then s else Touch(Drop(s, chain[0]) + [chain[0]], chain[1..])
  }

  /** Every link ever used, by its last use: what a cache without a bound would hold. */
  function Recency(served: seq<seq<Link>>): seq<Link> {
    if served == [] then [] else Touch(Recency(served[..|served| - 1]), served[|served| - 1])
  }

  /** The `n` newest links of a list. */
  function Newest(s: seq<Link>, n: nat): (r: seq<Link>)
    ensures |r| == if |s| <= n then |s| else n
  {
    if |s| <= n then s else s[|s| - n..]
  }

  /** How many links at the head of the chain are held. */
  function Hits(chain: seq<Link>, held: seq<Link>): (n: nat)
    ensures n <= |chain|
    ensures forall i :: 0 <= i < n ==> chain[i] in held
    ensures n < |chain| ==> chain[n] !in held
  {
    if chain == [] || chain[0] !in held then 0 else 1 + Hits(chain[1..], held)
  }

  /** One LRU cache of `room` links, as an ordinary implementation steps it. */
  function Lru(served: seq<seq<Link>>, room: nat): seq<Link> {
    if served == [] then []
    else Newest(Touch(Lru(served[..|served| - 1], room), served[|served| - 1]), room)
  }

  // ----- Lists

  lemma {:induction false} DropMembers(s: seq<Link>, x: Link)
    requires NoDuplicates(s)
    ensures NoDuplicates(Drop(s, x))
    ensures forall y :: y in Drop(s, x) <==> y in s && y != x
  {
    if s != [] && s[0] != x {
      var rest := Drop(s[1..], x);
      DropMembers(s[1..], x);
      assert s == [s[0]] + s[1..];
      forall j | 0 <= j < |rest|
        ensures rest[j] != s[0]
      {
        assert rest[j] in s[1..];
      }
    } else if s != [] {
      assert s == [x] + s[1..];
    }
  }

  lemma {:induction false} DropAbsent(s: seq<Link>, x: Link)
    requires x !in s
    ensures Drop(s, x) == s
  {
    if s != [] {
      DropAbsent(s[1..], x);
    }
  }

  lemma {:induction false} DropLeft(a: seq<Link>, b: seq<Link>, x: Link)
    requires x in a
    ensures Drop(a + b, x) == Drop(a, x) + b
  {
    assert (a + b)[0] == a[0] && (a + b)[1..] == a[1..] + b;
    if a[0] != x {
      assert a == [a[0]] + a[1..];
      DropLeft(a[1..], b, x);
      assert [a[0]] + (Drop(a[1..], x) + b) == ([a[0]] + Drop(a[1..], x)) + b;
    }
  }

  lemma {:induction false} DropRight(a: seq<Link>, b: seq<Link>, x: Link)
    requires x !in a
    ensures Drop(a + b, x) == a + Drop(b, x)
  {
    if a == [] {
      assert a + b == b;
    } else {
      assert (a + b)[0] == a[0] && (a + b)[1..] == a[1..] + b;
      DropRight(a[1..], b, x);
    }
  }

  lemma MovedNoDuplicates(s: seq<Link>, x: Link)
    requires NoDuplicates(s)
    ensures NoDuplicates(Drop(s, x) + [x])
  {
    DropMembers(s, x);
    forall i | 0 <= i < |Drop(s, x)|
      ensures Drop(s, x)[i] != x
    {
      assert Drop(s, x)[i] in Drop(s, x);
    }
  }

  lemma {:induction false} TouchNoDuplicates(s: seq<Link>, chain: seq<Link>)
    requires NoDuplicates(s)
    ensures NoDuplicates(Touch(s, chain))
    decreases |chain|
  {
    if chain != [] {
      MovedNoDuplicates(s, chain[0]);
      TouchNoDuplicates(Drop(s, chain[0]) + [chain[0]], chain[1..]);
    }
  }

  lemma RecencyGrows(served: seq<seq<Link>>, chain: seq<Link>)
    ensures Recency(served + [chain]) == Touch(Recency(served), chain)
  {
    assert (served + [chain])[..|served|] == served;
  }

  lemma {:induction false} RecencyNoDuplicates(served: seq<seq<Link>>)
    ensures NoDuplicates(Recency(served))
  {
    if served != [] {
      RecencyNoDuplicates(served[..|served| - 1]);
      TouchNoDuplicates(Recency(served[..|served| - 1]), served[|served| - 1]);
    }
  }

  // ----- A store that keeps at least the newest links

  /** `held` is a tail of `all` that is missing nothing of its newest `room` links. */
  ghost predicate Tail(held: seq<Link>, all: seq<Link>, room: nat) {
    && |held| <= |all|
    && all[|all| - |held|..] == held
    && (|held| == |all| || room <= |held|)
  }

  lemma TailSplits(held: seq<Link>, all: seq<Link>, room: nat)
    requires Tail(held, all, room)
    ensures all == all[..|all| - |held|] + held
    ensures Newest(held, room) == Newest(all, room)
  {
  }

  lemma TailTouch(held: seq<Link>, all: seq<Link>, room: nat, x: Link)
    requires Tail(held, all, room) && NoDuplicates(all)
    ensures Tail(Drop(held, x) + [x], Drop(all, x) + [x], room)
  {
    var older := all[..|all| - |held|];
    TailSplits(held, all, room);
    DropBoth(older, held, x);
    DropLength(held, x);
    if x in older {
      NotInBoth(older, held, x);
      DropAbsent(held, x);
    } else {
      DropAbsent(older, x);
    }
    TailAppend(Drop(older, x), Drop(held, x), room, x);
  }

  lemma TailAppend(older: seq<Link>, held: seq<Link>, room: nat, x: Link)
    requires older == [] || room <= |held| + 1
    ensures Tail(held + [x], (older + held) + [x], room)
  {
    assert (older + held) + [x] == older + (held + [x]);
  }

  lemma {:induction false} DropLength(s: seq<Link>, x: Link)
    ensures |Drop(s, x)| <= |s| <= |Drop(s, x)| + 1
  {
    if s != [] {
      DropLength(s[1..], x);
    }
  }

  lemma NotInBoth(a: seq<Link>, b: seq<Link>, x: Link)
    requires NoDuplicates(a + b)
    requires x in a
    ensures x !in b
  {
    var i :| 0 <= i < |a| && a[i] == x;
    forall j | 0 <= j < |b|
      ensures b[j] != x
    {
      assert (a + b)[i] == x && (a + b)[|a| + j] == b[j];
    }
  }

  lemma TailNoDuplicates(held: seq<Link>, all: seq<Link>, room: nat)
    requires Tail(held, all, room) && NoDuplicates(all)
    ensures NoDuplicates(held)
  {
    forall i, j | 0 <= i < j < |held|
      ensures held[i] != held[j]
    {
      assert all[|all| - |held| + i] != all[|all| - |held| + j];
    }
  }

  lemma {:induction false} TailTouchAll(held: seq<Link>, all: seq<Link>, room: nat, chain: seq<Link>)
    requires Tail(held, all, room) && NoDuplicates(all)
    ensures Tail(Touch(held, chain), Touch(all, chain), room)
    decreases |chain|
  {
    if chain != [] {
      TailTouch(held, all, room, chain[0]);
      MovedNoDuplicates(all, chain[0]);
      TailTouchAll(Drop(held, chain[0]) + [chain[0]], Drop(all, chain[0]) + [chain[0]], room, chain[1..]);
    }
  }

  /** One LRU cache of any room holds exactly the newest links by last use. */
  lemma {:induction false} LruHoldsNewest(served: seq<seq<Link>>, room: nat)
    ensures Lru(served, room) == Newest(Recency(served), room)
  {
    if served != [] {
      var before, chain := served[..|served| - 1], served[|served| - 1];
      LruHoldsNewest(before, room);
      RecencyNoDuplicates(before);
      TailTouchAll(Lru(before, room), Recency(before), room, chain);
      TailSplits(Touch(Lru(before, room), chain), Recency(served), room);
    }
  }

  // ----- Two stores, one behind the other

  /** The copy once the blocks past their room have been dropped into it. */
  function Spilled(copy: seq<Link>, blocks: seq<Link>, room: nat, copyRoom: nat): seq<Link> {
    if copyRoom > 0 then copy + blocks[..|blocks| - |Newest(blocks, room)|] else copy
  }

  /** What the blocks drop goes to the copy, and what the copy drops is the oldest of all. */
  lemma SpillKeepsNewest(copy: seq<Link>, blocks: seq<Link>, room: nat, copyRoom: nat)
    requires |copy| <= copyRoom
    ensures Newest(Spilled(copy, blocks, room, copyRoom), copyRoom) + Newest(blocks, room)
         == Newest(copy + blocks, room + copyRoom)
  {
    if copyRoom > 0 {
      var kept := Newest(blocks, room);
      assert Spilled(copy, blocks, room, copyRoom) + kept == copy + blocks;
    }
  }

  /** The two stores take a link as the one list does. */
  lemma TouchBoth(copy: seq<Link>, blocks: seq<Link>, all: seq<Link>, room: nat, copyRoom: nat, x: Link)
    requires NoDuplicates(all)
    requires Tail(blocks, all, room) && Tail(copy + blocks, all, room + copyRoom)
    ensures NoDuplicates(Drop(all, x) + [x]) && |Drop(copy, x)| <= |copy|
    ensures Tail(Drop(blocks, x) + [x], Drop(all, x) + [x], room)
    ensures Tail(Drop(copy, x) + (Drop(blocks, x) + [x]), Drop(all, x) + [x], room + copyRoom)
  {
    MovedNoDuplicates(all, x);
    DropLength(copy, x);
    TailTouch(blocks, all, room, x);
    TailTouch(copy + blocks, all, room + copyRoom, x);
    TailNoDuplicates(copy + blocks, all, room + copyRoom);
    DropBoth(copy, blocks, x);
    assert (Drop(copy, x) + Drop(blocks, x)) + [x] == Drop(copy, x) + (Drop(blocks, x) + [x]);
  }

  lemma DropBoth(a: seq<Link>, b: seq<Link>, x: Link)
    requires NoDuplicates(a + b)
    ensures Drop(a + b, x) == Drop(a, x) + Drop(b, x)
  {
    if x in a {
      NotInBoth(a, b, x);
      DropAbsent(b, x);
      DropLeft(a, b, x);
    } else {
      DropAbsent(a, x);
      DropRight(a, b, x);
    }
  }

  lemma StoresDisjoint(copy: seq<Link>, blocks: seq<Link>, all: seq<Link>, room: nat)
    requires copy + blocks == Newest(all, room) && NoDuplicates(all)
    ensures forall link :: link in copy ==> link !in blocks
  {
    TailNoDuplicates(copy + blocks, all, room);
    forall link | link in copy
      ensures link !in blocks
    {
      NotInBoth(copy, blocks, link);
    }
  }

  // ----- Hits and members

  lemma {:induction false} HitsAre(chain: seq<Link>, held: seq<Link>, n: nat)
    requires n <= |chain|
    requires forall i :: 0 <= i < n ==> chain[i] in held
    requires n < |chain| ==> chain[n] !in held
    ensures Hits(chain, held) == n
  {
    if n > 0 {
      HitsAre(chain[1..], held, n - 1);
    }
  }

  lemma {:induction false} HitsGrow(chain: seq<Link>, small: seq<Link>, large: seq<Link>)
    requires forall link :: link in small ==> link in large
    ensures Hits(chain, small) <= Hits(chain, large)
  {
    if chain != [] && chain[0] in small {
      HitsGrow(chain[1..], small, large);
    }
  }

  lemma {:induction false} TouchAdds(s: seq<Link>, chain: seq<Link>)
    ensures forall link :: link in Touch(s, chain) ==> link in s || link in chain
    decreases |chain|
  {
    if chain != [] {
      DropOnlyRemoves(s, chain[0]);
      TouchAdds(Drop(s, chain[0]) + [chain[0]], chain[1..]);
    }
  }

  lemma {:induction false} DropOnlyRemoves(s: seq<Link>, x: Link)
    ensures forall link :: link in Drop(s, x) ==> link in s
  {
    if s != [] && s[0] != x {
      DropOnlyRemoves(s[1..], x);
    }
  }

  lemma {:induction false} RecencyOnlyServed(served: seq<seq<Link>>)
    ensures forall link :: link in Recency(served) ==> exists i :: 0 <= i < |served| && link in served[i]
  {
    if served != [] {
      var before := served[..|served| - 1];
      RecencyOnlyServed(before);
      TouchAdds(Recency(before), served[|served| - 1]);
      forall link | link in Recency(served)
        ensures exists i :: 0 <= i < |served| && link in served[i]
      {
        if link in Recency(before) {
          var i :| 0 <= i < |before| && link in before[i];
          assert link in served[i];
        } else {
          assert link in served[|served| - 1];
        }
      }
    }
  }
}
