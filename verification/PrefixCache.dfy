/** The prefix cache of the measurement client's stand-in engine: an LRU store of blocks with a second LRU store
    behind it, proved equal to one list of links ordered by their last use. */
module PrefixCaches {

  import opened Wrappers
  import opened LastUse

  const BLOCK_TOKENS: nat := 256
  const BLOCK_CHARS: nat := 1024  // four characters a token

  /** The links of a prompt's whole blocks. */
  function Chain(salt: string, text: string): (chain: seq<Link>)
    ensures |chain| * BLOCK_CHARS <= |text| < (|chain| + 1) * BLOCK_CHARS
    ensures forall i :: 0 <= i < |chain| ==> chain[i].salt == salt && |chain[i].text| == (i + 1) * BLOCK_CHARS
  {
    seq(|text| / BLOCK_CHARS, i requires 0 <= i < |text| / BLOCK_CHARS => Link(salt, text[..(i + 1) * BLOCK_CHARS]))
  }

  /** max(1, ceil(len / 4)), the stand-in's count of a prompt of `chars` characters. */
  function PromptTokens(chars: nat): nat {
    if chars == 0 then 1 else (chars + 3) / 4
  }

  // ----- The cache

  class PrefixCache {
    const room: nat
    const copyRoom: nat
    var blocks: seq<Link>
    var copy: seq<Link>
    var seen: seq<(nat, nat)>
    var local: nat
    var external: nat
    ghost var served: seq<seq<Link>>  // the chains of the generations so far

    /** The two stores are the newest links by last use, cut in two. */
    ghost predicate Valid()
      reads this
    {
      && blocks == Newest(Recency(served), room)
      && copy + blocks == Newest(Recency(served), room + copyRoom)
      && local == LocalTokens(served, room)
      && local + external == LocalTokens(served, room + copyRoom)
    }

    constructor (capacity: nat, copyTokens: nat)
      ensures Valid() && served == [] && seen == []
      ensures room == capacity / BLOCK_TOKENS && copyRoom == copyTokens / BLOCK_TOKENS
    {
      room, copyRoom := capacity / BLOCK_TOKENS, copyTokens / BLOCK_TOKENS;
      blocks, copy, seen, local, external, served := [], [], [], 0, 0, [];
    }

    /** One request of the engine: a generation carries a salt, a count does not and touches nothing. */
    method Call(salt: Option<string>, text: string)
      requires Valid()
      modifies this
      ensures Valid()
      ensures salt.None? ==> served == old(served) && seen == old(seen)
      ensures salt.Some? ==>
                && served == old(served) + [Chain(salt.value, text)]
                && seen == old(seen) + [(PromptTokens(|text|), Cached(old(served), room + copyRoom, salt.value, text))]
    {
      if salt.None? {
        return;
      }
      var chain, hereHits, hits := Look(salt.value, text);
      Use(chain);
      seen := seen + [(PromptTokens(|text|), hits * BLOCK_TOKENS)];
      local, external := local + hereHits * BLOCK_TOKENS, external + (hits - hereHits) * BLOCK_TOKENS;
      LocalTokensGrow(old(served), chain, room);
      LocalTokensGrow(old(served), chain, room + copyRoom);
    }

    /** The chain of a prompt, how much of it the blocks serve and how much both stores serve. */
    method Look(salt: string, text: string) returns (chain: seq<Link>, here: nat, both: nat)
      requires Valid()
      ensures chain == Chain(salt, text)
      ensures here == Hits(chain, blocks) && both == Hits(chain, copy + blocks)
      ensures here <= both
    {
      var local, loaded, missed, start := 0, 0, false, 0;
      chain := [];
      while start + BLOCK_CHARS <= |text|
        invariant start == |chain| * BLOCK_CHARS && |chain| <= |Chain(salt, text)|
        invariant forall i :: 0 <= i < |chain| ==> chain[i] == Chain(salt, text)[i]
        invariant Counted(chain, blocks, copy, local, loaded, missed)
      {
        var link := Link(salt, text[..start + BLOCK_CHARS]);
        CountedStep(chain, link, blocks, copy, local, loaded, missed);
        missed := missed || (link !in blocks && link !in copy);
        if !missed && (loaded > 0 || link !in blocks) {
          loaded := loaded + 1;
        } else if !missed {
          local := local + 1;
        }
        assert link == Chain(salt, text)[|chain|];
        chain := chain + [link];
        start := start + BLOCK_CHARS;
      }
      here, both := local, local + loaded;
      CountedMeans(chain, blocks, copy, local, loaded, missed);
    }

    /** Move the chain to the newest end of the blocks, and let both stores drop what is past their rooms. */
    method Use(chain: seq<Link>)
      requires Valid()
      modifies this`blocks, this`copy, this`served
      ensures served == old(served) + [chain]
      ensures blocks == Newest(Recency(served), room)
      ensures copy + blocks == Newest(Recency(served), room + copyRoom)
    {
      Move(chain);
      TailSplits(blocks, Touch(Recency(served), chain), room);
      TailSplits(copy + blocks, Touch(Recency(served), chain), room + copyRoom);
      Trim();
      RecencyGrows(served, chain);
      served := served + [chain];
    }

    method Move(chain: seq<Link>)
      requires Valid()
      modifies this`blocks, this`copy
      ensures |copy| <= copyRoom
      ensures Tail(blocks, Touch(Recency(served), chain), room)
      ensures Tail(copy + blocks, Touch(Recency(served), chain), room + copyRoom)
    {
      ghost var all := Recency(served);
      RecencyNoDuplicates(served);
      var i := 0;
      while i < |chain|
        invariant 0 <= i <= |chain| && NoDuplicates(all) && |copy| <= copyRoom
        invariant Touch(all, chain[i..]) == Touch(Recency(served), chain)
        invariant Tail(blocks, all, room) && Tail(copy + blocks, all, room + copyRoom)
      {
        var link := chain[i];
        TouchBoth(copy, blocks, all, room, copyRoom, link);
        copy := Drop(copy, link);
        blocks := Drop(blocks, link) + [link];
        all := Drop(all, link) + [link];
        assert chain[i..][1..] == chain[i + 1..];
        i := i + 1;
      }
    }

    method Trim()
      requires |copy| <= copyRoom
      modifies this`blocks, this`copy
      ensures blocks == Newest(old(blocks), room)
      ensures copy + blocks == Newest(old(copy) + old(blocks), room + copyRoom)
    {
      SpillBlocks();
      TrimCopy();
      SpillKeepsNewest(old(copy), old(blocks), room, copyRoom);
    }

    method SpillBlocks()
      modifies this`blocks, this`copy
      ensures blocks == Newest(old(blocks), room)
      ensures copy == Spilled(old(copy), old(blocks), room, copyRoom)
    {
      ghost var n := 0;
      while |blocks| > room
        invariant 0 <= n <= |old(blocks)| && blocks == old(blocks)[n..]
        invariant n > 0 ==> |blocks| >= room
        invariant copyRoom > 0 ==> copy == old(copy) + old(blocks)[..n]
        invariant copyRoom == 0 ==> copy == old(copy)
      {
        var dropped := blocks[0];
        assert old(blocks)[..n + 1] == old(blocks)[..n] + [dropped];
        if copyRoom > 0 {
          copy := copy + [dropped];
        }
        blocks := blocks[1..];
        n := n + 1;
      }
    }

    method TrimCopy()
      modifies this`copy
      ensures copy == Newest(old(copy), copyRoom)
    {
      ghost var n := 0;
      while |copy| > copyRoom
        invariant 0 <= n <= |old(copy)| && copy == old(copy)[n..]
        invariant n > 0 ==> |copy| >= copyRoom
      {
        copy := copy[1..];
        n := n + 1;
      }
    }
  }

  /** Where the walk along a chain stands: `local` links served by the blocks, then `loaded` by the copy. */
  ghost predicate Counted(chain: seq<Link>, blocks: seq<Link>, copy: seq<Link>, local: nat, loaded: nat, missed: bool)
  {
    && local + loaded <= |chain|
    && (missed <==> local + loaded < |chain|)
    && (forall i :: 0 <= i < local ==> chain[i] in blocks)
    && (forall i :: 0 <= i < local + loaded ==> chain[i] in blocks || chain[i] in copy)
    && (missed ==> chain[local + loaded] !in blocks && chain[local + loaded] !in copy)
    && (loaded > 0 ==> chain[local] !in blocks)
  }

  lemma CountedStep(
    chain: seq<Link>, link: Link, blocks: seq<Link>, copy: seq<Link>, local: nat, loaded: nat, missed: bool)
    requires Counted(chain, blocks, copy, local, loaded, missed)
    ensures var missed' := missed || (link !in blocks && link !in copy);
            var load := !missed' && (loaded > 0 || link !in blocks);
            Counted(chain + [link], blocks, copy, if !missed' && !load then local + 1 else local,
                    if load then loaded + 1 else loaded, missed')
  {
  }

  lemma CountedMeans(chain: seq<Link>, blocks: seq<Link>, copy: seq<Link>, local: nat, loaded: nat, missed: bool)
    requires Counted(chain, blocks, copy, local, loaded, missed)
    ensures local == Hits(chain, blocks) && local + loaded == Hits(chain, copy + blocks)
  {
    HitsAre(chain, blocks, local);
    HitsAre(chain, copy + blocks, local + loaded);
  }

  // ----- What the cache tells its requests

  /** The tokens a request finds in a cache of `room` links after the requests before it. */
  function Cached(served: seq<seq<Link>>, room: nat, salt: string, text: string): nat {
    Hits(Chain(salt, text), Newest(Recency(served), room)) * BLOCK_TOKENS
  }

  /** All the tokens that one cache of `room` links has served. */
  function LocalTokens(served: seq<seq<Link>>, room: nat): nat {
    if served == [] then 0
    else
      var before := served[..|served| - 1];
      LocalTokens(before, room) + Hits(served[|served| - 1], Newest(Recency(before), room)) * BLOCK_TOKENS
  }

  lemma LocalTokensGrow(served: seq<seq<Link>>, chain: seq<Link>, room: nat)
    ensures LocalTokens(served + [chain], room)
         == LocalTokens(served, room) + Hits(chain, Newest(Recency(served), room)) * BLOCK_TOKENS
  {
    assert (served + [chain])[..|served|] == served;
  }

  /** The two stores together are one LRU cache of both rooms, and the blocks alone are one of their own room. */
  lemma TwoTiersAreOne(cache: PrefixCache)
    requires cache.Valid()
    ensures cache.copy + cache.blocks == Lru(cache.served, cache.room + cache.copyRoom)
    ensures cache.blocks == Lru(cache.served, cache.room)
    ensures |cache.blocks| <= cache.room && |cache.copy| <= cache.copyRoom
    ensures forall link :: link in cache.copy ==> link !in cache.blocks
  {
    LruHoldsNewest(cache.served, cache.room + cache.copyRoom);
    LruHoldsNewest(cache.served, cache.room);
    RecencyNoDuplicates(cache.served);
    StoresDisjoint(cache.copy, cache.blocks, Recency(cache.served), cache.room + cache.copyRoom);
  }

  /** A larger cache holds the smaller one's list as its newest part, so no request loses a hit. */
  lemma LargerNeverLoses(served: seq<seq<Link>>, small: nat, large: nat, salt: string, text: string)
    requires small <= large
    ensures |Lru(served, small)| <= |Lru(served, large)|
    ensures Lru(served, small) == Lru(served, large)[|Lru(served, large)| - |Lru(served, small)|..]
    ensures Cached(served, small, salt, text) <= Cached(served, large, salt, text) <= PromptTokens(|text|)
  {
    LruHoldsNewest(served, small);
    LruHoldsNewest(served, large);
    HitsGrow(Chain(salt, text), Newest(Recency(served), small), Newest(Recency(served), large));
    var n := Hits(Chain(salt, text), Newest(Recency(served), large));
    assert n * BLOCK_CHARS <= |text|;
  }

  /** A request finds nothing that only other salts have put there. */
  lemma SaltsShareNothing(served: seq<seq<Link>>, room: nat, salt: string, text: string)
    requires forall i :: 0 <= i < |served| ==> !OfSaltSome(served[i], salt)
    ensures Cached(served, room, salt, text) == 0
  {
    RecencyOnlyServed(served);
    forall link | link in Newest(Recency(served), room)
      ensures link.salt != salt
    {
      assert link in Recency(served);
      var i :| 0 <= i < |served| && link in served[i];
      assert !OfSaltSome(served[i], salt);
    }
  }

  ghost predicate OfSaltSome(chain: seq<Link>, salt: string) {
    exists link :: link in chain && link.salt == salt
  }
}
