/** The places of counts (contract section 5) on values: one pool for all classes, and a cap for each outside key that
    includes its waiting counts. */
module CountRules {

  import opened Wrappers
  import opened PlaceRules

  /** A new count: refused past its key's cap, running while a place is free, waiting otherwise. */
  function Enter(cfg: Config, p: Places, t: Tag): Option<Places> {
    if t.owner.Some? && OwnerCount(Tickets(p), t.owner.value) >= cfg.countPerOutsideKey then None
    else if |p.active| < cfg.countActive then Some(p.(active := p.active + {t}))
    else Some(p.(line := p.line.Add(t)))
  }

  /** While a place is free, the first in line takes it. */
  function Fill(cfg: Config, p: Places): Places
    decreases |p.line.InOrder()|
  {
    var order := p.line.InOrder();
    if |p.active| < cfg.countActive && order != [] && p.line.Has(order[0]) then Fill(cfg, Grant(p, order[0])) else p
  }

  function Leave(cfg: Config, p: Places, t: Tag): Places {
    if p.line.Has(t) then Fill(cfg, p.(line := p.line.Remove(t)))
    else if t in p.active then Fill(cfg, p.(active := p.active - {t}))
    else p
  }

  ghost predicate KeyCaps(cfg: Config, tickets: set<Tag>) {
    forall k: Key :: OwnerCount(tickets, k) <= cfg.countPerOutsideKey
  }

  /** Within a class counts run in the order of arrival, whoever owns them. */
  ghost predicate InTurn(p: Places) {
    forall early, late :: p.line.Has(early) && late in p.active && late.cls == early.cls ==> late.id < early.id
  }

  ghost predicate Sound(cfg: Config, p: Places, next: nat) {
    WellFormed(p, next) && |p.active| <= cfg.countActive && KeyCaps(cfg, Tickets(p)) && InTurn(p)
  }

  /** Counts wait only while every place is taken. */
  ghost predicate Good(cfg: Config, p: Places, next: nat) {
    Sound(cfg, p, next) && (p.line.InOrder() != [] ==> |p.active| == cfg.countActive)
  }

  lemma HeadIsFirst(p: Places, next: nat)
    requires WellFormed(p, next) && p.line.InOrder() != []
    ensures var t := p.line.InOrder()[0];
            && p.line.Has(t)
            && forall u :: p.line.Has(u) && u != t ==> !Before(u.cls, t.cls) && (u.cls == t.cls ==> t.id < u.id)
  {
    var line, t := p.line, p.line.InOrder()[0];
    var c := if line.reader != [] then Reader else if line.agent != [] then Agent
             else if line.internal != [] then Internal else External;
    assert line.Queue(c) != [] && line.Queue(c)[0] == t;
    assert t in line.Queue(c) && t.cls == c;
    forall u | p.line.Has(u) && u != t
      ensures !Before(u.cls, t.cls) && (u.cls == t.cls ==> t.id < u.id)
    {
      if u.cls == c {
        var i :| 0 <= i < |line.Queue(c)| && line.Queue(c)[i] == u;
      }
    }
  }

  lemma GrantKeeps(cfg: Config, p: Places, next: nat)
    requires Sound(cfg, p, next) && |p.active| < cfg.countActive && p.line.InOrder() != []
    ensures p.line.Has(p.line.InOrder()[0])
    ensures Sound(cfg, Grant(p, p.line.InOrder()[0]), next)
    ensures Tickets(Grant(p, p.line.InOrder()[0])) == Tickets(p)
  {
    HeadIsFirst(p, next);
    GrantWellFormed(p, p.line.InOrder()[0], next);
    RemoveKeeps(p, p.line.InOrder()[0], next);
  }

  lemma {:induction false} FillKeeps(cfg: Config, p: Places, next: nat)
    requires Sound(cfg, p, next)
    ensures Good(cfg, Fill(cfg, p), next)
    ensures Tickets(Fill(cfg, p)) == Tickets(p) && p.active <= Fill(cfg, p).active
    decreases |p.line.InOrder()|
  {
    if |p.active| < cfg.countActive && p.line.InOrder() != [] {
      var t := p.line.InOrder()[0];
      GrantKeeps(cfg, p, next);
      GrantWellFormed(p, t, next);
      FillKeeps(cfg, Grant(p, t), next);
    }
  }

  lemma EnterKeeps(cfg: Config, p: Places, t: Tag)
    requires Good(cfg, p, t.id)
    ensures Enter(cfg, p, t).Some? ==>
              && Good(cfg, Enter(cfg, p, t).value, t.id + 1)
              && Tickets(Enter(cfg, p, t).value) == Tickets(p) + {t}
              && p.active <= Enter(cfg, p, t).value.active
  {
    if Enter(cfg, p, t).Some? {
      OwnersGrow(Tickets(p), t, cfg.countPerOutsideKey);
      if |p.active| < cfg.countActive {
        RunsAtOnce(p, t);
      } else {
        WaitsInLine(p, t);
      }
    }
  }

  /** A new ticket keeps the per-key cap exactly if its key is below it. */
  lemma KeyCapsGrow(cfg: Config, tickets: set<Tag>, t: Tag)
    requires KeyCaps(cfg, tickets) && t !in tickets
    ensures KeyCaps(cfg, tickets + {t}) <==>
              (t.owner.Some? ==> OwnerCount(tickets, t.owner.value) < cfg.countPerOutsideKey)
  {
    Counts(tickets, t);
    if t.owner.Some? {
      assert OwnerCount(tickets + {t}, t.owner.value) == OwnerCount(tickets, t.owner.value) + 1;
    }
  }

  /** Nothing is held back: a count is refused exactly if its key's cap would be passed, and waits exactly if every
      place is taken. */
  lemma EnterHoldsNothingBack(cfg: Config, p: Places, t: Tag)
    requires Good(cfg, p, t.id)
    ensures Enter(cfg, p, t).None? <==> !KeyCaps(cfg, Tickets(p) + {t})
    ensures Enter(cfg, p, t).Some? ==> (t in Enter(cfg, p, t).value.active <==> |p.active| < cfg.countActive)
  {
    hide KeyCaps, InTurn, Tickets;
    NotYet(p, t);
    KeyCapsGrow(cfg, Tickets(p), t);
  }

  lemma NotYet(p: Places, t: Tag)
    requires WellFormed(p, t.id)
    ensures t !in Tickets(p) && t !in p.active
  {
    WaitingIs(p, t.id);
  }

  lemma WaitsInLine(p: Places, t: Tag)
    requires WellFormed(p, t.id) && InTurn(p)
    ensures WellFormed(p.(line := p.line.Add(t)), t.id + 1) && InTurn(p.(line := p.line.Add(t)))
    ensures Tickets(p.(line := p.line.Add(t))) == Tickets(p) + {t}
  {
    AddKeeps(p, t);
  }

  lemma RunsAtOnce(p: Places, t: Tag)
    requires WellFormed(p, t.id) && p.line.InOrder() == []
    ensures WellFormed(p.(active := p.active + {t}), t.id + 1)
    ensures forall u :: !p.line.Has(u)
    ensures t !in p.active && Tickets(p.(active := p.active + {t})) == Tickets(p) + {t}
  {
    WaitingIs(p, t.id);
  }

  /** A departure keeps the rules, and gives away at most the one place it freed. */
  lemma LeaveKeeps(cfg: Config, p: Places, t: Tag, next: nat)
    requires Good(cfg, p, next)
    ensures Good(cfg, Leave(cfg, p, t), next)
    ensures Tickets(Leave(cfg, p, t)) == Tickets(p) - {t}
    ensures p.active - {t} <= Leave(cfg, p, t).active
  {
    if p.line.Has(t) {
      WithdrawSound(cfg, p, t, next);
      FillKeeps(cfg, p.(line := p.line.Remove(t)), next);
    } else if t in p.active {
      FreeSound(cfg, p, t, next);
      FillKeeps(cfg, p.(active := p.active - {t}), next);
    } else {
      WaitingIs(p, next);
    }
  }

  lemma FreeSound(cfg: Config, p: Places, t: Tag, next: nat)
    requires Sound(cfg, p, next) && t in p.active
    ensures Sound(cfg, p.(active := p.active - {t}), next)
    ensures Tickets(p.(active := p.active - {t})) == Tickets(p) - {t}
  {
    OwnersShrink(Tickets(p), t, cfg.countPerOutsideKey);
    FreeTickets(p, t, next);
  }

  lemma GoodLater(cfg: Config, p: Places, next: nat)
    requires Good(cfg, p, next)
    ensures Good(cfg, p, next + 1)
  {
    hide Tickets, KeyCaps, InTurn;
  }

  lemma WithdrawSound(cfg: Config, p: Places, t: Tag, next: nat)
    requires Sound(cfg, p, next) && p.line.Has(t)
    ensures Sound(cfg, p.(line := p.line.Remove(t)), next)
    ensures Tickets(p.(line := p.line.Remove(t))) == Tickets(p) - {t}
  {
    OwnersShrink(Tickets(p), t, cfg.countPerOutsideKey);
    RemoveKeeps(p, t, next);
    WithdrawTickets(p, t, next);
  }

  /** What a departure does exactly: a waiting count only leaves, a running one hands its place to the head of the
      line. */
  lemma LeaveGrantsOne(cfg: Config, p: Places, t: Tag, next: nat)
    requires Good(cfg, p, next)
    ensures p.line.Has(t) ==> Leave(cfg, p, t) == p.(line := p.line.Remove(t))
    ensures t in p.active && !p.line.Has(t) ==>
              var freed := p.(active := p.active - {t});
              Leave(cfg, p, t) == if p.line.InOrder() == [] then freed else Grant(freed, p.line.InOrder()[0])
  {
    if p.line.Has(t) {
      WaitingIs(p, next);
      assert t in p.line.Waiting() && p.line.InOrder() != [];
    } else if t in p.active && p.line.InOrder() != [] {
      var freed, head := p.(active := p.active - {t}), p.line.InOrder()[0];
      HeadIsFirst(p, next);
      assert |freed.active| == cfg.countActive - 1;
      FilledByOne(cfg, freed, head);
    }
  }

  lemma FilledByOne(cfg: Config, p: Places, head: Tag)
    requires |p.active| == cfg.countActive - 1 && head !in p.active
    requires p.line.InOrder() != [] && p.line.InOrder()[0] == head && p.line.Has(head)
    ensures Fill(cfg, p) == Grant(p, head)
  {
    assert |Grant(p, head).active| == cfg.countActive;
  }

  lemma NoCountsAreGood(cfg: Config)
    ensures Good(cfg, NO_PLACES, 0)
  {
    NoPlacesAreGood(cfg);
    NoTagCounts();
  }

  /** The classes' counters add up to the number of running counts. */
  lemma {:induction false} RunningIsSum(s: set<Tag>)
    ensures |s| == ClassCount(s, Reader) + ClassCount(s, Agent) + ClassCount(s, Internal) + ClassCount(s, External)
  {
    NoTagCounts();
    if s != {} {
      var t :| t in s;
      RunningIsSum(s - {t});
      CountsWithout(s, t);
    }
  }
}
