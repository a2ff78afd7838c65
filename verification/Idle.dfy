/** When the service falls asleep by itself (service.py): one timer, set again each time it comes due too early. Timers
    come due exactly at their time, so time never passes an armed one. */
module Idle {

  import opened Wrappers

  datatype Clock = Clock(
    now: nat, oursInflight: nat, idleSince: nat, timer: Option<nat>, verified: bool, asleep: bool)

  const BOOT := Clock(0, 0, 0, None, false, false)

  datatype Event =
    | Passes(seconds: nat)
    | Begins                // a request of ours, from its authorization
    | Ends
    | FirstVerified
    | TimerDue
    | SleepAsked            // by the control route

  /** What a due timer does: it sleeps if the timeout has passed with none of our requests, and else is armed again. */
  function Checked(timeout: nat, c: Clock): Clock {
    if c.oursInflight > 0 then c.(timer := Some(c.now + timeout))
    else if c.now < c.idleSince + timeout then c.(timer := Some(c.idleSince + timeout))
    else FallenAsleep(c.(timer := None))
  }

  /** A repeated sleep changes nothing. */
  function FallenAsleep(c: Clock): Clock {
    if c.asleep then c else c.(timer := None, asleep := true)
  }

  function Next(timeout: nat, c: Clock, e: Event): Clock {
    match e
    case Passes(seconds) =>
      if c.timer.Some? && c.now + seconds > c.timer.value then c else c.(now := c.now + seconds)
    case Begins => c.(oursInflight := c.oursInflight + 1)
    case Ends => if c.oursInflight == 0 then c else c.(oursInflight := c.oursInflight - 1, idleSince := c.now)
    case FirstVerified =>
      if c.verified then c else Checked(timeout, c.(verified := true, idleSince := c.now))
    case TimerDue => if c.timer == Some(c.now) then Checked(timeout, c) else c
    case SleepAsked => FallenAsleep(c)
  }

  function Run(timeout: nat, events: seq<Event>): Clock {
    if events == [] then BOOT else Next(timeout, Run(timeout, events[..|events| - 1]), events[|events| - 1])
  }

  /** An armed timer is never past due, and never further ahead than the timeout: of now while one of our own requests
      is in flight, and else of the end of the last one. */
  ghost predicate Inv(timeout: nat, c: Clock) {
    && c.idleSince <= c.now
    && (c.verified && !c.asleep ==> c.timer.Some?) && (c.timer.Some? ==> c.verified)
    && (c.timer.Some? ==>
          c.now <= c.timer.value <= (if c.oursInflight > 0 then c.now else c.idleSince) + timeout)
  }

  lemma NextKeeps(timeout: nat, c: Clock, e: Event)
    requires Inv(timeout, c)
    ensures Inv(timeout, Next(timeout, c, e))
  {
  }

  lemma {:induction false} RunKeeps(timeout: nat, events: seq<Event>)
    ensures Inv(timeout, Run(timeout, events))
  {
    if events != [] {
      RunKeeps(timeout, events[..|events| - 1]);
      NextKeeps(timeout, Run(timeout, events[..|events| - 1]), events[|events| - 1]);
    }
  }

  /** Never earlier and never later: the step in which the service falls asleep by itself comes exactly the timeout
      after its last request ended, with none in flight. */
  lemma SleepsOnTime(timeout: nat, events: seq<Event>, e: Event)
    requires !Run(timeout, events).asleep && Next(timeout, Run(timeout, events), e).asleep && !e.SleepAsked?
    ensures var r := Next(timeout, Run(timeout, events), e);
            r.oursInflight == 0 && r.now == r.idleSince + timeout
  {
    RunKeeps(timeout, events);
  }

  /** A verified service that is awake with nothing of ours in flight is not past its timeout. */
  lemma NeverLate(timeout: nat, events: seq<Event>)
    ensures var c := Run(timeout, events);
            c.verified && !c.asleep && c.oursInflight == 0 ==> c.now <= c.idleSince + timeout
  {
    RunKeeps(timeout, events);
  }

  /** The timer is what forces it: at its time the check must run before time can go on. */
  lemma TimeWaits(timeout: nat, events: seq<Event>, seconds: nat)
    requires Run(timeout, events).verified && !Run(timeout, events).asleep && Run(timeout, events).oursInflight == 0
    requires Run(timeout, events).now == Run(timeout, events).idleSince + timeout && seconds > 0
    ensures Next(timeout, Run(timeout, events), Passes(seconds)) == Run(timeout, events)
    ensures Next(timeout, Run(timeout, events), TimerDue).asleep
  {
    RunKeeps(timeout, events);
  }

  /** The service's own fields and methods for it, on a clock that asyncio moves. */
  class IdleTimer {
    const timeout: nat
    var now: nat
    var oursInflight: nat
    var idleSince: nat
    var timer: Option<nat>
    var verified: bool
    var sleepRequested: bool

    ghost function View(): Clock
      reads this
    {
      Clock(now, oursInflight, idleSince, timer, verified, sleepRequested)
    }

    constructor (timeout: nat)
      ensures this.timeout == timeout && View() == BOOT
    {
      this.timeout := timeout;
      now, oursInflight, idleSince, timer, verified, sleepRequested := 0, 0, 0, None, false, false;
    }

    method IdleCheck()
      modifies this
      ensures View() == Checked(timeout, old(View()))
    {
      var deadline := idleSince + timeout;
      if oursInflight > 0 || now < deadline {
        var later := if oursInflight > 0 then now + timeout else deadline;
        timer := Some(later);
      } else {
        timer := None;  // it has come due
        FallAsleep();
      }
    }

    method FallAsleep()
      modifies this
      ensures View() == Next(timeout, old(View()), SleepAsked)
    {
      if sleepRequested {
        return;
      }
      sleepRequested := true;
      timer := None;
    }

    method FirstVerification()
      requires !verified
      modifies this
      ensures View() == Next(timeout, old(View()), FirstVerified)
    {
      verified, idleSince := true, now;
      IdleCheck();
    }

    method OursBegins()
      modifies this
      ensures View() == Next(timeout, old(View()), Begins)
    {
      oursInflight := oursInflight + 1;
    }

    method OursEnds()
      requires oursInflight > 0
      modifies this
      ensures View() == Next(timeout, old(View()), Ends)
    {
      oursInflight := oursInflight - 1;
      idleSince := now;
    }

    method ComesDue()
      requires timer == Some(now)
      modifies this
      ensures View() == Next(timeout, old(View()), TimerDue)
    {
      IdleCheck();
    }
  }
}
