/** The measurement client's search for the largest prompt within a token target (interference/runner.py, `_size`):
    doubling until the target is met, then halving the gap. */
module PromptSize {

  import opened Wrappers

  const MAX_UNITS: nat := 32768

  datatype SizeError = TargetTooSmall | TargetUnreachable | CountNonmonotonic

  datatype Size = Size(units: int, promptTokens: nat, countRequests: nat)

  /** More units never count fewer tokens. */
  ghost predicate Nondecreasing(count: int -> nat) {
    forall u, v :: 1 <= u <= v <= MAX_UNITS ==> count(u) <= count(v)
  }

  function Pow2(n: nat): (p: nat)
    ensures p >= 1
  {
    if n == 0 then 1 else 2 * Pow2(n - 1)
  }

  /** A count that agrees with every earlier one: not below that of fewer units, not above that of more. */
  predicate Agrees(seen: map<int, nat>, units: int, tokens: nat) {
    forall u :: u in seen ==> (u < units ==> seen[u] <= tokens) && (u > units ==> tokens <= seen[u])
  }

  /** Every count that was kept is the count of its units. */
  ghost predicate Counted(count: int -> nat, seen: map<int, nat>) {
    forall u :: u in seen ==> 1 <= u <= MAX_UNITS && seen[u] == count(u)
  }

  lemma AgreesOnItsOwn(count: int -> nat, seen: map<int, nat>, units: int)
    requires Nondecreasing(count) && 1 <= units <= MAX_UNITS && Counted(count, seen)
    ensures Agrees(seen, units, count(units))
  {
  }

  /** The count of a candidate, kept with those before it. */
  method Measure(count: int -> nat, seen: map<int, nat>, units: int) returns (r: Result<map<int, nat>, SizeError>)
    requires 1 <= units <= MAX_UNITS && Counted(count, seen)
    ensures r.Err? ==> r.error.CountNonmonotonic? && !Nondecreasing(count)
    ensures r.Ok? ==> Counted(count, r.value) && r.value == seen[units := count(units)]
  {
    var tokens := count(units);
    if !Agrees(seen, units, tokens) {
      if Nondecreasing(count) {
        AgreesOnItsOwn(count, seen, units);
      }
      return Err(CountNonmonotonic);
    }
    return Ok(seen[units := tokens]);
  }

  /** What a search over nondecreasing counts must answer: a refusal exactly when one unit is past the target or the
      most units fall short of it, and else the greatest count that is not above the target. */
  ghost predicate Correct(count: int -> nat, target: nat, r: Result<Size, SizeError>) {
    match r
    case Err(TargetTooSmall) => count(1) > target
    case Err(TargetUnreachable) => count(1) <= target && count(MAX_UNITS) < target
    case Err(CountNonmonotonic) => !Nondecreasing(count)
    case Ok(size) =>
      && 1 <= size.units <= MAX_UNITS && count(1) <= target
      && size.promptTokens == count(size.units) <= target
      && size.countRequests <= 30
      && (Nondecreasing(count) ==>
            && count(MAX_UNITS) >= target
            && forall u :: 1 <= u <= MAX_UNITS && count(u) <= target ==> count(u) <= size.promptTokens)
  }

  /** The doublings: up to the first candidate that meets the target, or to the most units. */
  method Double(count: int -> nat, target: nat, start: map<int, nat>)
    returns (r: Result<map<int, nat>, SizeError>, low: int, high: int)
    requires Counted(count, start) && start.Keys == {1} && count(1) <= target
    ensures r.Err? ==> r.error.CountNonmonotonic? && !Nondecreasing(count)
    ensures r.Ok? ==>
              && Counted(count, r.value) && |r.value| <= 16
              && 1 <= low <= high <= MAX_UNITS && high - low <= 16384
              && low in r.value && high in r.value && count(low) <= target
              && (count(high) < target ==> high == MAX_UNITS)
  {
    hide Nondecreasing, Agrees, Pow2;
    var seen := start;
    low, high := 1, 1;
    One();
    ghost var k := 0;
    assert |seen| == |seen.Keys|;
    while seen[high] < target && high < MAX_UNITS
      invariant 0 <= k <= 15 && high == Pow2(k) <= MAX_UNITS
      invariant if k == 0 then low == high == 1 else high == low * 2
      invariant low in seen && high in seen && Counted(count, seen)
      invariant count(low) <= target && |seen| <= 1 + k
      decreases MAX_UNITS - high
    {
      PowersToMax(k);
      low, high := high, if high * 2 <= MAX_UNITS then high * 2 else MAX_UNITS;
      k := k + 1;
      var next := Measure(count, seen, high);
      if next.Err? {
        return Err(next.error), low, high;
      }
      seen := next.value;
    }
    r := Ok(seen);
  }

  /** The halvings: sixteen rounds are always enough, and fourteen are. */
  method Halve(count: int -> nat, target: nat, start: map<int, nat>, least: int, most: int)
    returns (r: Result<map<int, nat>, SizeError>, low: int, high: int)
    requires Counted(count, start) && least in start && most in start && |start| <= 16
    requires 1 <= least <= most <= MAX_UNITS && most - least <= 16384
    requires count(least) <= target <= count(most)
    ensures r.Err? ==> r.error.CountNonmonotonic? && !Nondecreasing(count)
    ensures r.Ok? ==>
              && Counted(count, r.value) && |r.value| <= 30
              && 1 <= low <= high <= MAX_UNITS && high - low <= 1
              && low in r.value && high in r.value && count(low) <= target <= count(high)
  {
    hide Nondecreasing, Agrees, Pow2;
    var seen := start;
    low, high := least, most;
    AtMax();
    var round := 0;
    while round < 16
      invariant 0 <= round <= 14
      invariant 1 <= low <= high <= MAX_UNITS && low in seen && high in seen
      invariant Counted(count, seen) && count(low) <= target <= count(high)
      invariant high - low <= Pow2(14 - round) && |seen| <= 16 + round
    {
      HalfGap(14 - round);
      if high - low <= 1 {
        break;
      }
      var middle := (low + high) / 2;
      var next := Measure(count, seen, middle);
      if next.Err? {
        return Err(next.error), low, high;
      }
      seen := next.value;
      if seen[middle] <= target {
        low := middle;
      } else {
        high := middle;
      }
      round := round + 1;
    }
    r := Ok(seen);
  }

  method FindSize(count: int -> nat, target: nat) returns (r: Result<Size, SizeError>)
    ensures Correct(count, target, r)
  {
    hide Nondecreasing, Agrees, Pow2, Correct;
    Refusals(count, target);
    var first := Measure(count, map[], 1);
    if first.Err? {
      return Err(first.error);
    }
    if first.value[1] > target {
      return Err(TargetTooSmall);
    }
    var doubled, least, most := Double(count, target, first.value);
    if doubled.Err? {
      return Err(doubled.error);
    }
    if doubled.value[most] < target {
      return Err(TargetUnreachable);
    }
    var halved, low, high := Halve(count, target, doubled.value, least, most);
    if halved.Err? {
      return Err(halved.error);
    }
    var seen := halved.value;
    var units := if seen[high] <= target then high else low;
    Found(count, target, low, high, |seen|);
    return Ok(Size(units, seen[units], |seen|));
  }

  lemma Refusals(count: int -> nat, target: nat)
    ensures count(1) > target ==> Correct(count, target, Err(TargetTooSmall))
    ensures count(1) <= target && count(MAX_UNITS) < target ==> Correct(count, target, Err(TargetUnreachable))
    ensures !Nondecreasing(count) ==> Correct(count, target, Err(CountNonmonotonic))
  {
  }

  /** Neighbours around the target, or one that meets it, settle the search. */
  lemma Found(count: int -> nat, target: nat, low: int, high: int, requests: nat)
    requires 1 <= low <= high <= MAX_UNITS && high - low <= 1 && requests <= 30
    requires count(1) <= target && count(low) <= target <= count(high)
    ensures var units := if count(high) <= target then high else low;
            Correct(count, target, Ok(Size(units, count(units), requests)))
  {
    var units := if count(high) <= target then high else low;
    if Nondecreasing(count) {
      forall u | 1 <= u <= MAX_UNITS && count(u) <= target
        ensures count(u) <= count(units)
      {
        if u <= low {
          assert count(u) <= count(low);
        } else {
          assert count(high) <= count(u);
        }
      }
    }
  }

  lemma One()
    ensures Pow2(0) == 1
  {
  }

  /** Doubling from one reaches the most units exactly. */
  lemma PowersToMax(k: nat)
    ensures k <= 14 ==> Pow2(k + 1) == Pow2(k) * 2 <= MAX_UNITS
    ensures k == 15 ==> Pow2(k) == MAX_UNITS
  {
    assert Pow2(0) == 1 && Pow2(1) == 2 && Pow2(2) == 4 && Pow2(3) == 8 && Pow2(4) == 16 && Pow2(5) == 32;
    assert Pow2(6) == 64 && Pow2(7) == 128 && Pow2(8) == 256 && Pow2(9) == 512 && Pow2(10) == 1024;
    assert Pow2(11) == 2048 && Pow2(12) == 4096 && Pow2(13) == 8192 && Pow2(14) == 16384 && Pow2(15) == 32768;
    if k <= 14 {
      Powers(k, 15);
    }
  }

  lemma {:induction false} Powers(a: nat, b: nat)
    requires a <= b
    ensures Pow2(a) <= Pow2(b)
    ensures a < b ==> 2 * Pow2(a) <= Pow2(b)
  {
    if a < b {
      Powers(a, b - 1);
    }
  }

  /** The widest gap after the doublings, which fourteen halvings close. */
  lemma AtMax()
    ensures Pow2(14) == 16384
  {
    assert Pow2(7) == 128 && Pow2(10) == 1024;
  }

  lemma HalfGap(n: int)
    ensures n > 0 ==> Pow2(n) == 2 * Pow2(n - 1)
    ensures n == 0 ==> Pow2(n) == 1
  {
  }
}
