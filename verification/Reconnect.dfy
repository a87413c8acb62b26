/** The reconnect delay: doubling with a cap, plus jitter. Durations are nanoseconds. */
module Reconnect {

  /** One `Next`: the new value of `current`. Factor 2 is the only one used. */
  function Advance(min: int, max: int, current: int): int {
    if current == 0 then min
    else if 2 * current > max then max
    else 2 * current
  }

  function Pow2(k: nat): nat {
    if k == 0 then 1 else 2 * Pow2(k - 1)
  }

  /** `current` after `k` calls since the last reset. */
  function Nth(min: int, max: int, k: nat): int {
    if k == 0 then 0 else Advance(min, max, Nth(min, max, k - 1))
  }

  lemma {:induction false} ClosedForm(min: int, max: int, k: nat)
    requires 2 <= min <= max && k >= 1
    ensures Nth(min, max, k) == if min * Pow2(k - 1) <= max then min * Pow2(k - 1) else max
    ensures min * Pow2(k - 1) >= min
  {
    if k == 1 {
      assert Nth(min, max, 0) == 0;
    } else {
      ClosedForm(min, max, k - 1);
      assert min * Pow2(k - 1) == 2 * (min * Pow2(k - 2));
    }
  }

  /** The least delay never shrinks between resets. */
  lemma {:induction false} NthMonotone(min: int, max: int, j: nat, k: nat)
    requires 2 <= min <= max && j <= k
    ensures Nth(min, max, j) <= Nth(min, max, k)
    decreases k
  {
    if j < k {
      NthMonotone(min, max, j, k - 1);
      if k > 1 {
        ClosedForm(min, max, k - 1);
      }
    }
  }

  class Backoff {
    const min: int
    const max: int
    var current: int
    ghost var calls: nat

    ghost predicate Valid()
      reads this
    {
      2 <= min <= max && current == Nth(min, max, calls)
    }

    constructor (min: int, max: int)
      requires 2 <= min <= max
      ensures Valid() && current == 0 && calls == 0 && this.min == min && this.max == max
    {
      this.min, this.max := min, max;
      current, calls := 0, 0;
    }

    method Reset()
      requires Valid()
      modifies this
      ensures Valid() && current == 0 && calls == 0
    {
      current, calls := 0, 0;
    }

    /** `random` stands for the generator's state; `rand.Int64N` needs a positive bound. */
    method Next(random: nat) returns (delay: int)
      requires Valid()
      modifies this
      ensures Valid() && calls == old(calls) + 1
      ensures current == Advance(min, max, old(current))
      ensures current == if min * Pow2(old(calls)) <= max then min * Pow2(old(calls)) else max
      ensures current / 2 > 0 && delay == current + random % (current / 2)
      ensures current <= delay < current + current / 2
    {
      if current == 0 {
        current := min;
      } else {
        var next := 2 * current;
        if next > max {
          next := max;
        }
        current := next;
      }
      calls := calls + 1;
      ClosedForm(min, max, calls);
      if calls > 1 {
        ClosedForm(min, max, calls - 1);
      }
      var bound := current / 2;
      var jitter := random % bound;
      delay := current + jitter;
    }
  }
}
