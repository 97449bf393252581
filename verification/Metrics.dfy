/** Process counters, and how far the integer cost counter drifts from the true total. */
module Metrics {
  import opened Sequences

  const INT64_SPAN: int := 0x1_0000_0000_0000_0000
  const INT64_MAX: int := 0x7FFF_FFFF_FFFF_FFFF

  /** Two's complement wrap-around of a 64-bit signed counter. */
  function Wrap64(x: int): (r: int)
    ensures -INT64_MAX - 1 <= r <= INT64_MAX
    ensures -INT64_MAX - 1 <= x <= INT64_MAX ==> r == x
  {
    (x + INT64_MAX + 1) % INT64_SPAN - INT64_MAX - 1
  }

  /** A counter's value. */
  type Int64 = x: int | -INT64_MAX - 1 <= x <= INT64_MAX

  /** Wrapping may be put off to the end of a series of additions. */
  lemma WrapAdds(x: int, y: int)
    ensures Wrap64(Wrap64(x) + y) == Wrap64(x + y)
  {
    var z := x + INT64_MAX + 1;
    assert z == z / INT64_SPAN * INT64_SPAN + z % INT64_SPAN;
    SameRemainder(z % INT64_SPAN + y, z / INT64_SPAN);
  }

  lemma SameRemainder(x: int, turns: int)
    ensures (x + turns * INT64_SPAN) % INT64_SPAN == x % INT64_SPAN
  {
  }

  /** A counter after `n` increments. */
  function Ticked(counter: Int64, n: nat): Int64 {
    if n == 0 then counter else Wrap64(Ticked(counter, n - 1) + 1)
  }

  lemma {:induction false} TickedWraps(counter: Int64, n: nat)
    ensures Ticked(counter, n) == Wrap64(counter + n)
  {
    if n > 0 {
      TickedWraps(counter, n - 1);
      WrapAdds(counter + n - 1, 1);
    }
  }

  /** A cost in whole micro-dollars, truncated toward zero. */
  function Micros(costUsd: real): int {
    var micros := costUsd * 1_000_000.0;
    if micros >= 0.0 then micros.Floor else -(-micros).Floor
  }

  /** Truncation toward zero: less than one micro-dollar is lost, and never more than there is. */
  lemma MicrosTruncate(costUsd: real)
    ensures costUsd >= 0.0 ==> Micros(costUsd) as real <= costUsd * 1_000_000.0 < (Micros(costUsd) + 1) as real
    ensures costUsd < 0.0 ==> (Micros(costUsd) - 1) as real < costUsd * 1_000_000.0 <= Micros(costUsd) as real
  {
  }

  /** The counter after a series of costs, wrapping as the machine does. */
  function CounterAfter(costs: seq<real>): int {
    if costs == [] then 0 else Wrap64(CounterAfter(costs[..|costs| - 1]) + Micros(costs[|costs| - 1]))
  }

  function TrueTotal(costs: seq<real>): real {
    Sum(costs, (cost: real) => cost)
  }

  /**
   Over non-negative costs that fit, the counter never exceeds the true total and, from the first
   recorded cost on, falls short of it by less than one micro-dollar per cost.
   */
  lemma {:induction false} CounterDrift(costs: seq<real>)
    requires forall i :: 0 <= i < |costs| ==> costs[i] >= 0.0
    requires Total(costs, Micros) <= INT64_MAX
    ensures CounterAfter(costs) == Total(costs, Micros) >= 0
    ensures CounterAfter(costs) as real <= TrueTotal(costs) * 1_000_000.0
    ensures costs != [] ==> TrueTotal(costs) * 1_000_000.0 < (CounterAfter(costs) + |costs|) as real
  {
    if costs != [] {
      var n := |costs| - 1;
      assert Micros(costs[n]) >= 0;
      CounterDrift(costs[..n]);
    }
  }

  class Registry {
    var requests: Int64
    var blocked: Int64
    var failovers: Int64
    var costMicro: Int64

    constructor ()
      ensures requests == blocked == failovers == costMicro == 0
    {
      requests, blocked, failovers, costMicro := 0, 0, 0, 0;
    }

    method RecordRequest()
      modifies this`requests
      ensures requests == Wrap64(old(requests) + 1)
    {
      requests := Wrap64(requests + 1);
    }

    method RecordBlocked()
      modifies this`blocked
      ensures blocked == Wrap64(old(blocked) + 1)
    {
      blocked := Wrap64(blocked + 1);
    }

    method RecordFailover()
      modifies this`failovers
      ensures failovers == Wrap64(old(failovers) + 1)
    {
      failovers := Wrap64(failovers + 1);
    }

    /** Keeps the counter equal to the history's counter. */
    method RecordCost(costUsd: real, ghost costs: seq<real>)
      requires costMicro == CounterAfter(costs)
      modifies this`costMicro
      ensures costMicro == CounterAfter(costs + [costUsd])
    {
      costMicro := Wrap64(costMicro + Micros(costUsd));
      assert (costs + [costUsd])[..|costs|] == costs;
    }
  }
}
