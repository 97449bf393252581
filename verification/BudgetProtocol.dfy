/**
 The budget circuit breaker as a concurrent protocol.

 The check reserves nothing and the charge comes after the provider has answered, so between the
 two a request is merely in flight. Requests of any tenants interleave step by step.
 */
module BudgetProtocol {
  import opened Sequences
  import opened Reals
  import opened Tenancy
  import opened Ledger
  import opened CostTracker

  /** A request before its budget check, between check and charge, and after. */
  datatype Slot = Idle(tenant: string) | Open(tenant: string, estimate: real) | Closed(tenant: string)

  /**
   `days` lists the days the clock has shown, today last. `overrun` records, per tenant and day,
   how far actual costs exceeded their estimates.
   */
  datatype State = State(days: seq<string>, rows: Rows, overrun: Rows, slots: seq<Slot>)

  datatype Event =
    | Arrive(tenantId: string)
    | Admit(i: nat, estimate: real)
    | Settle(i: nat, actual: real)
    | Drop(i: nat)
    | NewDay(day: string)

  function Init(day: string): State {
    State([day], map[], map[], [])
  }

  /** The event concerns a request in the right phase. */
  ghost predicate Fits(s: State, e: Event) {
    && s.days != []
    && match e
       case Arrive(_) => true
       case Admit(i, _) => i < |s.slots| && s.slots[i].Idle?
       case Settle(i, _) => i < |s.slots| && s.slots[i].Open?
       case Drop(i) => i < |s.slots| && s.slots[i].Open?
       case NewDay(day) => day !in s.days
  }

  /** Admission also needs the budget check to pass on the spend recorded so far. */
  ghost predicate Enabled(budgets: Budgets, s: State, e: Event) {
    && Fits(s, e)
    && match e
       case Admit(i, estimate) =>
         var tenant := s.slots[i].tenant;
         estimate >= 0.0 && Decide(budgets.For(tenant), tenant, Spend(s.rows, tenant, Today(s)), estimate).allowed
       case Settle(_, actual) => actual >= 0.0
       case _ => true
  }

  function Today(s: State): string
    requires s.days != []
  {
    s.days[|s.days| - 1]
  }

  function Excess(actual: real, estimate: real): real {
    if actual > estimate then actual - estimate else 0.0
  }

  ghost function Next(s: State, e: Event): (s': State)
    requires Fits(s, e)
  {
    match e
    case Arrive(tenantId) => s.(slots := s.slots + [Idle(TenantOf(tenantId))])
    case Admit(i, estimate) => s.(slots := s.slots[i := Open(s.slots[i].tenant, estimate)])
    case Settle(i, actual) =>
      var tenant := s.slots[i].tenant;
      s.(rows := Upsert(s.rows, tenant, Today(s), actual),
         overrun := Upsert(s.overrun, tenant, Today(s), Excess(actual, s.slots[i].estimate)),
         slots := s.slots[i := Closed(tenant)])
    case Drop(i) => s.(slots := s.slots[i := Closed(s.slots[i].tenant)])
    case NewDay(day) => s.(days := s.days + [day])
  }

  /**
   A settlement adds the actual cost to its tenant's row for the last day shown, and what exceeds the
   estimate to the overruns; nothing else changes either.
   */
  lemma SettlementIsExact(s: State, i: nat, actual: real, t: string, d: string)
    requires Fits(s, Settle(i, actual))
    ensures var s' := Next(s, Settle(i, actual));
            var mine := TenantOf(t) == TenantOf(s.slots[i].tenant) && d == s.days[|s.days| - 1];
            && Spend(s'.rows, t, d) == Spend(s.rows, t, d) + (if mine then actual else 0.0)
            && Spend(s'.overrun, t, d) == Spend(s.overrun, t, d)
                 + (if mine && actual > s.slots[i].estimate then actual - s.slots[i].estimate else 0.0)
  {
  }

  // ---------------------------------------------------------------------------------------------
  // What is in flight
  // ---------------------------------------------------------------------------------------------

  function EstimateFor(tenant: string): Slot -> real {
    (slot: Slot) => if slot.Open? && TenantOf(slot.tenant) == TenantOf(tenant) then slot.estimate else 0.0
  }

  function OpenFor(tenant: string): Slot -> int {
    (slot: Slot) => if slot.Open? && TenantOf(slot.tenant) == TenantOf(tenant) then 1 else 0
  }

  /** The estimates of a tenant's requests in flight. */
  function Pending(slots: seq<Slot>, tenant: string): real {
    Sum(slots, EstimateFor(tenant))
  }

  function InFlight(slots: seq<Slot>, tenant: string): int {
    Total(slots, OpenFor(tenant))
  }

  /** The most one admitted request can be estimated at. */
  function LargestEstimate(budget: Budget): real {
    if budget.perReq > 0.0 && budget.perReq < budget.daily then budget.perReq else budget.daily
  }

  /** The bound on a day's spend, overruns aside, with at most `k` requests in flight. */
  function Ceiling(budget: Budget, k: int): real {
    budget.daily + (k - 1) as real * LargestEstimate(budget)
  }

  ghost predicate EstimatesBounded(slots: seq<Slot>, tenant: string, largest: real) {
    forall i :: 0 <= i < |slots| && slots[i].Open? && TenantOf(slots[i].tenant) == TenantOf(tenant) ==>
      0.0 <= slots[i].estimate <= largest
  }

  lemma {:induction false} PendingIsBounded(slots: seq<Slot>, tenant: string, largest: real)
    requires EstimatesBounded(slots, tenant, largest)
    ensures InFlight(slots, tenant) >= 0
    ensures 0.0 <= Pending(slots, tenant) <= InFlight(slots, tenant) as real * largest
  {
    if slots != [] {
      var n := |slots| - 1;
      PendingIsBounded(slots[..n], tenant, largest);
      if slots[n].Open? && TenantOf(slots[n].tenant) == TenantOf(tenant) {
        var m := InFlight(slots[..n], tenant);
        assert (m + 1) as real * largest == m as real * largest + largest;
      }
    }
  }

  // ---------------------------------------------------------------------------------------------
  // The invariant
  // ---------------------------------------------------------------------------------------------

  /** What one tenant has spent on a day, less its overruns. */
  function Net(s: State, tenant: string, day: string): real {
    Spend(s.rows, tenant, day) - Spend(s.overrun, tenant, day)
  }

  ghost predicate Fresh(s: State, tenant: string) {
    forall day :: day !in s.days ==> Spend(s.rows, tenant, day) == 0.0 && Spend(s.overrun, tenant, day) == 0.0
  }

  /** Every day is within the ceiling, and today is even if all that is in flight is charged. */
  ghost predicate WithinCeiling(s: State, tenant: string, ceiling: real)
    requires s.days != []
  {
    && (forall day :: 0.0 <= Spend(s.overrun, tenant, day))
    && (forall day :: 0.0 <= Spend(s.rows, tenant, day) && Net(s, tenant, day) <= ceiling)
    && Net(s, tenant, Today(s)) + Pending(s.slots, tenant) <= ceiling
  }

  ghost predicate Inv(budgets: Budgets, k: int, s: State, tenant: string) {
    && s.days != []
    && Fresh(s, tenant)
    && EstimatesBounded(s.slots, tenant, LargestEstimate(budgets.For(tenant)))
    && WithinCeiling(s, tenant, Ceiling(budgets.For(tenant), k))
  }

  lemma SlotChange(s: State, i: nat, slot: Slot, tenant: string)
    requires i < |s.slots|
    ensures Pending(s.slots[i := slot], tenant)
         == Pending(s.slots, tenant) - EstimateFor(tenant)(s.slots[i]) + EstimateFor(tenant)(slot)
    ensures InFlight(s.slots[i := slot], tenant)
         == InFlight(s.slots, tenant) - OpenFor(tenant)(s.slots[i]) + OpenFor(tenant)(slot)
  {
    SumUpdate(s.slots, i, slot, EstimateFor(tenant));
    TotalUpdate(s.slots, i, slot, OpenFor(tenant));
  }

  lemma CeilingCoversFlight(budget: Budget, k: int, flight: int)
    requires budget.daily > 0.0 && flight <= k
    ensures flight as real * LargestEstimate(budget) <= Ceiling(budget, k)
  {
    var e := LargestEstimate(budget);
    ScaleIsMonotone(flight, k, e);
    assert k as real * e == (k - 1) as real * e + e;
  }

  lemma PendingWithinCeiling(budget: Budget, k: int, slots: seq<Slot>, tenant: string)
    requires budget.daily > 0.0 && InFlight(slots, tenant) <= k
    requires EstimatesBounded(slots, tenant, LargestEstimate(budget))
    ensures Pending(slots, tenant) <= Ceiling(budget, k)
  {
    PendingIsBounded(slots, tenant, LargestEstimate(budget));
    CeilingCoversFlight(budget, k, InFlight(slots, tenant));
  }

  lemma AdmissionFits(budget: Budget, k: int, flight: int, pending: real, spent: real, over: real, estimate: real)
    requires budget.daily > 0.0 && flight <= k - 1
    requires pending <= flight as real * LargestEstimate(budget)
    requires spent + estimate <= budget.daily && over >= 0.0
    ensures spent - over + pending + estimate <= Ceiling(budget, k)
  {
    ScaleIsMonotone(flight, k - 1, LargestEstimate(budget));
  }

  lemma AdmitKeepsCeiling(budgets: Budgets, k: int, s: State, i: nat, estimate: real, tenant: string)
    requires budgets.For(tenant).daily > 0.0 && Inv(budgets, k, s, tenant)
    requires Enabled(budgets, s, Admit(i, estimate)) && TenantOf(s.slots[i].tenant) == TenantOf(tenant)
    requires InFlight(s.slots, tenant) <= k - 1
    ensures Net(s, tenant, Today(s)) + Pending(s.slots, tenant) + estimate <= Ceiling(budgets.For(tenant), k)
  {
    var spent, over := Spend(s.rows, tenant, Today(s)), Spend(s.overrun, tenant, Today(s));
    assert 0.0 <= spent && 0.0 <= over;
    CheckPassed(budgets, s, i, estimate, tenant);
    PendingIsBounded(s.slots, tenant, LargestEstimate(budgets.For(tenant)));
    AdmissionFits(budgets.For(tenant), k, InFlight(s.slots, tenant), Pending(s.slots, tenant), spent, over, estimate);
  }

  /** What a passed check says about the numbers. */
  lemma CheckPassed(budgets: Budgets, s: State, i: nat, estimate: real, tenant: string)
    requires Enabled(budgets, s, Admit(i, estimate)) && TenantOf(s.slots[i].tenant) == TenantOf(tenant)
    requires budgets.For(tenant).daily > 0.0 && Spend(s.rows, tenant, Today(s)) >= 0.0
    ensures Spend(s.rows, tenant, Today(s)) + estimate <= budgets.For(tenant).daily
    ensures 0.0 <= estimate <= LargestEstimate(budgets.For(tenant))
  {
    assert budgets.For(s.slots[i].tenant) == budgets.For(tenant);
  }

  lemma AdmitKeepsInv(budgets: Budgets, k: int, s: State, i: nat, estimate: real, tenant: string)
    requires budgets.For(tenant).daily > 0.0 && Inv(budgets, k, s, tenant)
    requires Enabled(budgets, s, Admit(i, estimate))
    requires InFlight(Next(s, Admit(i, estimate)).slots, tenant) <= k
    ensures Inv(budgets, k, Next(s, Admit(i, estimate)), tenant)
  {
    SlotChange(s, i, Open(s.slots[i].tenant, estimate), tenant);
    if TenantOf(s.slots[i].tenant) == TenantOf(tenant) {
      assert 0.0 <= Spend(s.rows, tenant, Today(s));
      CheckPassed(budgets, s, i, estimate, tenant);
      AdmitKeepsCeiling(budgets, k, s, i, estimate, tenant);
    }
  }

  lemma SettleKeepsInv(budgets: Budgets, k: int, s: State, i: nat, actual: real, tenant: string)
    requires Inv(budgets, k, s, tenant)
    requires Enabled(budgets, s, Settle(i, actual))
    ensures Inv(budgets, k, Next(s, Settle(i, actual)), tenant)
  {
    var s' := Next(s, Settle(i, actual));
    SlotChange(s, i, s'.slots[i], tenant);
    PendingIsBounded(s'.slots, tenant, LargestEstimate(budgets.For(tenant)));
    assert Net(s', tenant, Today(s)) + Pending(s'.slots, tenant) <= Net(s, tenant, Today(s)) + Pending(s.slots, tenant);
    forall day ensures Net(s', tenant, day) <= Ceiling(budgets.For(tenant), k) {
      if day != Today(s) {
        assert Net(s', tenant, day) == Net(s, tenant, day);
      }
    }
  }

  lemma OtherStepsKeepInv(budgets: Budgets, k: int, s: State, e: Event, tenant: string)
    requires budgets.For(tenant).daily > 0.0 && Inv(budgets, k, s, tenant)
    requires InFlight(s.slots, tenant) <= k
    requires Enabled(budgets, s, e) && !e.Admit? && !e.Settle?
    ensures Inv(budgets, k, Next(s, e), tenant)
  {
    match e {
      case Arrive(tenantId) =>
        SumAppend(s.slots, Idle(TenantOf(tenantId)), EstimateFor(tenant));
      case Drop(i) =>
        SlotChange(s, i, Closed(s.slots[i].tenant), tenant);
      case NewDay(day) =>
        PendingWithinCeiling(budgets.For(tenant), k, s.slots, tenant);
        assert Net(s, tenant, day) == 0.0;
    }
  }

  /** Every step of every tenant keeps the invariant of each tenant. */
  lemma StepKeepsInv(budgets: Budgets, k: int, s: State, e: Event, tenant: string)
    requires budgets.For(tenant).daily > 0.0 && Inv(budgets, k, s, tenant)
    requires Enabled(budgets, s, e)
    requires InFlight(s.slots, tenant) <= k && InFlight(Next(s, e).slots, tenant) <= k
    ensures Inv(budgets, k, Next(s, e), tenant)
  {
    match e {
      case Admit(i, estimate) => AdmitKeepsInv(budgets, k, s, i, estimate, tenant);
      case Settle(i, actual) => SettleKeepsInv(budgets, k, s, i, actual, tenant);
      case _ => OtherStepsKeepInv(budgets, k, s, e, tenant);
    }
  }

  // ---------------------------------------------------------------------------------------------
  // Runs
  // ---------------------------------------------------------------------------------------------

  /** The state a series of events leads to. */
  ghost function Reached(s: State, events: seq<Event>): State {
    if events == [] then s
    else
      var n := |events| - 1;
      var mid := Reached(s, events[..n]);
      if Fits(mid, events[n]) then Next(mid, events[n]) else mid
  }

  /** Every event was enabled when it happened, and never were more than `k` requests of `tenant` in flight. */
  ghost predicate Legal(budgets: Budgets, k: int, tenant: string, s: State, events: seq<Event>) {
    if events == [] then InFlight(s.slots, tenant) <= k
    else
      var n := |events| - 1;
      && Legal(budgets, k, tenant, s, events[..n])
      && Enabled(budgets, Reached(s, events[..n]), events[n])
      && InFlight(Reached(s, events).slots, tenant) <= k
  }

  lemma LegalNow(budgets: Budgets, k: int, tenant: string, s: State, events: seq<Event>)
    requires Legal(budgets, k, tenant, s, events)
    ensures InFlight(Reached(s, events).slots, tenant) <= k
  {
  }

  lemma InvAtStart(budgets: Budgets, k: int, tenant: string, day: string)
    requires budgets.For(tenant).daily > 0.0 && k >= 1
    ensures Inv(budgets, k, Init(day), tenant)
  {
    CeilingCoversFlight(budgets.For(tenant), k, 0);
  }

  lemma {:induction false} RunKeepsInv(budgets: Budgets, k: int, tenant: string, day: string, events: seq<Event>)
    requires budgets.For(tenant).daily > 0.0 && k >= 1
    requires Legal(budgets, k, tenant, Init(day), events)
    ensures Inv(budgets, k, Reached(Init(day), events), tenant)
  {
    if events == [] {
      InvAtStart(budgets, k, tenant, day);
    } else {
      var n := |events| - 1;
      RunKeepsInv(budgets, k, tenant, day, events[..n]);
      LegalNow(budgets, k, tenant, Init(day), events[..n]);
      StepKeepsInv(budgets, k, Reached(Init(day), events[..n]), events[n], tenant);
    }
  }

  /**
   Budget safety under any interleaving, requests that cross midnight included: from an empty
   ledger, with at most `k` requests of a tenant in flight, no day's spend exceeds the daily budget
   by more than `k - 1` largest estimates plus that day's cost overruns.
   */
  lemma BudgetSafety(budgets: Budgets, k: int, tenant: string, start: string, events: seq<Event>, day: string)
    requires budgets.For(tenant).daily > 0.0 && k >= 1
    requires Legal(budgets, k, tenant, Init(start), events)
    ensures var s := Reached(Init(start), events);
            Spend(s.rows, tenant, day) <= Ceiling(budgets.For(tenant), k) + Spend(s.overrun, tenant, day)
  {
    RunKeepsInv(budgets, k, tenant, start, events);
    assert Net(Reached(Init(start), events), tenant, day) <= Ceiling(budgets.For(tenant), k);
  }

  // ---------------------------------------------------------------------------------------------
  // The bound is reached
  // ---------------------------------------------------------------------------------------------

  lemma OneMoreEvent(budgets: Budgets, k: int, tenant: string, s: State, events: seq<Event>, e: Event)
    requires Legal(budgets, k, tenant, s, events) && Enabled(budgets, Reached(s, events), e)
    requires InFlight(Next(Reached(s, events), e).slots, tenant) <= k
    ensures Legal(budgets, k, tenant, s, events + [e])
    ensures Reached(s, events + [e]) == Next(Reached(s, events), e)
  {
    assert (events + [e])[..|events|] == events;
  }

  /** A request of the tenant at this estimate would arrive and pass the check. */
  ghost predicate MayOpen(budgets: Budgets, k: int, tenant: string, s: State, estimate: real) {
    && s.days != [] && InFlight(s.slots, tenant) < k && estimate >= 0.0
    && Decide(budgets.For(tenant), TenantOf(tenant), Spend(s.rows, tenant, Today(s)), estimate).allowed
  }

  function Opened(s: State, tenant: string, estimate: real): State {
    s.(slots := s.slots + [Open(TenantOf(tenant), estimate)])
  }

  /** Request `n` is one of the tenant's in flight. */
  ghost predicate MaySettle(s: State, tenant: string, n: nat) {
    s.days != [] && n < |s.slots| && s.slots[n].Open? && s.slots[n].tenant == TenantOf(tenant) && s.slots[n].estimate >= 0.0
  }

  ghost function Settled(s: State, n: nat): State
    requires s.days != [] && n < |s.slots| && s.slots[n].Open?
  {
    Next(s, Settle(n, s.slots[n].estimate))
  }

  /**
   A set of states that the tenant's requests do not leave: opened within `k` until there have been
   `supply` of them, settled at their estimates.
   */
  ghost predicate ClosedUnderRequests(reach: State -> bool, budgets: Budgets, k: int, tenant: string, supply: nat) {
    && (forall s, estimate :: reach(s) && |s.slots| < supply && MayOpen(budgets, k, tenant, s, estimate) ==>
          reach(Opened(s, tenant, estimate)))
    && (forall s, n: nat :: reach(s) && MaySettle(s, tenant, n) ==> reach(Settled(s, n)))
  }

  /** `flight` requests of the tenant are in flight, `spent` is charged on `day`, and nothing overran. */
  ghost predicate At(s: State, tenant: string, day: string, flight: int, spent: real) {
    && s.days == [day]
    && InFlight(s.slots, tenant) == flight
    && Spend(s.rows, tenant, day) == spent
    && forall d :: Spend(s.overrun, tenant, d) == 0.0
  }

  /** One more request of the tenant passes the check. */
  lemma OneMoreAdmitted(reach: State -> bool, budgets: Budgets, k: int, tenant: string, supply: nat, day: string, s: State,
                        flight: int, spent: real, estimate: real) returns (s': State)
    requires ClosedUnderRequests(reach, budgets, k, tenant, supply) && reach(s) && At(s, tenant, day, flight, spent)
    requires flight < k && |s.slots| < supply && 0.0 <= estimate <= LargestEstimate(budgets.For(tenant))
    requires spent + estimate <= budgets.For(tenant).daily
    ensures reach(s') && At(s', tenant, day, flight + 1, spent)
    ensures s'.slots == s.slots + [Open(TenantOf(tenant), estimate)]
  {
    assert MayOpen(budgets, k, tenant, s, estimate);
    s' := Opened(s, tenant, estimate);
    TotalAppend(s.slots, Open(TenantOf(tenant), estimate), OpenFor(tenant));
  }

  /** A request settles at its estimate. */
  lemma SettledAt(reach: State -> bool, budgets: Budgets, k: int, tenant: string, supply: nat, day: string, s: State,
                  n: nat, flight: int, spent: real, estimate: real) returns (s': State)
    requires ClosedUnderRequests(reach, budgets, k, tenant, supply) && reach(s) && At(s, tenant, day, flight, spent)
    requires flight <= k && estimate >= 0.0
    requires n < |s.slots| && s.slots[n] == Open(TenantOf(tenant), estimate)
    ensures reach(s') && At(s', tenant, day, flight - 1, spent + estimate)
    ensures s'.slots == s.slots[n := Closed(TenantOf(tenant))]
  {
    SlotChange(s, n, Closed(TenantOf(tenant)), tenant);
    assert MaySettle(s, tenant, n);
    s' := Settled(s, n);
  }

  /** Repeated addition, so that the two constructions below stay linear. */
  function Times(n: nat, x: real): real {
    if n == 0 then 0.0 else Times(n - 1, x) + x
  }

  lemma {:induction false} TimesIsProduct(n: nat, x: real)
    ensures Times(n, x) == n as real * x
  {
    if n > 0 {
      TimesIsProduct(n - 1, x);
      assert n as real * x == (n - 1) as real * x + x;
    }
  }

  /** A request is admitted and settled before any other comes. */
  lemma OneRound(reach: State -> bool, budgets: Budgets, k: int, tenant: string, supply: nat, day: string, s: State,
                 spent: real, step: real) returns (s': State)
    requires k >= 1 && ClosedUnderRequests(reach, budgets, k, tenant, supply) && reach(s) && At(s, tenant, day, 0, spent)
    requires 0.0 <= step <= LargestEstimate(budgets.For(tenant)) && spent + step <= budgets.For(tenant).daily
    requires |s.slots| < supply
    ensures reach(s') && At(s', tenant, day, 0, spent + step) && |s'.slots| == |s.slots| + 1
  {
    s' := OneMoreAdmitted(reach, budgets, k, tenant, supply, day, s, 0, spent, step);
    s' := SettledAt(reach, budgets, k, tenant, supply, day, s', |s.slots|, 1, spent, step);
  }

  /** One request after another brings the day's spend up to `target`. */
  lemma {:induction false} FillOneByOne(reach: State -> bool, budgets: Budgets, k: int, tenant: string, supply: nat, day: string, s: State,
                                        spent: real, target: real, rounds: nat) returns (s': State)
    requires k >= 1 && ClosedUnderRequests(reach, budgets, k, tenant, supply) && reach(s) && At(s, tenant, day, 0, spent)
    requires budgets.For(tenant).daily > 0.0 && spent <= target <= budgets.For(tenant).daily
    requires target - spent <= Times(rounds, LargestEstimate(budgets.For(tenant))) && |s.slots| + rounds <= supply
    ensures reach(s') && At(s', tenant, day, 0, target) && |s'.slots| <= |s.slots| + rounds
    decreases rounds
  {
    var largest := LargestEstimate(budgets.For(tenant));
    if target == spent {
      s' := s;
    } else if target - spent <= largest {
      s' := OneRound(reach, budgets, k, tenant, supply, day, s, spent, target - spent);
    } else {
      s' := OneRound(reach, budgets, k, tenant, supply, day, s, spent, largest);
      s' := FillOneByOne(reach, budgets, k, tenant, supply, day, s', spent + largest, target, rounds - 1);
    }
  }

  /** `more` further requests at the largest estimate pass the check at once, and all settle. */
  lemma {:induction false} Burst(reach: State -> bool, budgets: Budgets, k: int, tenant: string, supply: nat, day: string, s: State,
                                 flight: nat, spent: real, more: nat) returns (s': State)
    requires ClosedUnderRequests(reach, budgets, k, tenant, supply) && reach(s) && At(s, tenant, day, flight, spent) && flight + more <= k
    requires budgets.For(tenant).daily > 0.0
    requires spent + LargestEstimate(budgets.For(tenant)) <= budgets.For(tenant).daily && |s.slots| + more <= supply
    ensures reach(s') && At(s', tenant, day, flight, spent + Times(more, LargestEstimate(budgets.For(tenant))))
    ensures Extends(s.slots, s'.slots)
    decreases more
  {
    s' := s;
    if more > 0 {
      var largest := LargestEstimate(budgets.For(tenant));
      s' := OneMoreAdmitted(reach, budgets, k, tenant, supply, day, s, flight, spent, largest);
      s' := Burst(reach, budgets, k, tenant, supply, day, s', flight + 1, spent, more - 1);
      s' := SettledAt(reach, budgets, k, tenant, supply, day, s', |s.slots|, flight + 1, spent + Times(more - 1, largest), largest);
    }
  }

  /** The fewest requests at `step` that come to `amount`. */
  function Rounds(amount: real, step: real): nat
    requires amount >= 0.0 && step > 0.0
  {
    var ratio := amount / step;
    assert ratio >= 0.0;
    if ratio == ratio.Floor as real then ratio.Floor else ratio.Floor + 1
  }

  lemma RoundsAreLeast(amount: real, step: real, n: int)
    requires amount >= 0.0 && step > 0.0
    ensures amount <= n as real * step <==> Rounds(amount, step) <= n
  {
    var ratio := amount / step;
    assert ratio * step == amount;
    if n as real >= ratio {
      ProductIsNonNegative(n as real - ratio, step);
      assert n as real * step == amount + (n as real - ratio) * step;
    } else {
      ProductVanishes(ratio - n as real, step);
      ProductIsNonNegative(ratio - n as real, step);
      assert n as real * step == amount - (ratio - n as real) * step;
    }
  }

  /** The fewest requests that can spend the ceiling: rounds up to one estimate short of the budget, then `k` at once. */
  function RequestsNeeded(budget: Budget, k: nat): nat
    requires budget.daily > 0.0
  {
    Rounds(budget.daily - LargestEstimate(budget), LargestEstimate(budget)) + k
  }

  /** Fewer than that, at the largest estimate each, fall short of the ceiling. */
  lemma FewerFallShort(budget: Budget, k: nat, n: int)
    requires budget.daily > 0.0
    ensures Ceiling(budget, k) <= n as real * LargestEstimate(budget) <==> RequestsNeeded(budget, k) <= n
  {
    var e := LargestEstimate(budget);
    RoundsAreLeast(budget.daily - e, e, n - k);
    assert n as real * e == (n - k) as real * e + k as real * e;
    assert k as real * e == (k - 1) as real * e + e;
  }

  /** Any set of states that holds the start and is closed under enough requests holds one at the ceiling. */
  lemma CeilingInEveryClosedSet(reach: State -> bool, budgets: Budgets, k: nat, tenant: string, supply: nat, day: string)
    returns (s: State)
    requires budgets.For(tenant).daily > 0.0 && k >= 1 && RequestsNeeded(budgets.For(tenant), k) <= supply
    requires ClosedUnderRequests(reach, budgets, k, tenant, supply) && reach(Init(day))
    ensures reach(s) && At(s, tenant, day, 0, Ceiling(budgets.For(tenant), k))
  {
    var budget := budgets.For(tenant);
    var largest := LargestEstimate(budget);
    var rounds := Rounds(budget.daily - largest, largest);
    RoundsAreLeast(budget.daily - largest, largest, rounds);
    TimesIsProduct(rounds, largest);
    s := FillOneByOne(reach, budgets, k, tenant, supply, day, Init(day), 0.0, budget.daily - largest, rounds);
    s := Burst(reach, budgets, k, tenant, supply, day, s, 0, budget.daily - largest, k);
    TimesIsProduct(k - 1, largest);
  }

  ghost predicate ReachedBy(budgets: Budgets, k: int, tenant: string, day: string, s: State) {
    exists events :: Legal(budgets, k, tenant, Init(day), events) && Reached(Init(day), events) == s
  }

  lemma RunsExtend(budgets: Budgets, k: int, tenant: string, day: string, s: State, e: Event)
    requires ReachedBy(budgets, k, tenant, day, s) && Enabled(budgets, s, e)
    requires InFlight(Next(s, e).slots, tenant) <= k
    ensures ReachedBy(budgets, k, tenant, day, Next(s, e))
  {
    var events :| Legal(budgets, k, tenant, Init(day), events) && Reached(Init(day), events) == s;
    OneMoreEvent(budgets, k, tenant, Init(day), events, e);
  }

  /** Opening a request takes two steps of the protocol: it arrives, */
  lemma OpeningArrives(budgets: Budgets, k: int, tenant: string, s: State, estimate: real)
    requires MayOpen(budgets, k, tenant, s, estimate)
    ensures Enabled(budgets, s, Arrive(tenant)) && InFlight(Next(s, Arrive(tenant)).slots, tenant) <= k
  {
    TotalAppend(s.slots, Idle(TenantOf(tenant)), OpenFor(tenant));
  }

  /** and passes the check. */
  lemma OpeningPasses(budgets: Budgets, k: int, tenant: string, s: State, estimate: real, arrived: State)
    requires MayOpen(budgets, k, tenant, s, estimate) && arrived == s.(slots := s.slots + [Idle(TenantOf(tenant))])
    ensures Enabled(budgets, arrived, Admit(|s.slots|, estimate))
    ensures Next(arrived, Admit(|s.slots|, estimate)) == Opened(s, tenant, estimate)
    ensures InFlight(Opened(s, tenant, estimate).slots, tenant) <= k
  {
    TotalAppend(s.slots, Open(TenantOf(tenant), estimate), OpenFor(tenant));
    assert budgets.For(TenantOf(tenant)) == budgets.For(tenant);
    assert arrived.slots[|s.slots| := Open(TenantOf(tenant), estimate)] == s.slots + [Open(TenantOf(tenant), estimate)];
  }

  lemma RunsMayOpen(budgets: Budgets, k: int, tenant: string, day: string, s: State, estimate: real)
    requires ReachedBy(budgets, k, tenant, day, s) && MayOpen(budgets, k, tenant, s, estimate)
    ensures ReachedBy(budgets, k, tenant, day, Opened(s, tenant, estimate))
  {
    var arrived := Next(s, Arrive(tenant));
    OpeningArrives(budgets, k, tenant, s, estimate);
    RunsExtend(budgets, k, tenant, day, s, Arrive(tenant));
    OpeningPasses(budgets, k, tenant, s, estimate, arrived);
    RunsExtend(budgets, k, tenant, day, arrived, Admit(|s.slots|, estimate));
  }

  lemma RunsMaySettle(budgets: Budgets, k: int, tenant: string, day: string, s: State, n: nat)
    requires ReachedBy(budgets, k, tenant, day, s) && MaySettle(s, tenant, n)
    ensures ReachedBy(budgets, k, tenant, day, Settled(s, n))
  {
    var events :| Legal(budgets, k, tenant, Init(day), events) && Reached(Init(day), events) == s;
    LegalNow(budgets, k, tenant, Init(day), events);
    SlotChange(s, n, Closed(TenantOf(tenant)), tenant);
    RunsExtend(budgets, k, tenant, day, s, Settle(n, s.slots[n].estimate));
  }

  /**
   The bound is exact: for every budget and every `k`, some run with at most `k` requests in flight
   and no overrun spends exactly the ceiling.
   */
  lemma CeilingIsReached(budgets: Budgets, k: int, tenant: string, day: string) returns (events: seq<Event>)
    requires budgets.For(tenant).daily > 0.0 && k >= 1
    ensures Legal(budgets, k, tenant, Init(day), events)
    ensures At(Reached(Init(day), events), tenant, day, 0, Ceiling(budgets.For(tenant), k))
  {
    ghost var reach := (s: State) => ReachedBy(budgets, k, tenant, day, s);
    var supply := RequestsNeeded(budgets.For(tenant), k);
    forall s, estimate | reach(s) && |s.slots| < supply && MayOpen(budgets, k, tenant, s, estimate)
      ensures reach(Opened(s, tenant, estimate))
    {
      RunsMayOpen(budgets, k, tenant, day, s, estimate);
    }
    forall s, n: nat | reach(s) && MaySettle(s, tenant, n) ensures reach(Settled(s, n)) {
      RunsMaySettle(budgets, k, tenant, day, s, n);
    }
    assert Legal(budgets, k, tenant, Init(day), []) && Reached(Init(day), []) == Init(day);
    var s := CeilingInEveryClosedSet(reach, budgets, k, tenant, supply, day);
    events :| Legal(budgets, k, tenant, Init(day), events) && Reached(Init(day), events) == s;
  }
}
