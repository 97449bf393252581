/**
 One day of the gateway under both gates. The limiter and the ledger read the same clock, so what the
 limiter passes within a day bounds what can be charged on it.
 */
module GatewayDay {
  import opened Wrappers
  import opened Sequences
  import opened Tenancy
  import opened TokenBucket
  import opened Saturation
  import opened Gateway
  import opened GatewayAdmission
  import opened GatewayBudget
  import RL = RateLimiter
  import B = BudgetProtocol

  /** A day in nanoseconds. */
  const DAY: int := 86_400_000_000_000

  /** Different days have different names. */
  ghost predicate Injective(calendar: int -> string) {
    forall a, b :: calendar(a) == calendar(b) ==> a == b
  }

  /** Every request arrives, by the limiter's clock, on the day the ledger is charging. */
  ghost predicate OneClock(calendar: int -> string, states: seq<State>, events: seq<Event>) {
    && |states| == |events| + 1
    && forall k {:trigger events[k]} :: 0 <= k < |events| && events[k].Arrive? ==>
         states[k].budget.days != [] && calendar(events[k].now / DAY) == B.Today(states[k].budget)
  }

  // ---------------------------------------------------------------------------------------------
  // No request is charged more than its estimate, overruns aside
  // ---------------------------------------------------------------------------------------------

  function UnfinishedOf(tenant: string): Req -> int {
    (r: Req) => if IsOf(r, tenant) && !r.phase.Done? then 1 else 0
  }

  /** The tenant's requests that were let through and are not finished. */
  function Unfinished(reqs: seq<Req>, tenant: string): int {
    Total(reqs, UnfinishedOf(tenant))
  }

  /** The tenant's requests that the limiter let through. */
  function LetIn(reqs: seq<Req>, tenant: string): nat {
    Count(Passes(Own(reqs, TenantOf(tenant))))
  }

  lemma {:induction false} UnfinishedIsNatural(reqs: seq<Req>, tenant: string)
    ensures Unfinished(reqs, tenant) >= 0
  {
    if reqs != [] {
      UnfinishedIsNatural(reqs[..|reqs| - 1], tenant);
    }
  }

  lemma LetInAppend(reqs: seq<Req>, req: Req, tenant: string)
    ensures LetIn(reqs + [req], tenant)
         == LetIn(reqs, tenant) + (if req.tenant == TenantOf(tenant) && req.phase != Done(RateLimited) then 1 else 0)
  {
    var own := Own(reqs, TenantOf(tenant));
    OwnAppend(reqs, req, TenantOf(tenant));
    if req.tenant == TenantOf(tenant) {
      ViewsAppend(own, req);
      assert Passes(own + [req])[..|own|] == Passes(own);
    } else {
      assert own + [] == own;
    }
  }

  /** A new request is unfinished exactly if it was let in. */
  lemma ArrivalBalances(reqs: seq<Req>, req: Req, tenant: string)
    requires req.tenant != "" && (req.phase == Admitted || req.phase == Done(RateLimited))
    ensures Unfinished(reqs + [req], tenant) - LetIn(reqs + [req], tenant) == Unfinished(reqs, tenant) - LetIn(reqs, tenant)
  {
    LetInAppend(reqs, req, tenant);
    TotalAppend(reqs, req, UnfinishedOf(tenant));
  }

  /** Any other step finishes its request or leaves it unfinished. */
  lemma MoveBalances(s: State, s': State, i: nat, tenant: string)
    requires OneRequestMoves(s, s', i)
    ensures LetIn(s'.reqs, tenant) == LetIn(s.reqs, tenant)
    ensures Unfinished(s'.reqs, tenant) == Unfinished(s.reqs, tenant)
              - (if IsOf(s.reqs[i], tenant) && s'.reqs[i].phase.Done? then 1 else 0)
  {
    OwnUpdate(s.reqs, i, s'.reqs[i], TenantOf(tenant));
    TotalUpdate(s.reqs, i, s'.reqs[i], UnfinishedOf(tenant));
  }

  /** A charge adds at most its estimate, overrun aside, and only to its own tenant. */
  lemma ChargeFitsEstimate(b: B.State, i: nat, actual: real, tenant: string, day: string, largest: real)
    requires B.Fits(b, B.Settle(i, actual)) && B.EstimatesBounded(b.slots, tenant, largest) && largest >= 0.0
    ensures B.Net(B.Next(b, B.Settle(i, actual)), tenant, day)
         <= B.Net(b, tenant, day) + (if TenantOf(b.slots[i].tenant) == TenantOf(tenant) then largest else 0.0)
  {
  }

  /** Only a settlement adds to a tenant's spend. */
  lemma StepCharges(setup: Setup, s: State, e: Event, tenant: string, day: string, largest: real)
    requires Enabled(setup, s, e) && B.EstimatesBounded(s.budget.slots, tenant, largest) && largest >= 0.0
    ensures B.Net(Next(setup, s, e).budget, tenant, day) <= B.Net(s.budget, tenant, day)
              + (if e.Settle? && IsOf(s.reqs[e.i], tenant) then largest else 0.0)
  {
    StepsFollowBudgetProtocol(setup, s, e);
    var be := BudgetEvent(setup, s, e);
    if be.Some? && be.value.Settle? {
      assert SlotMatches(s.reqs[e.i], s.budget.slots[e.i]);
      ChargeFitsEstimate(s.budget, e.i, be.value.actual, tenant, day, largest);
    }
  }

  lemma SettlementFinishes(setup: Setup, s: State, e: Event, s': State)
    requires Enabled(setup, s, e) && e.Settle? && s' == Next(setup, s, e) && |s'.reqs| == |s.reqs|
    ensures s'.reqs[e.i].phase.Done?
  {
  }

  /** The tenant's requests that are unfinished, less all that were let in. */
  function Remaining(s: State, tenant: string): int {
    Unfinished(s.reqs, tenant) - LetIn(s.reqs, tenant)
  }

  /** Each step finishes one of the tenant's requests, which may cost up to `largest`, or costs nothing. */
  ghost predicate PaysByFinishing(s: State, s': State, tenant: string, day: string, largest: real) {
    || (Remaining(s', tenant) == Remaining(s, tenant) && B.Net(s'.budget, tenant, day) <= B.Net(s.budget, tenant, day))
    || (Remaining(s', tenant) == Remaining(s, tenant) - 1 && B.Net(s'.budget, tenant, day) <= B.Net(s.budget, tenant, day) + largest)
  }

  lemma StepPaysByFinishing(setup: Setup, s: State, e: Event, tenant: string, day: string, largest: real)
    requires Enabled(setup, s, e) && B.EstimatesBounded(s.budget.slots, tenant, largest) && largest >= 0.0
    ensures PaysByFinishing(s, Next(setup, s, e), tenant, day, largest)
  {
    var s' := Next(setup, s, e);
    StepCharges(setup, s, e, tenant, day, largest);
    match e {
      case Arrive(tenantId, now, _) =>
        var answer := LimiterAnswer(setup, s.buckets, TenantOf(tenantId), now);
        var req := Req(TenantOf(tenantId), now, if answer.0 then Admitted else Done(RateLimited));
        assert s'.reqs == s.reqs + [req];
        ArrivalBalances(s.reqs, req, tenant);
      case NewDay(_) =>
      case _ =>
        StepMoves(setup, s, e);
        MoveBalances(s, s', e.i, tenant);
        if e.Settle? {
          SettlementFinishes(setup, s, e, s');
        }
    }
  }

  // ---------------------------------------------------------------------------------------------
  // Over a run
  // ---------------------------------------------------------------------------------------------

  lemma {:induction false} InFlightFitsSlots(slots: seq<B.Slot>, tenant: string)
    ensures B.InFlight(slots, tenant) <= |slots|
  {
    if slots != [] {
      InFlightFitsSlots(slots[..|slots| - 1], tenant);
    }
  }

  lemma {:induction false} OneRequestAtATime(setup: Setup, states: seq<State>, events: seq<Event>, k: nat)
    requires Run(setup, states, events) && k < |states|
    ensures |states[k].budget.slots| == |states[k].reqs| <= k
  {
    if k > 0 {
      OneRequestAtATime(setup, states, events, k - 1);
      StateAt(setup, states, events, k);
      if !events[k - 1].Arrive? && !events[k - 1].NewDay? {
        StepMoves(setup, states[k - 1], events[k - 1]);
      }
    }
  }

  lemma EstimatesStayBounded(setup: Setup, states: seq<State>, events: seq<Event>, k: nat, tenant: string)
    requires Run(setup, states, events) && k < |states| && setup.budgets.For(tenant).daily > 0.0
    ensures B.EstimatesBounded(states[k].budget.slots, tenant, B.LargestEstimate(setup.budgets.For(tenant)))
  {
    forall j | 0 <= j < |states| ensures B.InFlight(states[j].budget.slots, tenant) <= |states| {
      OneRequestAtATime(setup, states, events, j);
      InFlightFitsSlots(states[j].budget.slots, tenant);
    }
    RunKeepsBudgetInv(setup, states, events, k, tenant, |states|);
  }

  /** What was spent since `s0` is covered by the requests finished since. */
  ghost predicate Covered(s0: State, s: State, tenant: string, day: string, largest: real) {
    var finished := Remaining(s0, tenant) - Remaining(s, tenant);
    finished >= 0 && B.Net(s.budget, tenant, day) <= B.Net(s0.budget, tenant, day) + B.Times(finished, largest)
  }

  lemma StaysCovered(s0: State, s: State, s': State, tenant: string, day: string, largest: real)
    requires Covered(s0, s, tenant, day, largest) && PaysByFinishing(s, s', tenant, day, largest)
    ensures Covered(s0, s', tenant, day, largest)
  {
    var finished := Remaining(s0, tenant) - Remaining(s', tenant);
    assert finished > 0 ==> B.Times(finished, largest) == B.Times(finished - 1, largest) + largest;
  }

  lemma {:induction false} RunStaysCovered(setup: Setup, states: seq<State>, events: seq<Event>, j: nat, k: nat,
                                           tenant: string, day: string, largest: real)
    requires Run(setup, states, events) && j <= k < |states|
    requires setup.budgets.For(tenant).daily > 0.0 && largest == B.LargestEstimate(setup.budgets.For(tenant))
    ensures Covered(states[j], states[k], tenant, day, largest)
  {
    if j < k {
      var i := k - 1;
      RunStaysCovered(setup, states, events, j, i, tenant, day, largest);
      RunStepPays(setup, states, events, i, tenant, day, largest);
      assert i + 1 == k;
      StaysCovered(states[j], states[i], states[k], tenant, day, largest);
    }
  }

  lemma RunStepPays(setup: Setup, states: seq<State>, events: seq<Event>, k: nat, tenant: string, day: string, largest: real)
    requires Run(setup, states, events) && k < |events|
    requires setup.budgets.For(tenant).daily > 0.0 && largest == B.LargestEstimate(setup.budgets.For(tenant))
    ensures PaysByFinishing(states[k], states[k + 1], tenant, day, largest)
  {
    EstimatesStayBounded(setup, states, events, k, tenant);
    StateAt(setup, states, events, k + 1);
    StepPaysByFinishing(setup, states[k], events[k], tenant, day, largest);
  }

  lemma {:induction false} TimesGrows(n: nat, more: nat, x: real)
    requires n <= more && x >= 0.0
    ensures B.Times(n, x) <= B.Times(more, x)
  {
    if n < more {
      TimesGrows(n, more - 1, x);
    }
  }

  /**
   Between two moments a tenant's spend grows, overruns aside, by at most one estimate for each
   request it had unfinished or was let in since.
   */
  lemma SpendFitsRequests(setup: Setup, states: seq<State>, events: seq<Event>, j: nat, k: nat, tenant: string, day: string, n: nat)
    requires Run(setup, states, events) && j <= k < |states| && setup.budgets.For(tenant).daily > 0.0
    requires Unfinished(states[j].reqs, tenant) + LetIn(states[k].reqs, tenant) - LetIn(states[j].reqs, tenant) <= n
    ensures B.Net(states[k].budget, tenant, day) <= B.Net(states[j].budget, tenant, day)
              + n as real * B.LargestEstimate(setup.budgets.For(tenant))
  {
    var largest := B.LargestEstimate(setup.budgets.For(tenant));
    B.TimesIsProduct(n, largest);
    RunStaysCovered(setup, states, events, j, k, tenant, day, largest);
    UnfinishedIsNatural(states[k].reqs, tenant);
    TimesGrows(Remaining(states[j], tenant) - Remaining(states[k], tenant), n, largest);
  }

  // ---------------------------------------------------------------------------------------------
  // Within a day
  // ---------------------------------------------------------------------------------------------

  /** What the limiter has seen and answered stays seen and answered. */
  ghost predicate Remembers(before: seq<Req>, after: seq<Req>, tenant: string) {
    && Times(Own(before, tenant)) <= Times(Own(after, tenant))
    && Passes(Own(before, tenant)) <= Passes(Own(after, tenant))
  }

  /** The tenant's requests that came since `m` were there came on `day`. */
  ghost predicate CameOn(calendar: int -> string, reqs: seq<Req>, tenant: string, m: nat, day: string) {
    var times := Times(Own(reqs, tenant));
    m <= |times| && forall i :: m <= i < |times| ==> calendar(times[i] / DAY) == day
  }

  lemma StepRemembers(setup: Setup, s: State, e: Event, calendar: int -> string, tenant: string, before: seq<Req>, day: string)
    requires Enabled(setup, s, e) && Remembers(before, s.reqs, tenant)
    requires CameOn(calendar, s.reqs, tenant, |Own(before, tenant)|, day)
    requires e.Arrive? ==> calendar(e.now / DAY) == day
    ensures Remembers(before, Next(setup, s, e).reqs, tenant)
    ensures CameOn(calendar, Next(setup, s, e).reqs, tenant, |Own(before, tenant)|, day)
  {
    var s' := Next(setup, s, e);
    match e {
      case Arrive(tenantId, now, _) =>
        var answer := LimiterAnswer(setup, s.buckets, TenantOf(tenantId), now);
        var req := Req(TenantOf(tenantId), now, if answer.0 then Admitted else Done(RateLimited));
        assert s'.reqs == s.reqs + [req];
        ArrivalRemembers(s.reqs, req, calendar, tenant, before, day);
      case NewDay(_) =>
      case _ =>
        StepMoves(setup, s, e);
        OwnUpdate(s.reqs, e.i, s'.reqs[e.i], tenant);
    }
  }

  lemma ArrivalRemembers(reqs: seq<Req>, req: Req, calendar: int -> string, tenant: string, before: seq<Req>, day: string)
    requires Remembers(before, reqs, tenant) && CameOn(calendar, reqs, tenant, |Own(before, tenant)|, day)
    requires calendar(req.at / DAY) == day
    ensures Remembers(before, reqs + [req], tenant) && CameOn(calendar, reqs + [req], tenant, |Own(before, tenant)|, day)
  {
    var own := Own(reqs, tenant);
    OwnAppend(reqs, req, tenant);
    if req.tenant == tenant {
      ViewsAppend(own, req);
    } else {
      assert own + [] == own;
    }
  }

  /** Nothing but the first of the states `j..k` may begin a day. */
  ghost predicate SameDay(events: seq<Event>, j: nat, k: nat)
    requires k <= |events|
  {
    forall i :: j <= i < k ==> !events[i].NewDay?
  }

  /** The state `s` belongs to the same day as `before`, and has the requests since. */
  ghost predicate LaterThatDay(calendar: int -> string, before: State, s: State, tenant: string, day: string) {
    && Remembers(before.reqs, s.reqs, tenant)
    && CameOn(calendar, s.reqs, tenant, |Own(before.reqs, tenant)|, day)
    && s.budget.days == before.budget.days
  }

  lemma StepStaysInDay(setup: Setup, before: State, s: State, e: Event, calendar: int -> string, tenant: string, day: string)
    requires Enabled(setup, s, e) && !e.NewDay? && LaterThatDay(calendar, before, s, tenant, day)
    requires e.Arrive? ==> calendar(e.now / DAY) == day
    ensures LaterThatDay(calendar, before, Next(setup, s, e), tenant, day)
  {
    StepKeepsDays(setup, s, e);
    StepRemembers(setup, s, e, calendar, tenant, before.reqs, day);
  }

  lemma DayStarts(calendar: int -> string, s: State, tenant: string, day: string)
    ensures LaterThatDay(calendar, s, s, tenant, day)
  {
  }

  lemma RunStaysInDay(setup: Setup, states: seq<State>, events: seq<Event>, calendar: int -> string,
                      j: nat, i: nat, tenant: string, day: string)
    requires Run(setup, states, events) && OneClock(calendar, states, events) && j <= i < |events| && !events[i].NewDay?
    requires states[j].budget.days != [] && day == B.Today(states[j].budget)
    requires LaterThatDay(calendar, states[j], states[i], tenant, day)
    ensures LaterThatDay(calendar, states[j], states[i + 1], tenant, day)
  {
    StateAt(setup, states, events, i + 1);
    StepStaysInDay(setup, states[j], states[i], events[i], calendar, tenant, day);
  }

  lemma {:induction false} DayRemembers(setup: Setup, states: seq<State>, events: seq<Event>, calendar: int -> string,
                                        j: nat, k: nat, tenant: string, day: string)
    requires Run(setup, states, events) && OneClock(calendar, states, events) && j <= k <= |events| && SameDay(events, j, k)
    requires states[j].budget.days != [] && day == B.Today(states[j].budget)
    ensures LaterThatDay(calendar, states[j], states[k], tenant, day)
  {
    if j == k {
      DayStarts(calendar, states[j], tenant, day);
    } else {
      var i := k - 1;
      DayRemembers(setup, states, events, calendar, j, i, tenant, day);
      RunStaysInDay(setup, states, events, calendar, j, i, tenant, day);
      assert i + 1 == k;
    }
  }

  lemma StepKeepsDays(setup: Setup, s: State, e: Event)
    requires Enabled(setup, s, e) && !e.NewDay?
    ensures Next(setup, s, e).budget.days == s.budget.days
  {
    StepsFollowBudgetProtocol(setup, s, e);
  }

  lemma WithinOneDay(calendar: int -> string, times: seq<int>, m: nat, day: string) returns (lo: int)
    requires Injective(calendar) && forall i :: m <= i < |times| ==> calendar(times[i] / DAY) == day
    ensures AllWithin(times, m, lo, lo + (DAY - 1))
  {
    lo := 0;
    if m < |times| {
      lo := times[m] / DAY * DAY;
      forall i | m <= i < |times| ensures lo <= times[i] <= lo + (DAY - 1) {
        assert calendar(times[i] / DAY) == calendar(times[m] / DAY);
      }
    }
  }

  /** In one day the limiter lets in no more of a tenant's requests than a saturated bucket passes in a day. */
  lemma LetInDuringDay(setup: Setup, limits: RL.Limits, states: seq<State>, events: seq<Event>, calendar: int -> string,
                       j: nat, k: nat, tenant: string)
    requires Run(setup, states, events) && OneClock(calendar, states, events) && Injective(calendar)
    requires j <= k <= |events| && SameDay(events, j, k) && states[j].budget.days != []
    requires setup.limiter == Some(limits) && limits.For(TenantOf(tenant)).enabled && Sound(limits.For(TenantOf(tenant)))
    ensures LetIn(states[k].reqs, tenant) - LetIn(states[j].reqs, tenant) <= MostPassed(limits.For(TenantOf(tenant)), DAY - 1)
  {
    var who, day := TenantOf(tenant), B.Today(states[j].budget);
    var before, own := Own(states[j].reqs, who), Own(states[k].reqs, who);
    DayRemembers(setup, states, events, calendar, j, k, who, day);
    RunKeepsTracking(setup, limits, states, events, k, who);
    SplitAt(Passes(before), Passes(own));
    var lo := WithinOneDay(calendar, Times(own), |before|, day);
    WindowPassesAtMost(limits.For(who), Times(own), |before|, lo, DAY - 1);
  }

  lemma SplitAt(a: seq<bool>, b: seq<bool>)
    requires a <= b
    ensures Count(b) == Count(a) + Count(b[|a|..])
  {
    CountSplit(a, b[|a|..]);
    assert a + b[|a|..] == b;
  }

  /** State `j` is the first of its day. */
  ghost predicate DayBegins(events: seq<Event>, j: nat)
    requires j <= |events|
  {
    j == 0 || events[j - 1].NewDay?
  }

  lemma SpendStaysFresh(setup: Setup, states: seq<State>, events: seq<Event>, k: nat, tenant: string)
    requires Run(setup, states, events) && k < |states| && setup.budgets.For(tenant).daily > 0.0
    ensures states[k].budget.days != [] && B.Fresh(states[k].budget, tenant)
  {
    forall j | 0 <= j < |states| ensures B.InFlight(states[j].budget.slots, tenant) <= |states| {
      OneRequestAtATime(setup, states, events, j);
      InFlightFitsSlots(states[j].budget.slots, tenant);
    }
    RunKeepsBudgetInv(setup, states, events, k, tenant, |states|);
  }

  lemma DayStartsUnspent(setup: Setup, states: seq<State>, events: seq<Event>, j: nat, tenant: string)
    requires Run(setup, states, events) && j < |states| && setup.budgets.For(tenant).daily > 0.0 && DayBegins(events, j)
    ensures states[j].budget.days != [] && B.Net(states[j].budget, tenant, B.Today(states[j].budget)) == 0.0
  {
    if j > 0 {
      SpendStaysFresh(setup, states, events, j - 1, tenant);
      StateAt(setup, states, events, j);
    }
  }

  /**
   Both gates together, on any clock that does not return to a past day: what a tenant spends on a
   day, overruns aside, is at most one estimate for each request it had unfinished when the day began
   and for each that the limiter can let in within a day.
   */
  lemma BothGatesBoundTheDay(setup: Setup, limits: RL.Limits, states: seq<State>, events: seq<Event>, calendar: int -> string,
                             j: nat, k: nat, tenant: string)
    requires Run(setup, states, events) && OneClock(calendar, states, events) && Injective(calendar)
    requires j <= k <= |events| && DayBegins(events, j) && SameDay(events, j, k) && setup.budgets.For(tenant).daily > 0.0
    requires setup.limiter == Some(limits) && limits.For(TenantOf(tenant)).enabled && Sound(limits.For(TenantOf(tenant)))
    ensures states[k].budget.days != [] && Unfinished(states[j].reqs, tenant) >= 0
    ensures B.Net(states[k].budget, tenant, B.Today(states[k].budget))
         <= (Unfinished(states[j].reqs, tenant) + MostPassed(limits.For(TenantOf(tenant)), DAY - 1)) as real
            * B.LargestEstimate(setup.budgets.For(tenant))
  {
    var limit := limits.For(TenantOf(tenant));
    DayStartsUnspent(setup, states, events, j, tenant);
    DayGoesOn(setup, states, events, calendar, j, k);
    LetInDuringDay(setup, limits, states, events, calendar, j, k, tenant);
    UnfinishedIsNatural(states[j].reqs, tenant);
    MostPassedGrows(limit, 0, DAY - 1);
    var n := Unfinished(states[j].reqs, tenant) + MostPassed(limit, DAY - 1);
    SpendFitsRequests(setup, states, events, j, k, tenant, B.Today(states[j].budget), n);
  }

  lemma DayGoesOn(setup: Setup, states: seq<State>, events: seq<Event>, calendar: int -> string, j: nat, k: nat)
    requires Run(setup, states, events) && OneClock(calendar, states, events) && j <= k <= |events| && SameDay(events, j, k)
    requires states[j].budget.days != []
    ensures states[k].budget.days == states[j].budget.days
  {
    DayRemembers(setup, states, events, calendar, j, k, "", B.Today(states[j].budget));
  }
}
