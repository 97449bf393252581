/**
 When a tenant can spend the whole ceiling of its budget in a day of the gateway: exactly when there is
 a provider and the limiter can let in as many requests within that day as the ceiling takes.
 */
module GatewayCeiling {
  import opened Wrappers
  import opened Sequences
  import opened Tenancy
  import opened Ledger
  import opened Pricing
  import opened Routing
  import opened TokenBucket
  import opened Saturation
  import opened Gateway
  import opened GatewayAdmission
  import opened GatewayScenarios
  import opened GatewayDay
  import RL = RateLimiter
  import CT = CostTracker
  import B = BudgetProtocol

  /** No limiter, or none for this tenant. */
  predicate Unlimited(setup: Setup, tenant: string) {
    setup.limiter.None? || !setup.limiter.value.For(TenantOf(tenant)).enabled
  }

  function LimitOf(setup: Setup, tenant: string): Limit {
    if setup.limiter.None? then Limit(false, 0, 0) else setup.limiter.value.For(TenantOf(tenant))
  }

  /**
   A run, on one clock and with at most `most` of the tenant's requests between check and charge,
   that ends with the ceiling spent, and nothing overrun, on the day that began with state `j`, when
   none of the tenant's requests was unfinished.
   */
  ghost predicate FillsDay(setup: Setup, tenant: string, most: nat, calendar: int -> string,
                           states: seq<State>, events: seq<Event>, j: nat) {
    && Run(setup, states, events) && OneClock(calendar, states, events)
    && j <= |events| && DayBegins(events, j) && SameDay(events, j, |events|)
    && Unfinished(states[j].reqs, tenant) == 0
    && (forall i :: 0 <= i < |states| ==> B.InFlight(states[i].budget.slots, tenant) <= most)
    && states[|events|].budget.days != []
    && var budget, today := states[|events|].budget, B.Today(states[|events|].budget);
       && Spend(budget.rows, tenant, today) == B.Ceiling(setup.budgets.For(tenant), most)
       && Spend(budget.overrun, tenant, today) == 0.0
  }

  /** Something to call, and enough requests let in. */
  ghost predicate EnoughLetIn(setup: Setup, tenant: string, most: nat)
    requires setup.budgets.For(tenant).daily > 0.0
  {
    && setup.providers != []
    && (Unlimited(setup, tenant)
        || B.RequestsNeeded(setup.budgets.For(tenant), most) <= MostPassed(LimitOf(setup, tenant), DAY - 1))
  }

  // ---------------------------------------------------------------------------------------------
  // It is needed
  // ---------------------------------------------------------------------------------------------

  /** Without a provider nothing is ever answered, and nothing charged. */
  ghost predicate NothingAnswered(s: State) {
    && (forall i :: 0 <= i < |s.reqs| ==> !s.reqs[i].phase.Answered?)
    && s.budget.rows == map[]
  }

  lemma NoCandidates(model: string)
    ensures CandidatesOf([], model) == []
  {
  }

  lemma StepAnswersNothing(setup: Setup, s: State, e: Event)
    requires Enabled(setup, s, e) && setup.providers == [] && NothingAnswered(s)
    ensures NothingAnswered(Next(setup, s, e))
  {
    StepsFollowBudgetProtocol(setup, s, e);
    if !e.Arrive? && !e.NewDay? {
      StepMoves(setup, s, e);
      if e.Dispatch? {
        NoCandidates(s.reqs[e.i].phase.order.model);
        assert ReplyOf(e.attempts) == None;
      }
    }
  }

  lemma {:induction false} RunAnswersNothing(setup: Setup, states: seq<State>, events: seq<Event>, k: nat)
    requires Run(setup, states, events) && k < |states| && setup.providers == []
    ensures NothingAnswered(states[k])
  {
    if k > 0 {
      RunAnswersNothing(setup, states, events, k - 1);
      StateAt(setup, states, events, k);
      StepAnswersNothing(setup, states[k - 1], events[k - 1]);
    }
  }

  lemma CeilingIsPositive(budget: CT.Budget, most: nat)
    requires budget.daily > 0.0 && most >= 1
    ensures B.Ceiling(budget, most) > 0.0
  {
    B.CeilingCoversFlight(budget, most, 1);
  }

  lemma FilledNeedsProvider(setup: Setup, tenant: string, most: nat, calendar: int -> string,
                            states: seq<State>, events: seq<Event>, j: nat)
    requires setup.budgets.For(tenant).daily > 0.0 && most >= 1 && FillsDay(setup, tenant, most, calendar, states, events, j)
    ensures setup.providers != []
  {
    CeilingIsPositive(setup.budgets.For(tenant), most);
    if setup.providers == [] {
      RunAnswersNothing(setup, states, events, |events|);
    }
  }

  lemma BothGatesFromScratch(setup: Setup, limits: RL.Limits, states: seq<State>, events: seq<Event>, calendar: int -> string,
                             j: nat, k: nat, tenant: string)
    requires Run(setup, states, events) && OneClock(calendar, states, events) && Injective(calendar)
    requires j <= k <= |events| && DayBegins(events, j) && SameDay(events, j, k) && setup.budgets.For(tenant).daily > 0.0
    requires setup.limiter == Some(limits) && limits.For(TenantOf(tenant)).enabled && Sound(limits.For(TenantOf(tenant)))
    requires Unfinished(states[j].reqs, tenant) == 0
    ensures states[k].budget.days != []
    ensures B.Net(states[k].budget, tenant, B.Today(states[k].budget))
         <= MostPassed(limits.For(TenantOf(tenant)), DAY - 1) as real * B.LargestEstimate(setup.budgets.For(tenant))
  {
    BothGatesBoundTheDay(setup, limits, states, events, calendar, j, k, tenant);
  }

  lemma FilledNeedsRequests(setup: Setup, tenant: string, most: nat, calendar: int -> string,
                            states: seq<State>, events: seq<Event>, j: nat)
    requires setup.budgets.For(tenant).daily > 0.0 && FillsDay(setup, tenant, most, calendar, states, events, j)
    requires Injective(calendar) && !Unlimited(setup, tenant) && Sound(LimitOf(setup, tenant))
    ensures B.RequestsNeeded(setup.budgets.For(tenant), most) <= MostPassed(LimitOf(setup, tenant), DAY - 1)
  {
    var budget, n := setup.budgets.For(tenant), MostPassed(LimitOf(setup, tenant), DAY - 1);
    BothGatesFromScratch(setup, setup.limiter.value, states, events, calendar, j, |events|, tenant);
    EnoughForCeiling(budget, most, n, B.Net(states[|events|].budget, tenant, B.Today(states[|events|].budget)));
  }

  lemma EnoughForCeiling(budget: CT.Budget, most: nat, n: int, spent: real)
    requires budget.daily > 0.0 && spent == B.Ceiling(budget, most) && spent <= n as real * B.LargestEstimate(budget)
    ensures B.RequestsNeeded(budget, most) <= n
  {
    B.FewerFallShort(budget, most, n);
  }

  // ---------------------------------------------------------------------------------------------
  // It is enough
  // ---------------------------------------------------------------------------------------------

  const MILLION := 1_000_000

  /** An order for a million prompt tokens, and a feed that prices them at `estimate`. */
  function OrderFor(model: string): Order {
    Order(model, MILLION, 1)
  }

  function PricedFor(model: string, estimate: real): Prices {
    DefaultPrices()[model := ModelPrice(estimate, 0.0)]
  }

  lemma FeedPricesAreUsual(model: string, estimate: real)
    requires estimate >= 0.0
    ensures NonNegativePrices(PricedFor(model, estimate))
  {
  }

  lemma CostsExactly(model: string, estimate: real, completion: nat)
    ensures Price(PricedFor(model, estimate), model, MILLION, completion) == estimate
  {
    assert Listed(PricedFor(model, estimate), model) == ModelPrice(estimate, 0.0);
  }

  /** A model that some provider would be called for. */
  lemma SomeModel(providers: seq<Provider>) returns (model: string)
    requires providers != []
    ensures CandidatesOf(providers, model) != []
  {
    model := "";
    if providers[0].models != {} {
      model :| model in providers[0].models;
      assert Listing(providers, model)[0];
    } else {
      assert Unrestricted(providers)[0];
    }
    KeptIsEmptyIff(providers, Listing(providers, model));
    KeptIsEmptyIff(providers, Unrestricted(providers));
    if exists i :: 0 <= i < |providers| && model in providers[i].models {
      var i :| 0 <= i < |providers| && model in providers[i].models;
      assert Listing(providers, model)[i];
    }
  }

  /** Every candidate would stream a reply. */
  function Streamed(n: nat): (attempts: seq<Attempt>)
    requires n > 0
    ensures |attempts| == n && TriesOf(attempts) == 1 && ReplyOf(attempts) == Some(Reply(200, true, 0))
  {
    seq(n, _ => Reply(200, true, 0))
  }

  /** Times at which the limiter lets every one of the tenant's calls in, all on day zero. */
  ghost predicate Timetable(setup: Setup, tenant: string, ts: seq<int>) {
    AllWithin(ts, 0, 0, DAY - 1) && (Unlimited(setup, tenant) || AllPass(LimitOf(setup, tenant), ts))
  }

  lemma SomeTimetable(setup: Setup, tenant: string, supply: nat) returns (ts: seq<int>)
    requires Unlimited(setup, tenant) || (Sound(LimitOf(setup, tenant)) && supply <= MostPassed(LimitOf(setup, tenant), DAY - 1))
    ensures Timetable(setup, tenant, ts) && supply <= |ts|
  {
    if Unlimited(setup, tenant) {
      ts := AtOnce(supply, 0);
    } else {
      ts := SomeSchedule(LimitOf(setup, tenant), 0, DAY - 1, DAY - 1);
    }
  }

  /** All requests are the tenant's, came by the timetable, and are paid for or wait to be, for their prompt only. */
  ghost predicate OnTime(s: State, tenant: string, ts: seq<int>) {
    && |s.reqs| <= |ts|
    && forall i :: 0 <= i < |s.reqs| ==> PaidByPrompt(s.reqs[i], tenant, ts[i])
  }

  predicate PaidByPrompt(r: Req, tenant: string, at: int) {
    && r.tenant == TenantOf(tenant) && r.at == at
    && (r.phase.Done? || (r.phase.Answered? && r.phase.order.promptTokens == MILLION && CompletionOf(r.phase.reply) == 0))
  }

  lemma {:induction false} AllAreOwn(reqs: seq<Req>, tenant: string)
    requires forall i :: 0 <= i < |reqs| ==> reqs[i].tenant == tenant
    ensures Own(reqs, tenant) == reqs
  {
    if reqs != [] {
      AllAreOwn(reqs[..|reqs| - 1], tenant);
    }
  }

  /** The next call on the timetable is let in. */
  lemma NextIsLetIn(setup: Setup, states: seq<State>, events: seq<Event>, tenant: string, ts: seq<int>)
    requires Run(setup, states, events) && Timetable(setup, tenant, ts)
    requires OnTime(states[|events|], tenant, ts) && |states[|events|].reqs| < |ts|
    ensures LetThrough(setup, states[|events|], tenant, ts[|states[|events|].reqs|])
  {
    var s, who := states[|events|], TenantOf(tenant);
    var n := |s.reqs|;
    if setup.limiter.Some? {
      var limits := setup.limiter.value;
      RL.AllowStepIsLocal(limits, s.buckets, who, ts[n], who);
      if limits.For(who).enabled {
        RunKeepsTracking(setup, limits, states, events, |events|, who);
        AllAreOwn(s.reqs, who);
        assert Times(s.reqs) == ts[..n];
        DecisionAt(limits.For(who), ts, n);
      }
    }
  }

  // ---------------------------------------------------------------------------------------------
  // Runs by the timetable
  // ---------------------------------------------------------------------------------------------

  ghost predicate NoDayChange(events: seq<Event>) {
    forall i :: 0 <= i < |events| ==> !events[i].NewDay?
  }

  /** A run of day zero within `most` requests of the tenant in flight, and what it leaves of the budget. */
  ghost predicate Leaves(setup: Setup, tenant: string, most: int, calendar: int -> string, ts: seq<int>,
                         states: seq<State>, events: seq<Event>, b: B.State) {
    && Run(setup, states, events) && states[0] == Init(calendar(0)) && NoDayChange(events) && OneClock(calendar, states, events)
    && (forall j :: 0 <= j < |states| ==> B.InFlight(states[j].budget.slots, tenant) <= most)
    && states[|events|].budget == b && b.days == [calendar(0)] && OnTime(states[|events|], tenant, ts)
  }

  ghost predicate Attained(setup: Setup, tenant: string, most: int, calendar: int -> string, ts: seq<int>, b: B.State) {
    exists states, events :: Leaves(setup, tenant, most, calendar, ts, states, events, b)
  }

  lemma OpensAffordably(setup: Setup, s: State, tenant: string, most: int, model: string, estimate: real)
    requires B.MayOpen(setup.budgets, most, tenant, s.budget, estimate)
    ensures Affordable(setup, s, tenant, OrderFor(model), PricedFor(model, estimate))
    ensures EstimateOf(PricedFor(model, estimate), OrderFor(model)) == estimate
  {
    CostsExactly(model, estimate, 1);
    FeedPricesAreUsual(model, estimate);
    assert setup.budgets.For(TenantOf(tenant)) == setup.budgets.For(tenant);
  }

  lemma OneMoreInFlight(slots: seq<B.Slot>, tenant: string, estimate: real)
    ensures B.InFlight(slots + [B.Idle(TenantOf(tenant))], tenant) == B.InFlight(slots, tenant)
    ensures B.InFlight(slots + [B.Open(TenantOf(tenant), estimate)], tenant) == B.InFlight(slots, tenant) + 1
  {
    TotalAppend(slots, B.Idle(TenantOf(tenant)), B.OpenFor(tenant));
    TotalAppend(slots, B.Open(TenantOf(tenant), estimate), B.OpenFor(tenant));
  }

  /** The four steps of one more request keep within the bound. */
  lemma StaysWithin(states: seq<State>, states': seq<State>, tenant: string, most: int, estimate: real)
    requires 0 < |states| && |states'| == |states| + 4 && Extends(states, states')
    requires forall j :: 0 <= j < |states| ==> B.InFlight(states[j].budget.slots, tenant) <= most
    requires var n, slots := |states|, states[|states| - 1].budget.slots;
             && B.InFlight(slots, tenant) < most
             && states'[n].budget.slots == states'[n + 1].budget.slots == slots + [B.Idle(TenantOf(tenant))]
             && states'[n + 2].budget.slots == states'[n + 3].budget.slots == slots + [B.Open(TenantOf(tenant), estimate)]
    ensures forall j :: 0 <= j < |states'| ==> B.InFlight(states'[j].budget.slots, tenant) <= most
  {
    OneMoreInFlight(states[|states| - 1].budget.slots, tenant, estimate);
    forall j | 0 <= j < |states'| ensures B.InFlight(states'[j].budget.slots, tenant) <= most {
      if j < |states| {
        assert states'[j] == states[j];
      }
    }
  }

  /** They keep to the clock, and to the day. */
  lemma StaysOnClock(calendar: int -> string, states: seq<State>, events: seq<Event>, states': seq<State>, events': seq<Event>)
    requires OneClock(calendar, states, events) && NoDayChange(events)
    requires |events'| == |events| + 4 && |states'| == |events'| + 1 && Extends(states, states') && Extends(events, events')
    requires events'[|events|].Arrive? && states[|events|].budget.days != []
    requires calendar(events'[|events|].now / DAY) == B.Today(states[|events|].budget)
    requires events'[|events| + 1].Screen? && events'[|events| + 2].Fund? && events'[|events| + 3].Dispatch?
    ensures OneClock(calendar, states', events') && NoDayChange(events')
  {
    forall k | 0 <= k < |events'| && events'[k].Arrive?
      ensures states'[k].budget.days != [] && calendar(events'[k].now / DAY) == B.Today(states'[k].budget)
    {
      assert k <= |events|;
      assert states'[k] == states[k];
      if k < |events| {
        assert events'[k] == events[k];
      }
    }
    forall k | 0 <= k < |events'| ensures !events'[k].NewDay? {
      if k < |events| {
        assert events'[k] == events[k];
      }
    }
  }

  lemma JoinsOnTime(s: State, s': State, tenant: string, ts: seq<int>)
    requires OnTime(s, tenant, ts) && |s.reqs| < |ts| && |s'.reqs| == |s.reqs| + 1 && s'.reqs[..|s.reqs|] == s.reqs
    requires PaidByPrompt(s'.reqs[|s.reqs|], tenant, ts[|s.reqs|])
    ensures OnTime(s', tenant, ts)
  {
    forall i | 0 <= i < |s.reqs| ensures s'.reqs[i] == s.reqs[i] {
      assert s'.reqs[i] == s'.reqs[..|s.reqs|][i];
    }
  }

  /** What `TakesToReply` does to a run, with the next call on the timetable at a given estimate. */
  ghost predicate GoesOn(states: seq<State>, events: seq<Event>, states': seq<State>, events': seq<Event>,
                         tenant: string, at: int, estimate: real) {
    && |states| == |events| + 1 && |events'| == |events| + 4 && |states'| == |states| + 4
    && Extends(states, states') && Extends(events, events')
    && events'[|events|] == Arrive(tenant, at, true)
    && events'[|events| + 1].Screen? && events'[|events| + 2].Fund? && events'[|events| + 3].Dispatch?
    && var n, slots := |states|, states[|states| - 1].budget.slots;
       && states'[n].budget.slots == states'[n + 1].budget.slots == slots + [B.Idle(TenantOf(tenant))]
       && states'[n + 2].budget.slots == slots + [B.Open(TenantOf(tenant), estimate)]
       && states'[n + 3].budget == B.Opened(states[|events|].budget, tenant, estimate)
  }

  lemma NextIsAnswered(setup: Setup, states: seq<State>, events: seq<Event>, tenant: string, most: int, ts: seq<int>,
                       model: string, estimate: real)
    returns (states': seq<State>, events': seq<Event>)
    requires Run(setup, states, events) && Timetable(setup, tenant, ts) && CandidatesOf(setup.providers, model) != []
    requires OnTime(states[|events|], tenant, ts) && |states[|events|].reqs| < |ts|
    requires B.MayOpen(setup.budgets, most, tenant, states[|events|].budget, estimate)
    ensures Run(setup, states', events') && GoesOn(states, events, states', events', tenant, ts[|states[|events|].reqs|], estimate)
    ensures OnTime(states'[|events'|], tenant, ts)
  {
    var s := states[|events|];
    var now := ts[|s.reqs|];
    NextIsLetIn(setup, states, events, tenant, ts);
    OpensAffordably(setup, s, tenant, most, model, estimate);
    states', events' := TakesToReply(setup, states, events, tenant, now, OrderFor(model), PricedFor(model, estimate),
                                     Streamed(|CandidatesOf(setup.providers, model)|));
    JoinsOnTime(s, states'[|events'|], tenant, ts);
  }

  lemma GoingOnKeeps(calendar: int -> string, states: seq<State>, events: seq<Event>, states': seq<State>, events': seq<Event>,
                     tenant: string, most: int, at: int, estimate: real)
    requires GoesOn(states, events, states', events', tenant, at, estimate) && 0 <= at < DAY
    requires OneClock(calendar, states, events) && NoDayChange(events) && states[|events|].budget.days == [calendar(0)]
    requires forall j :: 0 <= j < |states| ==> B.InFlight(states[j].budget.slots, tenant) <= most
    requires B.InFlight(states[|events|].budget.slots, tenant) < most
    ensures OneClock(calendar, states', events') && NoDayChange(events') && states'[0] == states[0]
    ensures forall j :: 0 <= j < |states'| ==> B.InFlight(states'[j].budget.slots, tenant) <= most
  {
    StaysWithin(states, states', tenant, most, estimate);
    assert at / DAY == 0;
    StaysOnClock(calendar, states, events, states', events');
  }

  lemma MayOpenAgain(setup: Setup, tenant: string, most: int, calendar: int -> string, ts: seq<int>, model: string,
                     b: B.State, estimate: real)
    requires Timetable(setup, tenant, ts) && CandidatesOf(setup.providers, model) != []
    requires Attained(setup, tenant, most, calendar, ts, b) && |b.slots| < |ts| && B.MayOpen(setup.budgets, most, tenant, b, estimate)
    ensures Attained(setup, tenant, most, calendar, ts, B.Opened(b, tenant, estimate))
  {
    var states: seq<State>, events: seq<Event> :| Leaves(setup, tenant, most, calendar, ts, states, events, b);
    RunIsWellFormed(setup, states, events);
    var at := ts[|states[|events|].reqs|];
    var states', events' := NextIsAnswered(setup, states, events, tenant, most, ts, model, estimate);
    GoingOnKeeps(calendar, states, events, states', events', tenant, most, at, estimate);
    assert Leaves(setup, tenant, most, calendar, ts, states', events', B.Opened(b, tenant, estimate));
  }

  lemma ChargesEstimate(setup: Setup, s: State, tenant: string, ts: seq<int>, n: nat) returns (e: Event)
    requires WellFormed(s) && OnTime(s, tenant, ts) && B.MaySettle(s.budget, tenant, n)
    ensures e.Settle? && Enabled(setup, s, e) && Next(setup, s, e).budget == B.Settled(s.budget, n)
    ensures OnTime(Next(setup, s, e), tenant, ts)
  {
    assert SlotMatches(s.reqs[n], s.budget.slots[n]);
    assert PaidByPrompt(s.reqs[n], tenant, ts[n]);
    var phase := s.reqs[n].phase;
    CostsExactly(phase.order.model, phase.estimate, 0);
    FeedPricesAreUsual(phase.order.model, phase.estimate);
    e := Settle(n, PricedFor(phase.order.model, phase.estimate), NoFault, true);
    StepMoves(setup, s, e);
    SettlementFinishes(setup, s, e, Next(setup, s, e));
  }

  lemma SettlingKeeps(calendar: int -> string, states: seq<State>, events: seq<Event>, s': State, e: Event, tenant: string, most: int)
    requires OneClock(calendar, states, events) && NoDayChange(events) && e.Settle?
    requires forall j :: 0 <= j < |states| ==> B.InFlight(states[j].budget.slots, tenant) <= most
    requires B.InFlight(s'.budget.slots, tenant) <= most
    ensures OneClock(calendar, states + [s'], events + [e]) && NoDayChange(events + [e])
    ensures forall j :: 0 <= j < |states + [s']| ==> B.InFlight((states + [s'])[j].budget.slots, tenant) <= most
  {
    var es := events + [e];
    forall k | 0 <= k < |es| && es[k].Arrive?
      ensures (states + [s'])[k].budget.days != [] && calendar(es[k].now / DAY) == B.Today((states + [s'])[k].budget)
    {
      assert es[k] == events[k] && (states + [s'])[k] == states[k];
    }
  }

  lemma MaySettleAgain(setup: Setup, tenant: string, most: int, calendar: int -> string, ts: seq<int>, b: B.State, n: nat)
    requires Attained(setup, tenant, most, calendar, ts, b) && B.MaySettle(b, tenant, n)
    ensures Attained(setup, tenant, most, calendar, ts, B.Settled(b, n))
  {
    var states, events :| Leaves(setup, tenant, most, calendar, ts, states, events, b);
    RunIsWellFormed(setup, states, events);
    var e := ChargesEstimate(setup, states[|events|], tenant, ts, n);
    var states', events' := Stepped(setup, states, events, e);
    B.SlotChange(b, n, B.Closed(TenantOf(tenant)), tenant);
    SettlingKeeps(calendar, states, events, states'[|events'|], e, tenant, most);
    assert Leaves(setup, tenant, most, calendar, ts, states', events', B.Settled(b, n));
  }

  /** By a timetable with enough calls, some run of one day spends exactly the ceiling. */
  lemma TimetableFillsDay(setup: Setup, tenant: string, most: nat, calendar: int -> string, ts: seq<int>, model: string)
    returns (states: seq<State>, events: seq<Event>)
    requires setup.budgets.For(tenant).daily > 0.0 && most >= 1
    requires Timetable(setup, tenant, ts) && B.RequestsNeeded(setup.budgets.For(tenant), most) <= |ts|
    requires CandidatesOf(setup.providers, model) != []
    ensures FillsDay(setup, tenant, most, calendar, states, events, 0)
  {
    ghost var reach := (b: B.State) => Attained(setup, tenant, most, calendar, ts, b);
    forall b: B.State, estimate | reach(b) && |b.slots| < |ts| && B.MayOpen(setup.budgets, most, tenant, b, estimate)
      ensures reach(B.Opened(b, tenant, estimate))
    {
      MayOpenAgain(setup, tenant, most, calendar, ts, model, b, estimate);
    }
    forall b: B.State, n: nat | reach(b) && B.MaySettle(b, tenant, n) ensures reach(B.Settled(b, n)) {
      MaySettleAgain(setup, tenant, most, calendar, ts, b, n);
    }
    assert Leaves(setup, tenant, most, calendar, ts, [Init(calendar(0))], [], B.Init(calendar(0)));
    var b := B.CeilingInEveryClosedSet(reach, setup.budgets, most, tenant, |ts|, calendar(0));
    states, events :| Leaves(setup, tenant, most, calendar, ts, states, events, b);
  }

  /**
   The budget's bound is exact for the gateway under exactly one condition, on any budgets, limits and
   providers: a tenant can spend the whole ceiling, without an overrun, on a day it enters with no
   request unfinished, if and only if there is a provider and either no limit or one that can let in
   within a day the requests this takes.
   */
  lemma CeilingIsReachedExactlyWhen(setup: Setup, tenant: string, most: nat, calendar: int -> string)
    requires setup.budgets.For(tenant).daily > 0.0 && most >= 1
    requires Injective(calendar) && (Unlimited(setup, tenant) || Sound(LimitOf(setup, tenant)))
    ensures (exists states, events, j :: FillsDay(setup, tenant, most, calendar, states, events, j))
       <==> EnoughLetIn(setup, tenant, most)
  {
    if states, events, j :| FillsDay(setup, tenant, most, calendar, states, events, j) {
      FilledNeedsProvider(setup, tenant, most, calendar, states, events, j);
      if !Unlimited(setup, tenant) {
        FilledNeedsRequests(setup, tenant, most, calendar, states, events, j);
      }
    }
    if EnoughLetIn(setup, tenant, most) {
      var ts := SomeTimetable(setup, tenant, B.RequestsNeeded(setup.budgets.For(tenant), most));
      var model := SomeModel(setup.providers);
      var states, events := TimetableFillsDay(setup, tenant, most, calendar, ts, model);
    }
  }

  /**
   A limit that keeps a tenant below its ceiling: one request a minute, one at a time, and a budget of
   a million dollars at a dollar a request. No run spends it in a day.
   */
  lemma LimiterMayCapSpend(setup: Setup, tenant: string, calendar: int -> string, states: seq<State>, events: seq<Event>, j: nat)
    requires setup.budgets.For(tenant) == CT.Budget(1_000_000.0, 1.0)
    requires !Unlimited(setup, tenant) && LimitOf(setup, tenant).rpm == 1 && LimitOf(setup, tenant).burst == 1
    requires Injective(calendar)
    ensures MostPassed(LimitOf(setup, tenant), DAY - 1) == 1440
    ensures !FillsDay(setup, tenant, 1, calendar, states, events, j)
  {
    MostPassedOneAtATime(LimitOf(setup, tenant), DAY - 1);
    assert B.RequestsNeeded(setup.budgets.For(tenant), 1) == 1_000_000;
    CeilingIsReachedExactlyWhen(setup, tenant, 1, calendar);
  }
}
