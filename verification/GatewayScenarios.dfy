/** Building runs of the gateway: one request after another, taken from arrival to its answer. */
module GatewayScenarios {
  import opened Sequences
  import opened Tenancy
  import opened Ledger
  import opened Pricing
  import opened Routing
  import opened Gateway
  import RL = RateLimiter
  import CT = CostTracker
  import B = BudgetProtocol

  lemma RunIsWellFormed(setup: Setup, states: seq<State>, events: seq<Event>)
    requires Run(setup, states, events)
    ensures WellFormed(states[|events|])
  {
    if events != [] {
      StateAt(setup, states, events, |events|);
    }
  }

  lemma OneMoreStep(setup: Setup, states: seq<State>, events: seq<Event>, e: Event)
    requires Run(setup, states, events) && Enabled(setup, states[|events|], e)
    ensures Run(setup, states + [Next(setup, states[|events|], e)], events + [e])
  {
    var ss, es := states + [Next(setup, states[|events|], e)], events + [e];
    assert ss[0] == states[0];
    forall k | 0 <= k < |es| ensures Enabled(setup, ss[k], es[k]) && ss[k + 1] == Next(setup, ss[k], es[k]) {
      if k < |events| {
        assert ss[k] == states[k] && ss[k + 1] == states[k + 1] && es[k] == events[k];
      }
    }
  }

  /** The limiter lets the tenant through at this moment. */
  ghost predicate LetThrough(setup: Setup, s: State, tenantId: string, now: int) {
    LimiterAnswer(setup, s.buckets, TenantOf(tenantId), now).0
  }

  /** The budget check would pass for this order at these prices. */
  ghost predicate Affordable(setup: Setup, s: State, tenantId: string, order: Order, prices: Prices) {
    && s.budget.days != [] && NonNegativePrices(prices)
    && var tenant := TenantOf(tenantId);
       CT.Decide(setup.budgets.For(tenant), tenant, Spend(s.budget.rows, tenant, B.Today(s.budget)),
                 EstimateOf(prices, order)).allowed
  }

  // ---------------------------------------------------------------------------------------------
  // From arrival to reply
  // ---------------------------------------------------------------------------------------------

  /** Since `s`, one request has come; nothing else has changed that anybody is charged for. */
  ghost predicate Joined(s: State, s': State, req: Req, slot: B.Slot) {
    && s'.reqs == s.reqs + [req]
    && s'.budget == s.budget.(slots := s.budget.slots + [slot])
    && s'.audit == s.audit
  }

  lemma Arrives(setup: Setup, s: State, tenantId: string, now: int) returns (e: Event)
    requires WellFormed(s) && LetThrough(setup, s, tenantId, now)
    ensures Enabled(setup, s, e) && e == Arrive(tenantId, now, true)
    ensures Joined(s, Next(setup, s, e), Req(TenantOf(tenantId), now, Admitted), B.Idle(TenantOf(tenantId)))
  {
    e := Arrive(tenantId, now, true);
  }

  lemma IsCleared(setup: Setup, s: State, s1: State, tenant: string, now: int, order: Order) returns (e: Event)
    requires WellFormed(s) && WellFormed(s1) && Joined(s, s1, Req(tenant, now, Admitted), B.Idle(tenant))
    ensures Enabled(setup, s1, e) && e.Screen?
    ensures Joined(s, Next(setup, s1, e), Req(tenant, now, Screened(order)), B.Idle(tenant))
  {
    e := Screen(|s.reqs|, Cleared(order), true);
  }

  lemma IsFunded(setup: Setup, s: State, s2: State, tenantId: string, now: int, order: Order, prices: Prices) returns (e: Event)
    requires WellFormed(s) && WellFormed(s2) && Affordable(setup, s, tenantId, order, prices)
    requires Joined(s, s2, Req(TenantOf(tenantId), now, Screened(order)), B.Idle(TenantOf(tenantId)))
    ensures Enabled(setup, s2, e) && e.Fund?
    ensures Joined(s, Next(setup, s2, e), Req(TenantOf(tenantId), now, Funded(order, EstimateOf(prices, order))),
                   B.Open(TenantOf(tenantId), EstimateOf(prices, order)))
  {
    var n := |s.reqs|;
    e := Fund(n, prices, false, true);
    assert BudgetAllows(setup, s2, n, EstimateOf(prices, order));
  }

  lemma IsAnswered(setup: Setup, s: State, s3: State, tenant: string, now: int, order: Order, estimate: real, attempts: seq<Attempt>)
    returns (e: Event)
    requires WellFormed(s) && WellFormed(s3)
    requires Joined(s, s3, Req(tenant, now, Funded(order, estimate)), B.Open(tenant, estimate))
    requires |attempts| == |CandidatesOf(setup.providers, order.model)| && ReplyOf(attempts).Some?
    ensures Enabled(setup, s3, e) && e.Dispatch?
    ensures Joined(s, Next(setup, s3, e),
                   Req(tenant, now, Answered(order, estimate, TriesOf(attempts), ReplyOf(attempts).value)), B.Open(tenant, estimate))
  {
    e := Dispatch(|s.reqs|, attempts, true);
  }

  lemma TakesToCheck(setup: Setup, states: seq<State>, events: seq<Event>, tenantId: string, now: int, order: Order)
    returns (states': seq<State>, events': seq<Event>)
    requires Run(setup, states, events) && LetThrough(setup, states[|events|], tenantId, now)
    ensures Run(setup, states', events') && |events'| == |events| + 2 && Extends(states, states')
    ensures Extends(events, events') && events'[|events|] == Arrive(tenantId, now, true) && events'[|events| + 1].Screen?
    ensures WellFormed(states[|events|]) && WellFormed(states'[|events'|])
    ensures var n, tenant := |events|, TenantOf(tenantId);
            && states'[n + 1].budget.slots == states[n].budget.slots + [B.Idle(tenant)]
            && Joined(states[n], states'[n + 2], Req(tenant, now, Screened(order)), B.Idle(tenant))
  {
    var s := states[|events|];
    RunIsWellFormed(setup, states, events);
    var e := Arrives(setup, s, tenantId, now);
    states', events' := Stepped(setup, states, events, e);
    e := IsCleared(setup, s, states'[|events'|], TenantOf(tenantId), now, order);
    states', events' := Stepped(setup, states', events', e);
  }

  lemma TakesFromCheck(setup: Setup, states: seq<State>, events: seq<Event>, s: State, tenantId: string, now: int,
                       order: Order, prices: Prices, attempts: seq<Attempt>)
    returns (states': seq<State>, events': seq<Event>)
    requires Run(setup, states, events) && WellFormed(s) && WellFormed(states[|events|])
    requires Joined(s, states[|events|], Req(TenantOf(tenantId), now, Screened(order)), B.Idle(TenantOf(tenantId)))
    requires Affordable(setup, s, tenantId, order, prices)
    requires |attempts| == |CandidatesOf(setup.providers, order.model)| && ReplyOf(attempts).Some?
    ensures Run(setup, states', events') && |events'| == |events| + 2 && Extends(states, states')
    ensures Extends(events, events') && events'[|events|].Fund? && events'[|events| + 1].Dispatch?
    ensures var n, tenant, estimate := |events|, TenantOf(tenantId), EstimateOf(prices, order);
            && states'[n + 1].budget.slots == s.budget.slots + [B.Open(tenant, estimate)]
            && Joined(s, states'[n + 2],
                      Req(tenant, now, Answered(order, estimate, TriesOf(attempts), ReplyOf(attempts).value)), B.Open(tenant, estimate))
  {
    var e := IsFunded(setup, s, states[|events|], tenantId, now, order, prices);
    states', events' := Stepped(setup, states, events, e);
    e := IsAnswered(setup, s, states'[|events'|], TenantOf(tenantId), now, order, EstimateOf(prices, order), attempts);
    states', events' := Stepped(setup, states', events', e);
  }

  /** Four steps take a request that passes every gate from its arrival to its reply. */
  lemma TakesToReply(setup: Setup, states: seq<State>, events: seq<Event>, tenantId: string, now: int,
                     order: Order, prices: Prices, attempts: seq<Attempt>)
    returns (states': seq<State>, events': seq<Event>)
    requires Run(setup, states, events) && LetThrough(setup, states[|events|], tenantId, now)
    requires Affordable(setup, states[|events|], tenantId, order, prices)
    requires |attempts| == |CandidatesOf(setup.providers, order.model)| && ReplyOf(attempts).Some?
    ensures Run(setup, states', events') && |events'| == |events| + 4 && Extends(states, states')
    ensures Extends(events, events') && events'[|events|] == Arrive(tenantId, now, true)
    ensures events'[|events| + 1].Screen? && events'[|events| + 2].Fund? && events'[|events| + 3].Dispatch?
    ensures var n, tenant, estimate := |events|, TenantOf(tenantId), EstimateOf(prices, order);
            && states'[n + 1].budget.slots == states'[n + 2].budget.slots == states[n].budget.slots + [B.Idle(tenant)]
            && states'[n + 3].budget.slots == states[n].budget.slots + [B.Open(tenant, estimate)]
            && Joined(states[n], states'[n + 4],
                      Req(tenant, now, Answered(order, estimate, TriesOf(attempts), ReplyOf(attempts).value)), B.Open(tenant, estimate))
  {
    var mid, soFar := TakesToCheck(setup, states, events, tenantId, now, order);
    states', events' := TakesFromCheck(setup, mid, soFar, states[|events|], tenantId, now, order, prices, attempts);
  }

  lemma Stepped(setup: Setup, states: seq<State>, events: seq<Event>, e: Event) returns (states': seq<State>, events': seq<Event>)
    requires Run(setup, states, events) && Enabled(setup, states[|events|], e)
    ensures Run(setup, states', events') && events' == events + [e]
    ensures states' == states + [Next(setup, states[|events|], e)] && WellFormed(states'[|events'|])
  {
    OneMoreStep(setup, states, events, e);
    states', events' := states + [Next(setup, states[|events|], e)], events + [e];
    RunIsWellFormed(setup, states', events');
  }
}
