/** Over every run of the gateway: what the budget bounds, and when there are no overruns. */
module GatewayBudget {
  import opened Tenancy
  import opened Ledger
  import opened Pricing
  import opened Gateway
  import B = BudgetProtocol

  // ---------------------------------------------------------------------------------------------
  // Budget safety of the whole gateway
  // ---------------------------------------------------------------------------------------------

  lemma StepKeepsBudgetInv(setup: Setup, s: State, e: Event, tenant: string, most: int)
    requires Enabled(setup, s, e) && setup.budgets.For(tenant).daily > 0.0
    requires B.Inv(setup.budgets, most, s.budget, tenant)
    requires B.InFlight(s.budget.slots, tenant) <= most && B.InFlight(Next(setup, s, e).budget.slots, tenant) <= most
    ensures B.Inv(setup.budgets, most, Next(setup, s, e).budget, tenant)
  {
    StepsFollowBudgetProtocol(setup, s, e);
    var be := BudgetEvent(setup, s, e);
    if be.Some? {
      B.StepKeepsInv(setup.budgets, most, s.budget, be.value, tenant);
    }
  }

  lemma {:induction false} RunKeepsBudgetInv(setup: Setup, states: seq<State>, events: seq<Event>, k: nat, tenant: string, most: int)
    requires Run(setup, states, events) && k < |states|
    requires setup.budgets.For(tenant).daily > 0.0 && most >= 1
    requires forall j :: 0 <= j < |states| ==> B.InFlight(states[j].budget.slots, tenant) <= most
    ensures B.Inv(setup.budgets, most, states[k].budget, tenant)
  {
    if k == 0 {
      var day :| states[0] == Init(day);
      B.InvAtStart(setup.budgets, most, tenant, day);
    } else {
      RunKeepsBudgetInv(setup, states, events, k - 1, tenant, most);
      StateAt(setup, states, events, k);
      StepKeepsBudgetInv(setup, states[k - 1], events[k - 1], tenant, most);
    }
  }

  /**
   The budget bound holds of the gateway itself, whatever its requests do: with at most `most` of a
   tenant's requests between budget check and charge, every day's ledger spend stays within the
   ceiling plus that day's overruns.
   */
  lemma GatewayBudgetSafety(setup: Setup, states: seq<State>, events: seq<Event>, k: nat, tenant: string, most: int, day: string)
    requires Run(setup, states, events) && k < |states|
    requires setup.budgets.For(tenant).daily > 0.0 && most >= 1
    requires forall j :: 0 <= j < |states| ==> B.InFlight(states[j].budget.slots, tenant) <= most
    ensures Spend(states[k].budget.rows, tenant, day)
         <= B.Ceiling(setup.budgets.For(tenant), most) + Spend(states[k].budget.overrun, tenant, day)
  {
    RunKeepsBudgetInv(setup, states, events, k, tenant, most);
    assert B.Net(states[k].budget, tenant, day) <= B.Ceiling(setup.budgets.For(tenant), most);
  }

  // ---------------------------------------------------------------------------------------------
  // No overrun
  // ---------------------------------------------------------------------------------------------

  predicate IsOf(req: Req, tenant: string) {
    TenantOf(req.tenant) == TenantOf(tenant)
  }

  /** The tenant's estimates in force were made at prices `p`. */
  ghost predicate PricedAt(s: State, tenant: string, p: Prices) {
    forall i :: 0 <= i < |s.reqs| && IsOf(s.reqs[i], tenant) && (s.reqs[i].phase.Funded? || s.reqs[i].phase.Answered?) ==>
      s.reqs[i].phase.estimate == EstimateOf(p, s.reqs[i].phase.order)
  }

  ghost predicate NoOverrun(s: State, tenant: string) {
    forall day :: Spend(s.budget.overrun, tenant, day) == 0.0
  }

  /** For the tenant's requests prices do not change, and a reply is streamed or no longer than asked for. */
  ghost predicate Predictable(s: State, e: Event, tenant: string, p: Prices) {
    match e
    case Fund(i, prices, _, _) => i < |s.reqs| && IsOf(s.reqs[i], tenant) ==> prices == p
    case Settle(i, prices, _, _) =>
      i < |s.reqs| && IsOf(s.reqs[i], tenant) && s.reqs[i].phase.Answered? ==>
        && prices == p
        && (s.reqs[i].phase.reply.Reply? && !s.reqs[i].phase.reply.streaming ==>
              s.reqs[i].phase.reply.completionTokens <= CompletionAllowance(s.reqs[i].phase.order))
    case _ => true
  }

  /** A predictable charge, a streamed one in particular, never exceeds its estimate. */
  lemma PredictableChargeFitsEstimate(setup: Setup, s: State, e: Event, tenant: string, p: Prices)
    requires Enabled(setup, s, e) && e.Settle? && IsOf(s.reqs[e.i], tenant)
    requires Predictable(s, e, tenant, p) && PricedAt(s, tenant, p)
    ensures ActualOf(p, s.reqs[e.i].phase.order, s.reqs[e.i].phase.reply) <= s.reqs[e.i].phase.estimate
    ensures B.Excess(ActualOf(p, s.reqs[e.i].phase.order, s.reqs[e.i].phase.reply), s.budget.slots[e.i].estimate) == 0.0
  {
    var phase := s.reqs[e.i].phase;
    PriceIsMonotone(p, phase.order.model, phase.order.promptTokens, CompletionOf(phase.reply), CompletionAllowance(phase.order));
    assert SlotMatches(s.reqs[e.i], s.budget.slots[e.i]);
  }

  lemma StepKeepsPricing(setup: Setup, s: State, e: Event, tenant: string, p: Prices)
    requires Enabled(setup, s, e) && Predictable(s, e, tenant, p) && PricedAt(s, tenant, p)
    ensures PricedAt(Next(setup, s, e), tenant, p)
  {
    if !e.Arrive? && !e.NewDay? {
      StepMoves(setup, s, e);
      if IsOf(s.reqs[e.i], tenant) {
        StepKeepsOwnPricing(setup, s, e, Next(setup, s, e), tenant, p);
      }
    }
  }

  lemma StepKeepsOwnPricing(setup: Setup, s: State, e: Event, s': State, tenant: string, p: Prices)
    requires Enabled(setup, s, e) && !e.Arrive? && !e.NewDay? && IsOf(s.reqs[e.i], tenant)
    requires Predictable(s, e, tenant, p) && PricedAt(s, tenant, p)
    requires s' == Next(setup, s, e) && |s'.reqs| == |s.reqs|
    ensures var phase := s'.reqs[e.i].phase;
            phase.Funded? || phase.Answered? ==> phase.estimate == EstimateOf(p, phase.order)
  {
  }

  lemma StepKeepsNoOverrun(setup: Setup, s: State, e: Event, tenant: string, p: Prices)
    requires Enabled(setup, s, e) && Predictable(s, e, tenant, p) && PricedAt(s, tenant, p) && NoOverrun(s, tenant)
    ensures NoOverrun(Next(setup, s, e), tenant)
  {
    StepsFollowBudgetProtocol(setup, s, e);
    if e.Settle? {
      assert SlotMatches(s.reqs[e.i], s.budget.slots[e.i]);
      if IsOf(s.reqs[e.i], tenant) {
        PredictableChargeFitsEstimate(setup, s, e, tenant, p);
      }
    }
  }

  lemma {:induction false} RunHasNoOverrun(setup: Setup, states: seq<State>, events: seq<Event>, k: nat, tenant: string, p: Prices)
    requires Run(setup, states, events) && k < |states|
    requires forall j :: 0 <= j < k ==> Predictable(states[j], events[j], tenant, p)
    ensures PricedAt(states[k], tenant, p) && NoOverrun(states[k], tenant)
  {
    if k > 0 {
      RunHasNoOverrun(setup, states, events, k - 1, tenant, p);
      StateAt(setup, states, events, k);
      StepKeepsPricing(setup, states[k - 1], events[k - 1], tenant, p);
      StepKeepsNoOverrun(setup, states[k - 1], events[k - 1], tenant, p);
    }
  }

  /** With stable prices and replies no longer than asked for, the ceiling holds outright, whatever other tenants do. */
  lemma CeilingHoldsWhenPredictable(setup: Setup, states: seq<State>, events: seq<Event>, k: nat, p: Prices,
                                    tenant: string, most: int, day: string)
    requires Run(setup, states, events) && k < |states|
    requires forall j :: 0 <= j < k ==> Predictable(states[j], events[j], tenant, p)
    requires setup.budgets.For(tenant).daily > 0.0 && most >= 1
    requires forall j :: 0 <= j < |states| ==> B.InFlight(states[j].budget.slots, tenant) <= most
    ensures Spend(states[k].budget.rows, tenant, day) <= B.Ceiling(setup.budgets.For(tenant), most)
  {
    RunHasNoOverrun(setup, states, events, k, tenant, p);
    GatewayBudgetSafety(setup, states, events, k, tenant, most, day);
  }
}
