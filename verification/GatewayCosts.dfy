/** Over every run of the gateway: what is charged against what is audited. */
module GatewayCosts {
  import opened Wrappers
  import opened Sequences
  import opened Tenancy
  import opened Ledger
  import opened Pricing
  import opened Routing
  import opened Gateway
  import opened GatewayScenarios
  import CT = CostTracker
  import B = BudgetProtocol

  // ---------------------------------------------------------------------------------------------
  // Audit against ledger
  // ---------------------------------------------------------------------------------------------

  function CostFor(tenant: string): AuditEvent -> real {
    (event: AuditEvent) => if TenantOf(event.tenant) == TenantOf(tenant) then event.costUsd else 0.0
  }

  function DaySpend(rows: Rows, tenant: string): string -> real {
    (day: string) => Spend(rows, tenant, day)
  }

  /** What the audit log says a tenant cost. */
  function AuditedCost(s: State, tenant: string): real {
    Sum(s.audit, CostFor(tenant))
  }

  /** What the ledger says a tenant spent, over all days. */
  function LedgerSpend(s: State, tenant: string): real {
    Sum(s.budget.days, DaySpend(s.budget.rows, tenant))
  }

  ghost predicate DistinctDays(days: seq<string>) {
    forall i, j :: 0 <= i < j < |days| ==> days[i] != days[j]
  }

  ghost predicate SpendOnKnownDays(s: State, tenant: string) {
    forall day :: day !in s.budget.days ==> Spend(s.budget.rows, tenant, day) == 0.0
  }

  lemma {:induction false} SumOfDays(days: seq<string>, rows: Rows, who: string, day: string, amount: real, tenant: string)
    requires DistinctDays(days)
    ensures Sum(days, DaySpend(Upsert(rows, who, day, amount), tenant)) == Sum(days, DaySpend(rows, tenant))
              + (if day in days && TenantOf(who) == TenantOf(tenant) then amount else 0.0)
  {
    if days != [] {
      var n := |days| - 1;
      SumOfDays(days[..n], rows, who, day, amount, tenant);
      assert day in days <==> day in days[..n] || day == days[n];
      assert days[n] !in days[..n];
    }
  }

  /** Event `e` settles a request of the tenant. */
  ghost predicate SettlesFor(s: State, e: Event, tenant: string) {
    e.Settle? && e.i < |s.reqs| && s.reqs[e.i].phase.Answered? && TenantOf(s.reqs[e.i].tenant) == TenantOf(tenant)
  }

  /** How far one step moves the audit log ahead of the ledger. */
  ghost function DriftOf(s: State, e: Event, tenant: string): real {
    if SettlesFor(s, e, tenant) then
      var phase := s.reqs[e.i].phase;
      var actual := ActualOf(e.prices, phase.order, phase.reply);
      var fallback := StaticPrice(phase.order.model, phase.order.promptTokens, CompletionOf(phase.reply));
      (if !e.auditOk then 0.0 else if e.fault.NoFault? then actual else fallback)
      - (if e.fault.AddFails? then 0.0 else actual)
    else 0.0
  }

  ghost function Drift(states: seq<State>, events: seq<Event>, k: nat, tenant: string): real
    requires k <= |events| <= |states|
  {
    if k == 0 then 0.0 else Drift(states, events, k - 1, tenant) + DriftOf(states[k - 1], events[k - 1], tenant)
  }

  lemma SettleMovesCosts(s: State, e: Event, tenant: string)
    requires WellFormed(s) && e.Settle? && e.i < |s.reqs| && s.reqs[e.i].phase.Answered?
    requires DistinctDays(s.budget.days)
    ensures var s' := SettleStep(s, e.i, e.prices, e.fault, e.auditOk);
            AuditedCost(s', tenant) - LedgerSpend(s', tenant)
            == AuditedCost(s, tenant) - LedgerSpend(s, tenant) + DriftOf(s, e, tenant)
  {
    var phase := s.reqs[e.i].phase;
    assert SlotMatches(s.reqs[e.i], s.budget.slots[e.i]);
    var s' := SettleStep(s, e.i, e.prices, e.fault, e.auditOk);
    if e.auditOk {
      SumAppend(s.audit, s'.audit[|s.audit|], CostFor(tenant));
    }
    SumOfDays(s.budget.days, s.budget.rows, s.reqs[e.i].tenant, B.Today(s.budget),
              ActualOf(e.prices, phase.order, phase.reply), tenant);
  }

  /** Nothing charged, and at most one audit event, of cost zero. */
  ghost predicate FreeOfCharge(s: State, s': State) {
    && s'.budget.rows == s.budget.rows && s'.budget.days == s.budget.days
    && (s'.audit == s.audit || (|s'.audit| > 0 && s'.audit == s.audit + [s'.audit[|s'.audit| - 1]]
                                && s'.audit[|s'.audit| - 1].costUsd == 0.0))
  }

  /** Blocked and failed requests cost nothing. */
  lemma OtherStepsAreFree(setup: Setup, s: State, e: Event)
    requires Enabled(setup, s, e) && !e.Settle? && !e.NewDay?
    ensures FreeOfCharge(s, Next(setup, s, e))
  {
    StepsFollowBudgetProtocol(setup, s, e);
    if !e.Arrive? {
      StepMoves(setup, s, e);
      assert !Next(setup, s, e).reqs[e.i].phase.Done? || !Next(setup, s, e).reqs[e.i].phase.exit.Served?;
    }
  }

  ghost predicate Balanced(s: State, tenant: string, drift: real) {
    && s.budget.days != [] && DistinctDays(s.budget.days)
    && SpendOnKnownDays(s, tenant)
    && AuditedCost(s, tenant) == LedgerSpend(s, tenant) + drift
  }

  lemma FreeStepKeepsBalance(s: State, s': State, tenant: string, drift: real)
    requires FreeOfCharge(s, s') && Balanced(s, tenant, drift)
    ensures Balanced(s', tenant, drift)
  {
    if s'.audit != s.audit {
      SumAppend(s.audit, s'.audit[|s'.audit| - 1], CostFor(tenant));
    }
  }

  lemma DayChangeKeepsBalance(s: State, s': State, day: string, tenant: string, drift: real)
    requires Balanced(s, tenant, drift) && day !in s.budget.days
    requires s'.audit == s.audit && s'.budget.rows == s.budget.rows && s'.budget.days == s.budget.days + [day]
    ensures Balanced(s', tenant, drift)
  {
    SumAppend(s.budget.days, day, DaySpend(s.budget.rows, tenant));
    assert day in s'.budget.days by { assert s'.budget.days[|s.budget.days|] == day; }
  }

  lemma SettleKeepsBalance(s: State, e: Event, tenant: string, drift: real)
    requires WellFormed(s) && e.Settle? && e.i < |s.reqs| && s.reqs[e.i].phase.Answered?
    requires Balanced(s, tenant, drift)
    ensures Balanced(SettleStep(s, e.i, e.prices, e.fault, e.auditOk), tenant, drift + DriftOf(s, e, tenant))
  {
    SettleMovesCosts(s, e, tenant);
    assert SlotMatches(s.reqs[e.i], s.budget.slots[e.i]);
  }

  lemma StepKeepsBalance(setup: Setup, s: State, e: Event, tenant: string, drift: real)
    requires Enabled(setup, s, e) && Balanced(s, tenant, drift)
    ensures Balanced(Next(setup, s, e), tenant, drift + DriftOf(s, e, tenant))
  {
    match e {
      case Settle(_, _, _, _) => SettleKeepsBalance(s, e, tenant, drift);
      case NewDay(day) => DayChangeKeepsBalance(s, Next(setup, s, e), day, tenant, drift);
      case _ =>
        OtherStepsAreFree(setup, s, e);
        FreeStepKeepsBalance(s, Next(setup, s, e), tenant, drift);
    }
  }

  lemma BalancedAtStart(day: string, tenant: string)
    ensures Balanced(Init(day), tenant, 0.0)
  {
    SumAppend([], day, DaySpend(map[], tenant));
    assert [] + [day] == [day];
  }

  /** At every moment of every run, the gap between audit and ledger is what the single steps have added to it. */
  lemma {:induction false} AuditBalancesLedger(setup: Setup, states: seq<State>, events: seq<Event>, k: nat, tenant: string)
    requires Run(setup, states, events) && k < |states|
    ensures Balanced(states[k], tenant, Drift(states, events, k, tenant))
  {
    if k == 0 {
      var day :| states[0] == Init(day);
      BalancedAtStart(day, tenant);
    } else {
      AuditBalancesLedger(setup, states, events, k - 1, tenant);
      StateAt(setup, states, events, k);
      StepKeepsBalance(setup, states[k - 1], events[k - 1], tenant, Drift(states, events, k - 1, tenant));
    }
  }

  // ---------------------------------------------------------------------------------------------
  // When audit and ledger agree
  // ---------------------------------------------------------------------------------------------

  /**
   The condition under which a settlement costs the same in both books, in terms of what failed,
   the tokens and the unit prices. If nothing failed but the audit write, the tokens must be free.
   If the charge itself failed, the audit write must have too, or there were no tokens. If only the
   reading back failed, the event holds the built-in price: that must come to the table's price on
   these tokens, or, where the write was lost as well, the tokens must be free.
   */
  predicate SettlesEvenly(order: Order, completion: nat, prices: Prices, fault: LedgerFault, auditOk: bool) {
    var prompt := order.promptTokens;
    var listed, builtIn := Listed(prices, order.model), Listed(DefaultPrices(), order.model);
    match fault
    case NoFault => auditOk || IsFree(listed, prompt, completion)
    case AddFails => !auditOk || (prompt == 0 && completion == 0)
    case ReadBackFails => if auditOk then SameBill(listed, builtIn, prompt, completion) else IsFree(listed, prompt, completion)
  }

  /**
   If this step settles a request of the tenant, it does so evenly; the completion billed is the reply's
   own, or none if it was streamed.
   */
  ghost predicate EvenFor(s: State, e: Event, tenant: string) {
    SettlesFor(s, e, tenant) ==>
      var order, reply := s.reqs[e.i].phase.order, s.reqs[e.i].phase.reply;
      var completion := if reply.Reply? && !reply.streaming then reply.completionTokens else 0;
      SettlesEvenly(order, completion, e.prices, e.fault, e.auditOk)
  }

  lemma DriftVanishesExactlyWhen(s: State, e: Event, tenant: string)
    requires e.Settle? ==> NonNegativePrices(e.prices)
    ensures DriftOf(s, e, tenant) == 0.0 <==> EvenFor(s, e, tenant)
  {
    if SettlesFor(s, e, tenant) {
      var order, completion := s.reqs[e.i].phase.order, CompletionOf(s.reqs[e.i].phase.reply);
      var listed, builtIn := Listed(e.prices, order.model), Listed(DefaultPrices(), order.model);
      BuiltInPricesArePositive(order.model);
      CostsNothingExactlyWhen(listed, order.promptTokens, completion);
      CostsNothingExactlyWhen(builtIn, order.promptTokens, completion);
      CostsTheSameExactlyWhen(listed, builtIn, order.promptTokens, completion);
    }
  }

  /** One settlement moves the tenant's audited cost and ledger spend equally exactly when it is even. */
  lemma SettlementIsEvenExactlyWhen(setup: Setup, s: State, e: Event, tenant: string)
    requires Enabled(setup, s, e) && SettlesFor(s, e, tenant) && DistinctDays(s.budget.days)
    ensures var s' := Next(setup, s, e);
            AuditedCost(s', tenant) - AuditedCost(s, tenant) == LedgerSpend(s', tenant) - LedgerSpend(s, tenant)
            <==> EvenFor(s, e, tenant)
  {
    SettleMovesCosts(s, e, tenant);
    DriftVanishesExactlyWhen(s, e, tenant);
  }

  ghost predicate BooksAgree(s: State, tenant: string) {
    AuditedCost(s, tenant) == LedgerSpend(s, tenant)
  }

  ghost predicate AgreeThroughout(states: seq<State>, k: nat, tenant: string)
    requires k < |states|
  {
    forall j :: 0 <= j <= k ==> BooksAgree(states[j], tenant)
  }

  ghost predicate EvenThroughout(states: seq<State>, events: seq<Event>, k: nat, tenant: string)
    requires k <= |events| <= |states|
  {
    forall j :: 0 <= j < k ==> EvenFor(states[j], events[j], tenant)
  }

  lemma OneMoment(states: seq<State>, events: seq<Event>, k: nat, tenant: string)
    requires k < |events| < |states|
    ensures AgreeThroughout(states, k + 1, tenant) <==> AgreeThroughout(states, k, tenant) && BooksAgree(states[k + 1], tenant)
    ensures EvenThroughout(states, events, k + 1, tenant)
       <==> EvenThroughout(states, events, k, tenant) && EvenFor(states[k], events[k], tenant)
    ensures AgreeThroughout(states, k, tenant) ==> BooksAgree(states[k], tenant)
  {
  }

  lemma BooksAgreeAtStart(setup: Setup, states: seq<State>, events: seq<Event>, tenant: string)
    requires Run(setup, states, events)
    ensures BooksAgree(states[0], tenant)
  {
    AuditBalancesLedger(setup, states, events, 0, tenant);
  }

  /** From agreement, one step of any kind keeps it exactly when it is no uneven settlement. */
  lemma StepKeepsBooksExactlyWhen(setup: Setup, s: State, e: Event, tenant: string, drift: real)
    requires Enabled(setup, s, e) && Balanced(s, tenant, drift) && BooksAgree(s, tenant)
    ensures BooksAgree(Next(setup, s, e), tenant) <==> EvenFor(s, e, tenant)
  {
    StepKeepsBalance(setup, s, e, tenant, drift);
    DriftVanishesExactlyWhen(s, e, tenant);
  }

  lemma BooksStayTogetherExactlyWhen(setup: Setup, states: seq<State>, events: seq<Event>, k: nat, tenant: string)
    requires Run(setup, states, events) && k < |events| && BooksAgree(states[k], tenant)
    ensures BooksAgree(states[k + 1], tenant) <==> EvenFor(states[k], events[k], tenant)
  {
    AuditBalancesLedger(setup, states, events, k, tenant);
    assert Enabled(setup, states[k], events[k]);
    StepKeepsBooksExactlyWhen(setup, states[k], events[k], tenant, Drift(states, events, k, tenant));
  }

  /**
   Audit and ledger agree about a tenant at every moment up to `k` exactly when each of its
   settlements until then was even. Blocked and failed requests play no part.
   */
  lemma {:induction false} BooksAgreeExactlyWhen(setup: Setup, states: seq<State>, events: seq<Event>, k: nat, tenant: string)
    requires Run(setup, states, events) && k < |states|
    ensures AgreeThroughout(states, k, tenant) <==> EvenThroughout(states, events, k, tenant)
  {
    BooksAgreeAtStart(setup, states, events, tenant);
    if k > 0 {
      var i := k - 1;
      BooksAgreeExactlyWhen(setup, states, events, i, tenant);
      OneMoment(states, events, i, tenant);
      if BooksAgree(states[i], tenant) {
        BooksStayTogetherExactlyWhen(setup, states, events, i, tenant);
      }
    }
  }

  /**
   Cost conservation: as long as no charge and no charge's audit event fails, a tenant's audited
   cost equals its ledger spend summed over the days; blocked and failed requests add nothing.
   */
  lemma CostConservation(setup: Setup, states: seq<State>, events: seq<Event>, k: nat, tenant: string)
    requires Run(setup, states, events) && k < |states|
    requires forall j :: 0 <= j < k && events[j].Settle? ==> events[j].fault.NoFault? && events[j].auditOk
    ensures AuditedCost(states[k], tenant) == LedgerSpend(states[k], tenant)
  {
    BooksAgreeExactlyWhen(setup, states, events, k, tenant);
    assert EvenThroughout(states, events, k, tenant);
    assert BooksAgree(states[k], tenant);
  }

  /**
   A run in which they part: a million prompt tokens of gpt-4o, listed at 5 dollars by the feed and
   at 2.50 by the built-in table, streamed, charged, and not read back. The ledger holds 5 dollars,
   the audit log 2.50.
   */
  lemma ReadBackFailurePartsBooks() returns (setup: Setup, states: seq<State>, events: seq<Event>)
    ensures Run(setup, states, events) && |events| == 5
    ensures events[4] == Settle(0, FeedPrices(), ReadBackFails, true)
    ensures AuditedCost(states[5], "acme") == 2.5 && LedgerSpend(states[5], "acme") == 5.0
  {
    setup, states, events := StreamedAndUnpaid();
    var s := states[4];
    RunIsWellFormed(setup, states, events);
    FeedIsUsual();
    states, events := Stepped(setup, states, events, Settle(0, FeedPrices(), ReadBackFails, true));
    ChargedButNotReadBack(s);
  }

  /** The built-in table with one price overridden by the feed. */
  function FeedPrices(): Prices {
    DefaultPrices()["gpt-4o" := ModelPrice(5.0, 10.0)]
  }

  lemma FeedIsUsual()
    ensures NonNegativePrices(FeedPrices()) && Listed(FeedPrices(), "gpt-4o") == ModelPrice(5.0, 10.0)
  {
  }

  /** The first and only request, of a million prompt tokens, has its streamed reply. */
  ghost predicate OneUnpaid(s: State) {
    && s.audit == [] && s.budget.rows == map[] && s.budget.days == ["2024-01-01"] && |s.reqs| == 1
    && s.reqs[0].tenant == "acme" && s.reqs[0].phase.Answered? && s.reqs[0].phase.reply == Reply(200, true, 0)
    && s.reqs[0].phase.order == Order("gpt-4o", 1_000_000, 1)
  }

  lemma StreamedAndUnpaid() returns (setup: Setup, states: seq<State>, events: seq<Event>)
    ensures Run(setup, states, events) && |events| == 4 && OneUnpaid(states[4])
  {
    setup := Setup(None, CT.Budgets(CT.Budget(0.0, 0.0), map[]), [Provider("openai", {})]);
    var start, attempts := [Init("2024-01-01")], [Reply(200, true, 0)];
    FeedIsUsual();
    assert |CandidatesOf(setup.providers, "gpt-4o")| == 1;
    assert ReplyOf(attempts) == Some(Reply(200, true, 0));
    states, events := TakesToReply(setup, start, [], "acme", 0, Order("gpt-4o", 1_000_000, 1), FeedPrices(), attempts);
  }

  lemma ChargedButNotReadBack(s: State)
    requires WellFormed(s) && OneUnpaid(s)
    ensures var s' := SettleStep(s, 0, FeedPrices(), ReadBackFails, true);
            AuditedCost(s', "acme") == 2.5 && LedgerSpend(s', "acme") == 5.0
  {
    var s' := SettleStep(s, 0, FeedPrices(), ReadBackFails, true);
    FeedIsUsual();
    assert SlotMatches(s.reqs[0], s.budget.slots[0]);
    assert [] + [s'.audit[0]] == s'.audit;
    SumAppend([], s'.audit[0], CostFor("acme"));
    assert [] + ["2024-01-01"] == s'.budget.days;
    SumAppend([], "2024-01-01", DaySpend(s'.budget.rows, "acme"));
  }
}
