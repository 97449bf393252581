/**
 What each step of the chat handler does, in the terms of its callers: the status a request ends with,
 the audit event it leaves, what is charged for it. And, over every run, what the audit log and the
 ledger therefore hold.
 */
module GatewaySteps {
  import opened Wrappers
  import opened Sequences
  import opened Tenancy
  import opened Ledger
  import opened Pricing
  import opened Routing
  import opened Metrics
  import opened Gateway
  import RL = RateLimiter
  import B = BudgetProtocol

  /** Prompt and completion at a table's prices per million tokens; a model it does not list costs 1 and 3 dollars. */
  function Bill(prices: Prices, model: string, prompt: int, completion: int): real {
    (prompt as real * (if model in prices then prices[model].inputPerMTok else 1.00)
     + completion as real * (if model in prices then prices[model].outputPerMTok else 3.00)) / 1_000_000.0
  }

  /** The request has ended this way, and was answered with this status. */
  predicate Finished(r: Req, exit: Exit, status: int) {
    r.phase == Done(exit) && StatusOf(exit) == status
  }

  /** The event is written, or its write is lost. */
  ghost predicate Audits(s: State, s': State, event: AuditEvent, ok: bool) {
    if ok then s'.audit == s.audit + [event] && s'.lost == s.lost
    else s'.audit == s.audit && s'.lost == s.lost + 1
  }

  ghost predicate Silent(s: State, s': State) {
    s'.audit == s.audit && s'.lost == s.lost
  }

  ghost predicate CountsBlocked(s: State, s': State, blocked: bool) {
    s'.metrics.blocked == if blocked then Wrap64(s.metrics.blocked + 1) else s.metrics.blocked
  }

  // ---------------------------------------------------------------------------------------------
  // One step
  // ---------------------------------------------------------------------------------------------

  predicate LimiterDenies(setup: Setup, s: State, tenantId: string, now: int) {
    setup.limiter.Some? && !RL.AllowStep(setup.limiter.value, s.buckets, TenantOf(tenantId), now).0.allowed
  }

  /** A request the limiter denies ends at once, with 429; any other goes on. */
  lemma ArrivalLaw(setup: Setup, s: State, tenantId: string, now: int, auditOk: bool, s': State)
    requires WellFormed(s) && s' == Next(setup, s, Arrive(tenantId, now, auditOk))
    ensures |s'.reqs| == |s.reqs| + 1 && s'.reqs[..|s.reqs|] == s.reqs
    ensures s'.metrics.requests == Wrap64(s.metrics.requests + 1)
    ensures var tenant, r', denied := TenantOf(tenantId), s'.reqs[|s.reqs|], LimiterDenies(setup, s, tenantId, now);
            && r'.tenant == tenant && r'.at == now && CountsBlocked(s, s', denied)
            && (if denied then Finished(r', RateLimited, 429) && Audits(s, s', AuditEvent(tenant, 429, 0.0), auditOk)
                else r'.phase == Admitted && Silent(s, s'))
  {
  }

  /** A guard block ends the request with 403, a malformed body with 400 and no event; a cleared order goes on. */
  lemma ScreenLaw(setup: Setup, s: State, i: nat, screening: Screening, auditOk: bool, s': State)
    requires Enabled(setup, s, Screen(i, screening, auditOk)) && s' == Next(setup, s, Screen(i, screening, auditOk))
    ensures |s'.reqs| == |s.reqs| && s'.budget == s.budget
    ensures var r' := s'.reqs[i];
            match screening
            case Cleared(order) => r'.phase == Screened(order) && Silent(s, s') && CountsBlocked(s, s', false)
            case GuardBlocks =>
              && Finished(r', Forbidden, 403) && Audits(s, s', AuditEvent(s.reqs[i].tenant, 403, 0.0), auditOk)
              && CountsBlocked(s, s', true)
            case _ => Finished(r', BadRequest, 400) && Silent(s, s') && CountsBlocked(s, s', true)
  {
  }

  /** The estimate: the prompt, and the completion asked for, 1024 tokens if it is not said. */
  function Quote(prices: Prices, order: Order): real {
    Bill(prices, order.model, order.promptTokens, if order.maxTokens > 0 then order.maxTokens else 1024)
  }

  /** One of the tenant's two budgets does not hold the estimate on top of today's spend. */
  ghost predicate Refused(setup: Setup, s: State, tenant: string, estimate: real)
    requires s.budget.days != []
  {
    var budget := setup.budgets.For(tenant);
    || (budget.perReq > 0.0 && estimate > budget.perReq)
    || (budget.daily > 0.0 && Spend(s.budget.rows, tenant, s.budget.days[|s.budget.days| - 1]) + estimate > budget.daily)
  }

  /** An unreadable ledger ends the request with 500, a refusal with 402; otherwise it is open at its estimate. */
  lemma FundLaw(setup: Setup, s: State, i: nat, prices: Prices, readFails: bool, auditOk: bool, s': State)
    requires Enabled(setup, s, Fund(i, prices, readFails, auditOk)) && s' == Next(setup, s, Fund(i, prices, readFails, auditOk))
    ensures |s'.reqs| == |s.reqs| && |s.budget.slots| == |s.reqs|
    ensures var r', tenant, order := s'.reqs[i], s.reqs[i].tenant, s.reqs[i].phase.order;
            var estimate := Quote(prices, order);
            if readFails then
              && Finished(r', BudgetUnavailable, 500) && Audits(s, s', AuditEvent(tenant, 500, 0.0), auditOk)
              && CountsBlocked(s, s', true) && s'.budget == s.budget
            else if Refused(setup, s, tenant, estimate) then
              && Finished(r', OverBudget, 402) && Audits(s, s', AuditEvent(tenant, 402, 0.0), auditOk)
              && CountsBlocked(s, s', true) && s'.budget == s.budget
            else
              && r'.phase == Funded(order, estimate) && Silent(s, s') && CountsBlocked(s, s', false)
              && s'.budget == s.budget.(slots := s.budget.slots[i := B.Open(tenant, estimate)])
  {
    QuoteIsEstimate(prices, s.reqs[i].phase.order);
    assert SlotMatches(s.reqs[i], s.budget.slots[i]);
  }

  lemma QuoteIsEstimate(prices: Prices, order: Order)
    ensures EstimateOf(prices, order) == Quote(prices, order)
  {
  }

  /** If every attempt is a failure the request ends with 502, uncharged. */
  lemma DispatchFails(setup: Setup, s: State, i: nat, attempts: seq<Attempt>, auditOk: bool, s': State)
    requires Enabled(setup, s, Dispatch(i, attempts, auditOk)) && s' == Next(setup, s, Dispatch(i, attempts, auditOk))
    requires forall k :: 0 <= k < |attempts| ==> IsFailure(attempts[k])
    ensures |s'.reqs| == |s.reqs| && s'.budget.rows == s.budget.rows && s'.budget.overrun == s.budget.overrun
    ensures Finished(s'.reqs[i], BadGateway(|attempts|), 502) && Audits(s, s', AuditEvent(s.reqs[i].tenant, 502, 0.0), auditOk)
    ensures CountsBlocked(s, s', false)
    ensures s'.metrics.failovers == Wrap64(s.metrics.failovers + if |attempts| > 1 then |attempts| - 1 else 0)
  {
    NoReplyMeansAllTried(attempts);
  }

  /** The first attempt that is no failure is the reply, and the earlier ones are failovers. */
  lemma DispatchAnswers(setup: Setup, s: State, i: nat, attempts: seq<Attempt>, auditOk: bool, s': State, k: nat)
    requires Enabled(setup, s, Dispatch(i, attempts, auditOk)) && s' == Next(setup, s, Dispatch(i, attempts, auditOk))
    requires k < |attempts| && !IsFailure(attempts[k]) && forall j :: 0 <= j < k ==> IsFailure(attempts[j])
    ensures |s'.reqs| == |s.reqs| && s'.budget == s.budget
    ensures s'.reqs[i].phase == Answered(s.reqs[i].phase.order, s.reqs[i].phase.estimate, k + 1, attempts[k])
    ensures Silent(s, s') && CountsBlocked(s, s', false) && s'.metrics.failovers == Wrap64(s.metrics.failovers + k)
  {
    ReplyIsFirstAcceptable(attempts, k);
  }

  /** What a settlement puts on the bill: the prompt, and the reply's own completion unless it was streamed. */
  ghost function Charge(s: State, i: nat, prices: Prices): real
    requires i < |s.reqs| && s.reqs[i].phase.Answered?
  {
    var order, reply := s.reqs[i].phase.order, s.reqs[i].phase.reply;
    Bill(prices, order.model, order.promptTokens, if reply.Reply? && !reply.streaming then reply.completionTokens else 0)
  }

  /** The reply's own status, 200 if it has none. */
  function ReplyStatus(reply: Attempt): int {
    if reply.Reply? && reply.status != 0 then reply.status else 200
  }

  /** What is audited: the charge, or, after a ledger error, what it would be at the built-in prices. */
  ghost function AuditedCharge(s: State, i: nat, prices: Prices, fault: LedgerFault): real
    requires i < |s.reqs| && s.reqs[i].phase.Answered?
  {
    Charge(s, i, if fault.NoFault? then prices else DefaultPrices())
  }

  lemma ChargeIsActual(s: State, i: nat, prices: Prices)
    requires i < |s.reqs| && s.reqs[i].phase.Answered?
    ensures var order, reply := s.reqs[i].phase.order, s.reqs[i].phase.reply;
            && ActualOf(prices, order, reply) == Charge(s, i, prices)
            && StaticPrice(order.model, order.promptTokens, CompletionOf(reply)) == Charge(s, i, DefaultPrices())
  {
  }

  /** A settlement ends the request with the reply's status, and audits the charge. */
  lemma SettleLaw(setup: Setup, s: State, i: nat, prices: Prices, fault: LedgerFault, auditOk: bool, s': State)
    requires Enabled(setup, s, Settle(i, prices, fault, auditOk)) && s' == Next(setup, s, Settle(i, prices, fault, auditOk))
    ensures |s'.reqs| == |s.reqs| && CountsBlocked(s, s', false)
    ensures var phase, cost := s.reqs[i].phase, AuditedCharge(s, i, prices, fault);
            && s'.reqs[i].phase.Done? && s'.reqs[i].phase.exit.Served?
            && s'.reqs[i].phase.exit.tries == phase.tries && s'.reqs[i].phase.exit.cost == cost
            && Finished(s'.reqs[i], s'.reqs[i].phase.exit, ReplyStatus(phase.reply))
            && Audits(s, s', AuditEvent(s.reqs[i].tenant, ReplyStatus(phase.reply), cost), auditOk)
            && s'.metrics.costMicro == Wrap64(s.metrics.costMicro + Micros(cost))
  {
    ChargeIsActual(s, i, prices);
  }

  /**
   Unless the charge itself failed, the tenant's spend for today grows by exactly the bill, and what
   exceeds the estimate counts as overrun. No other spend changes.
   */
  lemma SettlementCharges(setup: Setup, s: State, e: Event, t: string, d: string)
    requires Enabled(setup, s, e) && e.Settle?
    ensures var s' := Next(setup, s, e);
            && Spend(s'.budget.rows, t, d) == Spend(s.budget.rows, t, d) + BilledBy(s, e, t, d)
            && Spend(s'.budget.overrun, t, d) == Spend(s.budget.overrun, t, d) + OverrunBy(s, e, t, d)
  {
    StepsFollowBudgetProtocol(setup, s, e);
    ChargeIsActual(s, e.i, e.prices);
    assert SlotMatches(s.reqs[e.i], s.budget.slots[e.i]);
    if !e.fault.AddFails? {
      B.SettlementIsExact(s.budget, e.i, Charge(s, e.i, e.prices), t, d);
    }
  }

  /** Event `e` charges this tenant on this day. */
  ghost predicate ChargesFor(s: State, e: Event, tenant: string, day: string) {
    && e.Settle? && !e.fault.AddFails? && e.i < |s.reqs| && s.reqs[e.i].phase.Answered? && s.budget.days != []
    && TenantOf(s.reqs[e.i].tenant) == TenantOf(tenant) && day == s.budget.days[|s.budget.days| - 1]
  }

  ghost function BilledBy(s: State, e: Event, tenant: string, day: string): real {
    if ChargesFor(s, e, tenant, day) then Charge(s, e.i, e.prices) else 0.0
  }

  ghost function OverrunBy(s: State, e: Event, tenant: string, day: string): real {
    if ChargesFor(s, e, tenant, day) && Charge(s, e.i, e.prices) > s.reqs[e.i].phase.estimate
    then Charge(s, e.i, e.prices) - s.reqs[e.i].phase.estimate
    else 0.0
  }

  // ---------------------------------------------------------------------------------------------
  // The ledger over a run
  // ---------------------------------------------------------------------------------------------

  /** No other step charges anything. */
  lemma OtherStepsChargeNothing(setup: Setup, s: State, e: Event)
    requires Enabled(setup, s, e) && !e.Settle?
    ensures Next(setup, s, e).budget.rows == s.budget.rows && Next(setup, s, e).budget.overrun == s.budget.overrun
  {
    StepsFollowBudgetProtocol(setup, s, e);
  }

  ghost function Billed(states: seq<State>, events: seq<Event>, k: nat, tenant: string, day: string): real
    requires k <= |events| <= |states|
  {
    if k == 0 then 0.0 else Billed(states, events, k - 1, tenant, day) + BilledBy(states[k - 1], events[k - 1], tenant, day)
  }

  ghost function Overrun(states: seq<State>, events: seq<Event>, k: nat, tenant: string, day: string): real
    requires k <= |events| <= |states|
  {
    if k == 0 then 0.0 else Overrun(states, events, k - 1, tenant, day) + OverrunBy(states[k - 1], events[k - 1], tenant, day)
  }

  lemma StepIsBilled(setup: Setup, s: State, e: Event, tenant: string, day: string)
    requires Enabled(setup, s, e)
    ensures var s' := Next(setup, s, e);
            && Spend(s'.budget.rows, tenant, day) == Spend(s.budget.rows, tenant, day) + BilledBy(s, e, tenant, day)
            && Spend(s'.budget.overrun, tenant, day) == Spend(s.budget.overrun, tenant, day) + OverrunBy(s, e, tenant, day)
  {
    if e.Settle? {
      SettlementCharges(setup, s, e, tenant, day);
    } else {
      OtherStepsChargeNothing(setup, s, e);
    }
  }

  lemma RunStepIsBilled(setup: Setup, states: seq<State>, events: seq<Event>, i: nat, k: nat, tenant: string, day: string)
    requires Run(setup, states, events) && k == i + 1 <= |events|
    ensures Spend(states[k].budget.rows, tenant, day) - Spend(states[i].budget.rows, tenant, day)
         == Billed(states, events, k, tenant, day) - Billed(states, events, i, tenant, day)
    ensures Spend(states[k].budget.overrun, tenant, day) - Spend(states[i].budget.overrun, tenant, day)
         == Overrun(states, events, k, tenant, day) - Overrun(states, events, i, tenant, day)
  {
    StateAt(setup, states, events, k);
    StepIsBilled(setup, states[i], events[i], tenant, day);
    SumsGrow(states, events, i, k, tenant, day);
  }

  lemma SumsGrow(states: seq<State>, events: seq<Event>, i: nat, k: nat, tenant: string, day: string)
    requires k == i + 1 <= |events| <= |states|
    ensures Billed(states, events, k, tenant, day) == Billed(states, events, i, tenant, day) + BilledBy(states[i], events[i], tenant, day)
    ensures Overrun(states, events, k, tenant, day) == Overrun(states, events, i, tenant, day) + OverrunBy(states[i], events[i], tenant, day)
  {
  }

  /**
   At every moment of every run the ledger holds, for each tenant and day, exactly the bills of that
   tenant's replies settled on that day, and the overruns exactly what these exceeded their estimates by.
   */
  lemma {:induction false} LedgerHoldsTheBills(setup: Setup, states: seq<State>, events: seq<Event>, k: nat, tenant: string, day: string)
    requires Run(setup, states, events) && k < |states|
    ensures Spend(states[k].budget.rows, tenant, day) == Billed(states, events, k, tenant, day)
    ensures Spend(states[k].budget.overrun, tenant, day) == Overrun(states, events, k, tenant, day)
  {
    if k > 0 {
      var i := k - 1;
      LedgerHoldsTheBills(setup, states, events, i, tenant, day);
      RunStepIsBilled(setup, states, events, i, k, tenant, day);
    }
  }

  // ---------------------------------------------------------------------------------------------
  // The audit log over a run
  // ---------------------------------------------------------------------------------------------

  /** The event a step owes the audit log, if any. */
  ghost function Owed(setup: Setup, s: State, e: Event): Option<AuditEvent>
    requires Enabled(setup, s, e)
  {
    match e
    case Arrive(tenantId, now, _) =>
      if LimiterDenies(setup, s, tenantId, now) then Some(AuditEvent(TenantOf(tenantId), 429, 0.0)) else None
    case Screen(i, screening, _) =>
      if screening.GuardBlocks? then Some(AuditEvent(s.reqs[i].tenant, 403, 0.0)) else None
    case Fund(i, prices, readFails, _) =>
      if readFails then Some(AuditEvent(s.reqs[i].tenant, 500, 0.0))
      else if Refused(setup, s, s.reqs[i].tenant, Quote(prices, s.reqs[i].phase.order))
      then Some(AuditEvent(s.reqs[i].tenant, 402, 0.0))
      else None
    case Dispatch(i, attempts, _) =>
      if forall k :: 0 <= k < |attempts| ==> IsFailure(attempts[k]) then Some(AuditEvent(s.reqs[i].tenant, 502, 0.0)) else None
    case Settle(i, prices, fault, _) =>
      Some(AuditEvent(s.reqs[i].tenant, ReplyStatus(s.reqs[i].phase.reply), AuditedCharge(s, i, prices, fault)))
    case NewDay(_) => None
  }

  lemma FirstSuccess(attempts: seq<Attempt>) returns (k: nat)
    requires !forall k :: 0 <= k < |attempts| ==> IsFailure(attempts[k])
    ensures k < |attempts| && !IsFailure(attempts[k]) && forall j :: 0 <= j < k ==> IsFailure(attempts[j])
  {
    k := 0;
    while IsFailure(attempts[k])
      invariant k < |attempts| && forall j :: 0 <= j < k ==> IsFailure(attempts[j])
      invariant exists m :: k <= m < |attempts| && !IsFailure(attempts[m])
      decreases |attempts| - k
    {
      k := k + 1;
    }
  }

  ghost predicate Pays(s: State, s': State, owed: Option<AuditEvent>, e: Event) {
    if owed.None? then Silent(s, s') else !e.NewDay? && Audits(s, s', owed.value, e.auditOk)
  }

  lemma DispatchPays(setup: Setup, s: State, e: Event)
    requires Enabled(setup, s, e) && e.Dispatch?
    ensures Pays(s, Next(setup, s, e), Owed(setup, s, e), e)
  {
    if forall k :: 0 <= k < |e.attempts| ==> IsFailure(e.attempts[k]) {
      DispatchFails(setup, s, e.i, e.attempts, e.auditOk, Next(setup, s, e));
    } else {
      var k := FirstSuccess(e.attempts);
      DispatchAnswers(setup, s, e.i, e.attempts, e.auditOk, Next(setup, s, e), k);
    }
  }

  lemma StepPays(setup: Setup, s: State, e: Event)
    requires Enabled(setup, s, e)
    ensures Pays(s, Next(setup, s, e), Owed(setup, s, e), e)
  {
    var s' := Next(setup, s, e);
    match e {
      case Arrive(tenantId, now, auditOk) => ArrivalLaw(setup, s, tenantId, now, auditOk, s');
      case Screen(i, screening, auditOk) => ScreenLaw(setup, s, i, screening, auditOk, s');
      case Fund(i, prices, readFails, auditOk) => FundLaw(setup, s, i, prices, readFails, auditOk, s');
      case Dispatch(_, _, _) => DispatchPays(setup, s, e);
      case Settle(i, prices, fault, auditOk) => SettleLaw(setup, s, i, prices, fault, auditOk, s');
      case NewDay(_) =>
    }
  }

  /** What is written, and how many writes are lost, of an event owed. */
  function Entries(owed: Option<AuditEvent>, e: Event): seq<AuditEvent> {
    if owed.Some? && !e.NewDay? && e.auditOk then [owed.value] else []
  }

  function Missing(owed: Option<AuditEvent>, e: Event): nat {
    if owed.Some? && !e.NewDay? && !e.auditOk then 1 else 0
  }

  lemma PaysEntries(s: State, s': State, owed: Option<AuditEvent>, e: Event)
    requires Pays(s, s', owed, e)
    ensures s'.audit == s.audit + Entries(owed, e) && s'.lost == s.lost + Missing(owed, e)
  {
  }

  /** The events written by the first `k` steps, in order. */
  ghost function Written(setup: Setup, states: seq<State>, events: seq<Event>, k: nat): seq<AuditEvent>
    requires Run(setup, states, events) && k <= |events|
  {
    if k == 0 then []
    else Written(setup, states, events, k - 1) + Entries(Owed(setup, states[k - 1], events[k - 1]), events[k - 1])
  }

  /** How many events the first `k` steps owed but did not write. */
  ghost function Unwritten(setup: Setup, states: seq<State>, events: seq<Event>, k: nat): nat
    requires Run(setup, states, events) && k <= |events|
  {
    if k == 0 then 0
    else Unwritten(setup, states, events, k - 1) + Missing(Owed(setup, states[k - 1], events[k - 1]), events[k - 1])
  }

  lemma RunStepPays(setup: Setup, states: seq<State>, events: seq<Event>, i: nat, k: nat)
    requires Run(setup, states, events) && k == i + 1 <= |events|
    ensures Pays(states[i], states[k], Owed(setup, states[i], events[i]), events[i])
  {
    StateAt(setup, states, events, k);
    StepPays(setup, states[i], events[i]);
  }

  lemma WrittenNext(setup: Setup, states: seq<State>, events: seq<Event>, i: nat, k: nat)
    requires Run(setup, states, events) && k == i + 1 <= |events|
    ensures var owed := Owed(setup, states[i], events[i]);
            && Written(setup, states, events, k) == Written(setup, states, events, i) + Entries(owed, events[i])
            && Unwritten(setup, states, events, k) == Unwritten(setup, states, events, i) + Missing(owed, events[i])
  {
  }

  lemma LogGrows(setup: Setup, states: seq<State>, events: seq<Event>, i: nat, k: nat)
    requires Run(setup, states, events) && k == i + 1 <= |events|
    ensures var owed := Owed(setup, states[i], events[i]);
            && states[k].audit == states[i].audit + Entries(owed, events[i])
            && states[k].lost == states[i].lost + Missing(owed, events[i])
  {
    RunStepPays(setup, states, events, i, k);
    PaysEntries(states[i], states[k], Owed(setup, states[i], events[i]), events[i]);
  }

  /**
   At every moment of every run the audit log is, in order, what the steps so far owed it: one event
   with 429 for a request the limiter denied, 403 for a guard block, 500 for an unreadable ledger, 402
   for a refused budget, 502 when every provider failed, and the reply's status and cost otherwise;
   less those whose write was lost.
   */
  lemma {:induction false} AuditLogIsWritten(setup: Setup, states: seq<State>, events: seq<Event>, k: nat)
    requires Run(setup, states, events) && k <= |events|
    ensures states[k].audit == Written(setup, states, events, k) && states[k].lost == Unwritten(setup, states, events, k)
  {
    if k > 0 {
      var i := k - 1;
      AuditLogIsWritten(setup, states, events, i);
      LogGrows(setup, states, events, i, k);
      WrittenNext(setup, states, events, i, k);
    }
  }

  function Showing(tenant: string, status: int): AuditEvent -> int {
    (event: AuditEvent) => if event.tenant == tenant && event.status == status then 1 else 0
  }

  /** Step `e` is a guard block of the tenant's. */
  ghost predicate IsGuardBlock(s: State, e: Event, tenant: string) {
    e.Screen? && e.screening.GuardBlocks? && e.i < |s.reqs| && s.reqs[e.i].tenant == tenant
  }

  /** Step `e` settles a reply of that status to the tenant. */
  ghost predicate IsReplyOf(s: State, e: Event, tenant: string, status: int) {
    && e.Settle? && e.i < |s.reqs| && s.reqs[e.i].phase.Answered? && s.reqs[e.i].tenant == tenant
    && ReplyStatus(s.reqs[e.i].phase.reply) == status
  }

  /** How many of the first `k` steps were guard blocks of the tenant's, or passed on a 403 from a provider. */
  ghost function Forbidden403(states: seq<State>, events: seq<Event>, k: nat, tenant: string): nat
    requires k <= |events| <= |states|
  {
    if k == 0 then 0
    else
      Forbidden403(states, events, k - 1, tenant)
      + (if IsGuardBlock(states[k - 1], events[k - 1], tenant) || IsReplyOf(states[k - 1], events[k - 1], tenant, 403) then 1 else 0)
  }

  /** No other step owes an event with 403. */
  lemma OwedForbidden(setup: Setup, s: State, e: Event, tenant: string)
    requires Enabled(setup, s, e)
    ensures var owed := Owed(setup, s, e);
            owed.Some? && owed.value.tenant == tenant && owed.value.status == 403
            <==> IsGuardBlock(s, e, tenant) || IsReplyOf(s, e, tenant, 403)
  {
  }

  lemma WrittenGrows(setup: Setup, states: seq<State>, events: seq<Event>, i: nat, k: nat, tenant: string)
    requires Run(setup, states, events) && k == i + 1 <= |events| && Unwritten(setup, states, events, k) == 0
    ensures Unwritten(setup, states, events, i) == 0
    ensures var owed := Owed(setup, states[i], events[i]);
            Total(Written(setup, states, events, k), Showing(tenant, 403))
            == Total(Written(setup, states, events, i), Showing(tenant, 403))
               + (if owed.Some? && owed.value.tenant == tenant && owed.value.status == 403 then 1 else 0)
  {
    var owed, before := Owed(setup, states[i], events[i]), Written(setup, states, events, i);
    assert Written(setup, states, events, k) == before + Entries(owed, events[i]);
    if owed.Some? {
      TotalAppend(before, owed.value, Showing(tenant, 403));
    } else {
      assert before + [] == before;
    }
  }

  lemma ForbiddenGrows(states: seq<State>, events: seq<Event>, i: nat, k: nat, tenant: string)
    requires k == i + 1 <= |events| <= |states|
    ensures Forbidden403(states, events, k, tenant) == Forbidden403(states, events, i, tenant)
              + (if IsGuardBlock(states[i], events[i], tenant) || IsReplyOf(states[i], events[i], tenant, 403) then 1 else 0)
  {
  }

  lemma {:induction false} WrittenForbidden(setup: Setup, states: seq<State>, events: seq<Event>, k: nat, tenant: string)
    requires Run(setup, states, events) && k <= |events| && Unwritten(setup, states, events, k) == 0
    ensures Total(Written(setup, states, events, k), Showing(tenant, 403)) == Forbidden403(states, events, k, tenant)
  {
    if k > 0 {
      var i := k - 1;
      WrittenGrows(setup, states, events, i, k, tenant);
      WrittenForbidden(setup, states, events, i, tenant);
      OwedForbidden(setup, states[i], events[i], tenant);
      ForbiddenGrows(states, events, i, k, tenant);
    }
  }

  /**
   Unless a write was lost, the log shows a tenant as many 403 events as the guard blocked requests of
   that tenant, and providers answered it with 403.
   */
  lemma GuardBlocksAreAudited(setup: Setup, states: seq<State>, events: seq<Event>, k: nat, tenant: string)
    requires Run(setup, states, events) && k <= |events| && states[k].lost == 0
    ensures Total(states[k].audit, Showing(tenant, 403)) == Forbidden403(states, events, k, tenant)
  {
    AuditLogIsWritten(setup, states, events, k);
    WrittenForbidden(setup, states, events, k, tenant);
  }
}
