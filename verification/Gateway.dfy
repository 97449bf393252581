/**
 The chat handler as a step machine. Any number of requests are in progress at once; each step is
 one access to shared state (limiter, ledger, audit log, counters) together with what the handler
 does locally around it. Requests are never forgotten, so that runs can be accounted for.
 */
module Gateway {
  import opened Wrappers
  import opened Sequences
  import opened Tenancy
  import opened Ledger
  import opened Pricing
  import opened Routing
  import opened Metrics
  import RL = RateLimiter
  import CT = CostTracker
  import B = BudgetProtocol

  /** `limiter` is `None` when the server runs without one. */
  datatype Setup = Setup(limiter: Option<RL.Limits>, budgets: CT.Budgets, providers: seq<Provider>)

  /** A decoded chat request, after redaction where that applies. */
  datatype Order = Order(model: string, promptTokens: nat, maxTokens: int)

  /** Reading, decoding, inspecting and redacting the body. */
  datatype Screening =
    | UnreadableBody
    | Undecodable
    | GuardBlocks
    | UndecodableAfterRedaction
    | Cleared(order: Order)

  datatype Exit =
    | RateLimited
    | BadRequest
    | Forbidden
    | BudgetUnavailable
    | OverBudget
    | BadGateway(tries: nat)
    | Served(tries: nat, status: int, cost: real)

  datatype Phase =
    | Admitted
    | Screened(order: Order)
    | Funded(order: Order, estimate: real)
    | Answered(order: Order, estimate: real, tries: nat, reply: Attempt)
    | Done(exit: Exit)

  /** `at` is the time the limiter read for this request. */
  datatype Req = Req(tenant: string, at: int, phase: Phase)

  datatype AuditEvent = AuditEvent(tenant: string, status: int, costUsd: real)

  /** The process counters, which wrap around as 64-bit integers do. */
  datatype Counters = Counters(requests: Int64, blocked: Int64, failovers: Int64, costMicro: Int64)

  /** `lost` counts audit writes that failed; the handler only logs those. */
  datatype State = State(reqs: seq<Req>, buckets: RL.Buckets, budget: B.State,
                         metrics: Counters, audit: seq<AuditEvent>, lost: nat)

  /** How recording the spend can fail: before or after the charge took effect. */
  datatype LedgerFault = NoFault | AddFails | ReadBackFails

  datatype Event =
    | Arrive(tenantId: string, now: int, auditOk: bool)
    | Screen(i: nat, screening: Screening, auditOk: bool)
    | Fund(i: nat, prices: Prices, readFails: bool, auditOk: bool)
    | Dispatch(i: nat, attempts: seq<Attempt>, auditOk: bool)
    | Settle(i: nat, prices: Prices, fault: LedgerFault, auditOk: bool)
    | NewDay(day: string)

  function Init(day: string): State {
    State([], map[], B.Init(day), Counters(0, 0, 0, 0), [], 0)
  }

  // ---------------------------------------------------------------------------------------------
  // Steps
  // ---------------------------------------------------------------------------------------------

  function CompletionAllowance(order: Order): (tokens: int)
    ensures tokens > 0 && (order.maxTokens > 0 ==> tokens == order.maxTokens)
  {
    if order.maxTokens <= 0 then 1024 else order.maxTokens
  }

  function EstimateOf(prices: Prices, order: Order): real {
    Price(prices, order.model, order.promptTokens, CompletionAllowance(order))
  }

  /** A streamed reply is charged for its prompt only. */
  function CompletionOf(reply: Attempt): nat {
    if reply.Reply? && !reply.streaming then reply.completionTokens else 0
  }

  function ActualOf(prices: Prices, order: Order, reply: Attempt): real {
    Price(prices, order.model, order.promptTokens, CompletionOf(reply))
  }

  function SetPhase(s: State, i: nat, phase: Phase): State
    requires i < |s.reqs|
  {
    s.(reqs := s.reqs[i := s.reqs[i].(phase := phase)])
  }

  function RecordBlocked(s: State): State {
    s.(metrics := s.metrics.(blocked := Wrap64(s.metrics.blocked + 1)))
  }

  /** A status of zero is audited as 200. */
  function RecordAudit(s: State, tenant: string, status: int, costUsd: real, ok: bool): State {
    if ok then s.(audit := s.audit + [AuditEvent(tenant, if status == 0 then 200 else status, costUsd)])
    else s.(lost := s.lost + 1)
  }

  /** The budget protocol's slot for a request in a given phase. */
  ghost predicate SlotMatches(req: Req, slot: B.Slot) {
    && slot.tenant == req.tenant
    && match req.phase
       case Admitted => slot.Idle?
       case Screened(_) => slot.Idle?
       case Funded(_, estimate) => slot.Open? && slot.estimate == estimate
       case Answered(_, estimate, _, _) => slot.Open? && slot.estimate == estimate
       case Done(exit) => if exit.Served? || exit.BadGateway? then slot.Closed? else slot.Idle?
  }

  ghost predicate WellFormed(s: State) {
    && s.budget.days != []
    && |s.budget.slots| == |s.reqs|
    && forall i :: 0 <= i < |s.reqs| ==> SlotMatches(s.reqs[i], s.budget.slots[i])
  }

  ghost predicate Enabled(setup: Setup, s: State, e: Event) {
    && WellFormed(s)
    && match e
       case Arrive(_, _, _) => true
       case Screen(i, _, _) => i < |s.reqs| && s.reqs[i].phase.Admitted?
       case Fund(i, prices, _, _) => i < |s.reqs| && s.reqs[i].phase.Screened? && NonNegativePrices(prices)
       case Dispatch(i, attempts, _) =>
         && i < |s.reqs| && s.reqs[i].phase.Funded?
         && |attempts| == |CandidatesOf(setup.providers, s.reqs[i].phase.order.model)|
       case Settle(i, prices, _, _) => i < |s.reqs| && s.reqs[i].phase.Answered? && NonNegativePrices(prices)
       case NewDay(day) => day !in s.budget.days
  }

  /** The limiter's answer, and its buckets afterwards. */
  function LimiterAnswer(setup: Setup, buckets: RL.Buckets, tenant: string, now: int): (bool, RL.Buckets) {
    match setup.limiter
    case None => (true, buckets)
    case Some(limits) =>
      var (d, after) := RL.AllowStep(limits, buckets, tenant, now);
      (d.allowed, after)
  }

  /** An arrival once the limiter has answered. */
  ghost function ArriveStep(s: State, tenantId: string, now: int, answer: (bool, RL.Buckets), auditOk: bool): State
    requires s.budget.days != []
  {
    var tenant := TenantOf(tenantId);
    var s1 := s.(
      metrics := s.metrics.(requests := Wrap64(s.metrics.requests + 1)),
      buckets := answer.1,
      budget := B.Next(s.budget, B.Arrive(tenantId)),
      reqs := s.reqs + [Req(tenant, now, if answer.0 then Admitted else Done(RateLimited))]);
    if answer.0 then s1
    else RecordAudit(RecordBlocked(s1), tenant, 429, 0.0, auditOk)
  }

  ghost function ScreenStep(s: State, i: nat, screening: Screening, auditOk: bool): State
    requires i < |s.reqs|
  {
    match screening
    case Cleared(order) => SetPhase(s, i, Screened(order))
    case GuardBlocks =>
      RecordAudit(RecordBlocked(SetPhase(s, i, Done(Forbidden))), s.reqs[i].tenant, 403, 0.0, auditOk)
    case _ => RecordBlocked(SetPhase(s, i, Done(BadRequest)))
  }

  /** The budget decision on the spend recorded so far. */
  ghost function BudgetAllows(setup: Setup, s: State, i: nat, estimate: real): bool
    requires i < |s.reqs| && s.budget.days != []
  {
    var tenant := s.reqs[i].tenant;
    CT.Decide(setup.budgets.For(tenant), tenant, Spend(s.budget.rows, tenant, B.Today(s.budget)), estimate).allowed
  }

  ghost function FundStep(setup: Setup, s: State, i: nat, prices: Prices, readFails: bool, auditOk: bool): State
    requires WellFormed(s) && i < |s.reqs| && s.reqs[i].phase.Screened?
  {
    var tenant, order := s.reqs[i].tenant, s.reqs[i].phase.order;
    var estimate := EstimateOf(prices, order);
    if readFails then
      RecordAudit(RecordBlocked(SetPhase(s, i, Done(BudgetUnavailable))), tenant, 500, 0.0, auditOk)
    else if !BudgetAllows(setup, s, i, estimate) then
      RecordAudit(RecordBlocked(SetPhase(s, i, Done(OverBudget))), tenant, 402, 0.0, auditOk)
    else
      SetPhase(s, i, Funded(order, estimate)).(budget := B.Next(s.budget, B.Admit(i, estimate)))
  }

  ghost function DispatchStep(s: State, i: nat, attempts: seq<Attempt>, auditOk: bool): State
    requires WellFormed(s) && i < |s.reqs| && s.reqs[i].phase.Funded?
  {
    var phase := s.reqs[i].phase;
    var tries := TriesOf(attempts);
    var s1 := s.(metrics := s.metrics.(failovers := Wrap64(s.metrics.failovers + (if tries > 1 then tries - 1 else 0))));
    match ReplyOf(attempts)
    case None =>
      RecordAudit(SetPhase(s1, i, Done(BadGateway(tries))), s.reqs[i].tenant, 502, 0.0, auditOk)
      .(budget := B.Next(s.budget, B.Drop(i)))
    case Some(reply) => SetPhase(s1, i, Answered(phase.order, phase.estimate, tries, reply))
  }

  /** On a ledger error the handler reports, and audits, the static price instead. */
  ghost function SettleStep(s: State, i: nat, prices: Prices, fault: LedgerFault, auditOk: bool): State
    requires WellFormed(s) && i < |s.reqs| && s.reqs[i].phase.Answered?
  {
    var phase := s.reqs[i].phase;
    var actual := ActualOf(prices, phase.order, phase.reply);
    var cost := if fault.NoFault? then actual
                else StaticPrice(phase.order.model, phase.order.promptTokens, CompletionOf(phase.reply));
    var status := if phase.reply.Reply? then phase.reply.status else 0;
    RecordAudit(SetPhase(s, i, Done(Served(phase.tries, status, cost))), s.reqs[i].tenant, status, cost, auditOk)
    .(metrics := s.metrics.(costMicro := Wrap64(s.metrics.costMicro + Micros(cost))),
      budget := B.Next(s.budget, if fault.AddFails? then B.Drop(i) else B.Settle(i, actual)))
  }

  ghost function Next(setup: Setup, s: State, e: Event): State
    requires Enabled(setup, s, e)
  {
    match e
    case Arrive(tenantId, now, auditOk) =>
      ArriveStep(s, tenantId, now, LimiterAnswer(setup, s.buckets, TenantOf(tenantId), now), auditOk)
    case Screen(i, screening, auditOk) => ScreenStep(s, i, screening, auditOk)
    case Fund(i, prices, readFails, auditOk) => FundStep(setup, s, i, prices, readFails, auditOk)
    case Dispatch(i, attempts, auditOk) => DispatchStep(s, i, attempts, auditOk)
    case Settle(i, prices, fault, auditOk) => SettleStep(s, i, prices, fault, auditOk)
    case NewDay(day) => s.(budget := B.Next(s.budget, B.NewDay(day)))
  }

  /** A run of the gateway from its start on `day`. */
  ghost predicate Run(setup: Setup, states: seq<State>, events: seq<Event>) {
    && |states| == |events| + 1
    && (exists day :: states[0] == Init(day))
    && forall k {:trigger events[k]} :: 0 <= k < |events| ==>
         Enabled(setup, states[k], events[k]) && states[k + 1] == Next(setup, states[k], events[k])
  }

  // ---------------------------------------------------------------------------------------------
  // What a request contributes to the counters
  // ---------------------------------------------------------------------------------------------

  predicate BlockedExit(exit: Exit) {
    exit.RateLimited? || exit.BadRequest? || exit.Forbidden? || exit.BudgetUnavailable? || exit.OverBudget?
  }

  /** Upstream calls made for a request. */
  function TriesMade(req: Req): nat {
    match req.phase
    case Answered(_, _, tries, _) => tries
    case Done(BadGateway(tries)) => tries
    case Done(Served(tries, _, _)) => tries
    case _ => 0
  }

  function Blocked(): Req -> int {
    (r: Req) => if r.phase.Done? && BlockedExit(r.phase.exit) then 1 else 0
  }

  function BadRequests(): Req -> int {
    (r: Req) => if r.phase == Done(BadRequest) then 1 else 0
  }

  function GatewayFailed(): Req -> int {
    (r: Req) => if r.phase.Done? && r.phase.exit.BadGateway? then 1 else 0
  }

  function Replied(): Req -> int {
    (r: Req) => if r.phase.Done? && r.phase.exit.Served? then 1 else 0
  }

  function InProgress(): Req -> int {
    (r: Req) => if r.phase.Done? then 0 else 1
  }

  /** Every finished request is owed an audit event, except one that was malformed. */
  predicate OwedAudit(r: Req) {
    r.phase.Done? && !r.phase.exit.BadRequest?
  }

  function Audited(): Req -> int {
    (r: Req) => if OwedAudit(r) then 1 else 0
  }

  /** The response status of each exit. */
  function StatusOf(exit: Exit): int {
    match exit
    case RateLimited => 429
    case BadRequest => 400
    case Forbidden => 403
    case BudgetUnavailable => 500
    case OverBudget => 402
    case BadGateway(_) => 502
    case Served(_, status, _) => if status == 0 then 200 else status
  }

  /** The audit event a finished request is owed. */
  function EventOf(r: Req): AuditEvent
    requires r.phase.Done?
  {
    AuditEvent(r.tenant, StatusOf(r.phase.exit), if r.phase.exit.Served? then r.phase.exit.cost else 0.0)
  }

  /** One event for each finished request that is owed one. */
  function EventsOwed(reqs: seq<Req>): multiset<AuditEvent> {
    if reqs == [] then multiset{}
    else
      var last := reqs[|reqs| - 1];
      EventsOwed(reqs[..|reqs| - 1]) + (if OwedAudit(last) then multiset{EventOf(last)} else multiset{})
  }

  function Failovers(): Req -> int {
    (r: Req) => if TriesMade(r) > 1 then TriesMade(r) - 1 else 0
  }

  function CostMicros(): Req -> int {
    (r: Req) => if r.phase.Done? && r.phase.exit.Served? then Micros(r.phase.exit.cost) else 0
  }

  function Tries(): Req -> int {
    (r: Req) => TriesMade(r)
  }

  // ---------------------------------------------------------------------------------------------
  // What a step changes
  // ---------------------------------------------------------------------------------------------

  /** The budget event a step amounts to, if any. */
  ghost function BudgetEvent(setup: Setup, s: State, e: Event): Option<B.Event>
    requires Enabled(setup, s, e)
  {
    match e
    case Arrive(tenantId, _, _) => Some(B.Arrive(tenantId))
    case Screen(_, _, _) => None
    case Fund(i, prices, readFails, _) =>
      var estimate := EstimateOf(prices, s.reqs[i].phase.order);
      if !readFails && BudgetAllows(setup, s, i, estimate) then Some(B.Admit(i, estimate)) else None
    case Dispatch(i, attempts, _) => if ReplyOf(attempts).None? then Some(B.Drop(i)) else None
    case Settle(i, prices, fault, _) =>
      if fault.AddFails? then Some(B.Drop(i))
      else Some(B.Settle(i, ActualOf(prices, s.reqs[i].phase.order, s.reqs[i].phase.reply)))
    case NewDay(day) => Some(B.NewDay(day))
  }

  /** Every step of the gateway is a legal step of the budget protocol, or leaves it alone. */
  lemma StepsFollowBudgetProtocol(setup: Setup, s: State, e: Event)
    requires Enabled(setup, s, e)
    ensures var be := BudgetEvent(setup, s, e);
            if be.None? then Next(setup, s, e).budget == s.budget
            else B.Enabled(setup.budgets, s.budget, be.value) && Next(setup, s, e).budget == B.Next(s.budget, be.value)
  {
    match e {
      case Fund(i, prices, _, _) =>
        var order := s.reqs[i].phase.order;
        PriceIsMonotone(prices, order.model, order.promptTokens, 0, CompletionAllowance(order));
      case Settle(i, prices, _, _) =>
        var phase := s.reqs[i].phase;
        PriceIsMonotone(prices, phase.order.model, phase.order.promptTokens, 0, CompletionOf(phase.reply));
      case _ =>
    }
  }

  /** Every step but an arrival and a day change concerns one request, and keeps its tenant and time. */
  ghost predicate OneRequestMoves(s: State, s': State, i: nat) {
    && i < |s.reqs| == |s'.reqs| && s'.reqs == s.reqs[i := s'.reqs[i]]
    && s'.reqs[i].tenant == s.reqs[i].tenant && s'.reqs[i].at == s.reqs[i].at
    && !s.reqs[i].phase.Done? && s'.reqs[i].phase != Admitted && s'.reqs[i].phase != Done(RateLimited)
    && s'.buckets == s.buckets
  }

  /** Its budget slot moves along. */
  ghost predicate OneSlotMoves(s: State, s': State, i: nat)
    requires i < |s'.reqs|
  {
    && i < |s.budget.slots| == |s'.budget.slots| && s'.budget.slots == s.budget.slots[i := s'.budget.slots[i]]
    && s'.budget.days == s.budget.days && SlotMatches(s'.reqs[i], s'.budget.slots[i])
  }

  /** A counter after one request's contribution to it has changed. */
  function Moved(counter: Int64, before: int, after: int): Int64 {
    if before == after then counter else Wrap64(counter + after - before)
  }

  /** The counters move as the one request does. */
  ghost predicate CountersFollow(s: State, s': State, req: Req, req': Req) {
    && s'.metrics.requests == s.metrics.requests
    && s'.metrics.blocked == Moved(s.metrics.blocked, Blocked()(req), Blocked()(req'))
    && s'.metrics.failovers == Moved(s.metrics.failovers, Failovers()(req), Failovers()(req'))
    && s'.metrics.costMicro == Moved(s.metrics.costMicro, CostMicros()(req), CostMicros()(req'))
  }

  /** A finished request's own audit event is written or lost; other steps write none. */
  ghost predicate AuditFollows(s: State, s': State, req': Req) {
    if OwedAudit(req') then
      || (s'.audit == s.audit + [EventOf(req')] && s'.lost == s.lost)
      || (s'.audit == s.audit && s'.lost == s.lost + 1)
    else
      s'.audit == s.audit && s'.lost == s.lost
  }

  ghost predicate Moves(s: State, s': State, i: nat) {
    && OneRequestMoves(s, s', i) && OneSlotMoves(s, s', i)
    && CountersFollow(s, s', s.reqs[i], s'.reqs[i]) && AuditFollows(s, s', s'.reqs[i])
  }

  /** Turning a request away with an audit event. */
  lemma RejectMoves(s: State, i: nat, exit: Exit, auditOk: bool)
    requires WellFormed(s) && i < |s.reqs| && (s.reqs[i].phase.Admitted? || s.reqs[i].phase.Screened?)
    requires exit.Forbidden? || exit.BudgetUnavailable? || exit.OverBudget?
    ensures Moves(s, RecordAudit(RecordBlocked(SetPhase(s, i, Done(exit))), s.reqs[i].tenant, StatusOf(exit), 0.0, auditOk), i)
  {
    assert SlotMatches(s.reqs[i], s.budget.slots[i]);
  }

  lemma ScreenMoves(s: State, i: nat, screening: Screening, auditOk: bool)
    requires WellFormed(s) && i < |s.reqs| && s.reqs[i].phase.Admitted?
    ensures Moves(s, ScreenStep(s, i, screening, auditOk), i)
  {
    assert SlotMatches(s.reqs[i], s.budget.slots[i]);
    RejectMoves(s, i, Forbidden, auditOk);
  }

  lemma FundMoves(setup: Setup, s: State, i: nat, prices: Prices, readFails: bool, auditOk: bool)
    requires WellFormed(s) && i < |s.reqs| && s.reqs[i].phase.Screened?
    ensures Moves(s, FundStep(setup, s, i, prices, readFails, auditOk), i)
  {
    assert SlotMatches(s.reqs[i], s.budget.slots[i]);
    if readFails {
      RejectMoves(s, i, BudgetUnavailable, auditOk);
    } else if !BudgetAllows(setup, s, i, EstimateOf(prices, s.reqs[i].phase.order)) {
      RejectMoves(s, i, OverBudget, auditOk);
    }
  }

  lemma DispatchMoves(s: State, i: nat, attempts: seq<Attempt>, auditOk: bool)
    requires WellFormed(s) && i < |s.reqs| && s.reqs[i].phase.Funded?
    ensures Moves(s, DispatchStep(s, i, attempts, auditOk), i)
  {
    assert SlotMatches(s.reqs[i], s.budget.slots[i]);
  }

  lemma SettleMoves(s: State, i: nat, prices: Prices, fault: LedgerFault, auditOk: bool)
    requires WellFormed(s) && i < |s.reqs| && s.reqs[i].phase.Answered?
    ensures Moves(s, SettleStep(s, i, prices, fault, auditOk), i)
  {
    assert SlotMatches(s.reqs[i], s.budget.slots[i]);
  }

  lemma StepMoves(setup: Setup, s: State, e: Event)
    requires Enabled(setup, s, e) && !e.Arrive? && !e.NewDay?
    ensures Moves(s, Next(setup, s, e), e.i)
  {
    match e {
      case Screen(i, screening, auditOk) => ScreenMoves(s, i, screening, auditOk);
      case Fund(i, prices, readFails, auditOk) => FundMoves(setup, s, i, prices, readFails, auditOk);
      case Dispatch(i, attempts, auditOk) => DispatchMoves(s, i, attempts, auditOk);
      case Settle(i, prices, fault, auditOk) => SettleMoves(s, i, prices, fault, auditOk);
    }
  }

  lemma MatchingUpdate(s: State, s': State, i: nat)
    requires WellFormed(s) && Moves(s, s', i)
    ensures WellFormed(s')
  {
  }

  lemma ArrivalKeepsWellFormed(s: State, tenantId: string, now: int, answer: (bool, RL.Buckets), auditOk: bool)
    requires WellFormed(s)
    ensures WellFormed(ArriveStep(s, tenantId, now, answer, auditOk))
  {
  }

  /** `WellFormed` is no restriction on runs: every step keeps it. */
  lemma StepKeepsWellFormed(setup: Setup, s: State, e: Event)
    requires Enabled(setup, s, e)
    ensures WellFormed(Next(setup, s, e))
  {
    match e {
      case Arrive(tenantId, now, auditOk) =>
        ArrivalKeepsWellFormed(s, tenantId, now, LimiterAnswer(setup, s.buckets, TenantOf(tenantId), now), auditOk);
      case NewDay(_) =>
      case _ =>
        StepMoves(setup, s, e);
        MatchingUpdate(s, Next(setup, s, e), e.i);
    }
  }

  lemma StateAt(setup: Setup, states: seq<State>, events: seq<Event>, k: nat)
    requires Run(setup, states, events) && 0 < k < |states|
    ensures Enabled(setup, states[k - 1], events[k - 1]) && states[k] == Next(setup, states[k - 1], events[k - 1])
    ensures WellFormed(states[k])
  {
    var j := k - 1;
    assert states[j + 1] == Next(setup, states[j], events[j]);
    StepKeepsWellFormed(setup, states[j], events[j]);
  }

  // ---------------------------------------------------------------------------------------------
  // Accounting
  // ---------------------------------------------------------------------------------------------

  /** Every counter is the total of what the requests themselves show, wrapped. */
  ghost predicate CountersMatch(m: Counters, reqs: seq<Req>) {
    && m.requests == Wrap64(|reqs|)
    && m.blocked == Wrap64(Total(reqs, Blocked()))
    && m.failovers == Wrap64(Total(reqs, Failovers()))
    && m.costMicro == Wrap64(Total(reqs, CostMicros()))
  }

  ghost predicate Accounts(s: State) {
    CountersMatch(s.metrics, s.reqs) && |s.audit| + s.lost == Total(s.reqs, Audited())
  }

  lemma MovedFollowsTotal(total: int, before: int, after: int)
    ensures Moved(Wrap64(total), before, after) == Wrap64(total - before + after)
  {
    WrapAdds(total, after - before);
  }

  lemma TotalsMove(reqs: seq<Req>, i: nat, req: Req)
    requires i < |reqs|
    ensures Total(reqs[i := req], Blocked()) == Total(reqs, Blocked()) - Blocked()(reqs[i]) + Blocked()(req)
    ensures Total(reqs[i := req], Failovers()) == Total(reqs, Failovers()) - Failovers()(reqs[i]) + Failovers()(req)
    ensures Total(reqs[i := req], CostMicros()) == Total(reqs, CostMicros()) - CostMicros()(reqs[i]) + CostMicros()(req)
    ensures Total(reqs[i := req], Audited()) == Total(reqs, Audited()) - Audited()(reqs[i]) + Audited()(req)
  {
    TotalUpdate(reqs, i, req, Blocked());
    TotalUpdate(reqs, i, req, Failovers());
    TotalUpdate(reqs, i, req, CostMicros());
    TotalUpdate(reqs, i, req, Audited());
  }

  lemma TotalsGrow(reqs: seq<Req>, req: Req)
    ensures Total(reqs + [req], Blocked()) == Total(reqs, Blocked()) + Blocked()(req)
    ensures Total(reqs + [req], Failovers()) == Total(reqs, Failovers()) + Failovers()(req)
    ensures Total(reqs + [req], CostMicros()) == Total(reqs, CostMicros()) + CostMicros()(req)
    ensures Total(reqs + [req], Audited()) == Total(reqs, Audited()) + Audited()(req)
  {
    TotalAppend(reqs, req, Blocked());
    TotalAppend(reqs, req, Failovers());
    TotalAppend(reqs, req, CostMicros());
    TotalAppend(reqs, req, Audited());
  }

  lemma FollowingKeepsAccounts(s: State, s': State, i: nat)
    requires Accounts(s) && Moves(s, s', i)
    ensures Accounts(s')
  {
    var req, req' := s.reqs[i], s'.reqs[i];
    TotalsMove(s.reqs, i, req');
    MovedFollowsTotal(Total(s.reqs, Blocked()), Blocked()(req), Blocked()(req'));
    MovedFollowsTotal(Total(s.reqs, Failovers()), Failovers()(req), Failovers()(req'));
    MovedFollowsTotal(Total(s.reqs, CostMicros()), CostMicros()(req), CostMicros()(req'));
  }

  /** A new request counts as one, and as blocked if it was turned away at once. */
  lemma ArrivalKeepsCounters(m: Counters, reqs: seq<Req>, req: Req)
    requires CountersMatch(m, reqs) && (req.phase == Admitted || req.phase == Done(RateLimited))
    ensures CountersMatch(m.(requests := Wrap64(m.requests + 1), blocked := Moved(m.blocked, 0, Blocked()(req))), reqs + [req])
  {
    TotalsGrow(reqs, req);
    WrapAdds(|reqs|, 1);
    MovedFollowsTotal(Total(reqs, Blocked()), 0, Blocked()(req));
  }

  lemma ArrivalKeepsAccounts(s: State, tenantId: string, now: int, answer: (bool, RL.Buckets), auditOk: bool)
    requires s.budget.days != [] && Accounts(s)
    ensures Accounts(ArriveStep(s, tenantId, now, answer, auditOk))
  {
    var req := Req(TenantOf(tenantId), now, if answer.0 then Admitted else Done(RateLimited));
    ArrivalKeepsCounters(s.metrics, s.reqs, req);
    TotalAppend(s.reqs, req, Audited());
  }

  lemma StepKeepsAccounts(setup: Setup, s: State, e: Event)
    requires Enabled(setup, s, e) && Accounts(s)
    ensures Accounts(Next(setup, s, e))
  {
    match e {
      case Arrive(tenantId, now, auditOk) =>
        ArrivalKeepsAccounts(s, tenantId, now, LimiterAnswer(setup, s.buckets, TenantOf(tenantId), now), auditOk);
      case NewDay(_) =>
      case _ =>
        StepMoves(setup, s, e);
        FollowingKeepsAccounts(s, Next(setup, s, e), e.i);
    }
  }

  lemma {:induction false} RunKeepsAccounts(setup: Setup, states: seq<State>, events: seq<Event>, k: nat)
    requires Run(setup, states, events) && k < |states|
    ensures Accounts(states[k])
  {
    if k > 0 {
      RunKeepsAccounts(setup, states, events, k - 1);
      StateAt(setup, states, events, k);
      StepKeepsAccounts(setup, states[k - 1], events[k - 1]);
    }
  }

  lemma {:induction false} RequestsPartition(reqs: seq<Req>)
    ensures |reqs| == Total(reqs, Blocked()) + Total(reqs, GatewayFailed()) + Total(reqs, Replied()) + Total(reqs, InProgress())
    ensures |reqs| == Total(reqs, Audited()) + Total(reqs, BadRequests()) + Total(reqs, InProgress())
    ensures 0 <= Total(reqs, Blocked()) <= |reqs|
  {
    if reqs != [] {
      RequestsPartition(reqs[..|reqs| - 1]);
    }
  }

  lemma OwedAppend(reqs: seq<Req>, req: Req)
    ensures EventsOwed(reqs + [req]) == EventsOwed(reqs) + (if OwedAudit(req) then multiset{EventOf(req)} else multiset{})
  {
    assert (reqs + [req])[..|reqs|] == reqs;
  }

  lemma {:induction false} OwedUpdate(reqs: seq<Req>, i: nat, req: Req)
    requires i < |reqs| && !OwedAudit(reqs[i])
    ensures EventsOwed(reqs[i := req]) == EventsOwed(reqs) + (if OwedAudit(req) then multiset{EventOf(req)} else multiset{})
  {
    var n := |reqs| - 1;
    if i < n {
      OwedUpdate(reqs[..n], i, req);
      assert reqs[i := req][..n] == reqs[..n][i := req];
    } else {
      assert reqs[i := req][..n] == reqs[..n];
    }
  }

  ghost predicate AuditHonest(s: State) {
    multiset(s.audit) <= EventsOwed(s.reqs)
  }

  lemma StepKeepsAuditHonest(setup: Setup, s: State, e: Event)
    requires Enabled(setup, s, e) && AuditHonest(s)
    ensures AuditHonest(Next(setup, s, e))
  {
    match e {
      case Arrive(tenantId, now, auditOk) =>
        ArrivalAudits(s, tenantId, now, LimiterAnswer(setup, s.buckets, TenantOf(tenantId), now), auditOk);
      case NewDay(_) =>
      case _ =>
        StepMoves(setup, s, e);
        MoveAudits(s, Next(setup, s, e), e.i);
    }
  }

  /** The one request that moves was not finished before; its event, if any, is its own. */
  lemma MoveAudits(s: State, s': State, i: nat)
    requires Moves(s, s', i) && AuditHonest(s)
    ensures AuditHonest(s')
  {
    OwedUpdate(s.reqs, i, s'.reqs[i]);
  }

  lemma ArrivalAudits(s: State, tenantId: string, now: int, answer: (bool, RL.Buckets), auditOk: bool)
    requires s.budget.days != [] && AuditHonest(s)
    ensures AuditHonest(ArriveStep(s, tenantId, now, answer, auditOk))
  {
    OwedAppend(s.reqs, Req(TenantOf(tenantId), now, if answer.0 then Admitted else Done(RateLimited)));
  }

  lemma {:induction false} RunKeepsAuditHonest(setup: Setup, states: seq<State>, events: seq<Event>, k: nat)
    requires Run(setup, states, events) && k < |states|
    ensures AuditHonest(states[k])
  {
    if k > 0 {
      RunKeepsAuditHonest(setup, states, events, k - 1);
      StateAt(setup, states, events, k);
      StepKeepsAuditHonest(setup, states[k - 1], events[k - 1]);
    }
  }

  lemma {:induction false} OwedCount(reqs: seq<Req>)
    ensures |EventsOwed(reqs)| == Total(reqs, Audited())
  {
    if reqs != [] {
      OwedCount(reqs[..|reqs| - 1]);
    }
  }

  /**
   The audit log holds only true events, each finished request's own tenant, status and cost; and
   unless a write was lost it holds exactly one for every finished request but the malformed.
   */
  lemma AuditLogIsExact(setup: Setup, states: seq<State>, events: seq<Event>, k: nat)
    requires Run(setup, states, events) && k < |states|
    ensures multiset(states[k].audit) <= EventsOwed(states[k].reqs)
    ensures multiset(states[k].audit) == EventsOwed(states[k].reqs) <==> states[k].lost == 0
  {
    RunKeepsAuditHonest(setup, states, events, k);
    RunKeepsAccounts(setup, states, events, k);
    OwedCount(states[k].reqs);
    SubsetOfSameSize(multiset(states[k].audit), EventsOwed(states[k].reqs));
  }

  lemma SubsetOfSameSize(a: multiset<AuditEvent>, b: multiset<AuditEvent>)
    requires a <= b
    ensures a == b <==> |a| == |b|
  {
    assert b == a + (b - a);
  }

  /**
   Pipeline accounting, at every moment of every run: requests are the blocked, the failed
   upstream, the served and those still in progress; and every finished request but a malformed
   one has its audit event, written or lost. The counters wrap around at 64 bits; until as many
   requests have arrived the first identity holds as it stands.
   */
  lemma PipelineAccounting(setup: Setup, states: seq<State>, events: seq<Event>, k: nat)
    requires Run(setup, states, events) && k < |states|
    ensures var s := states[k];
            var others := Total(s.reqs, GatewayFailed()) + Total(s.reqs, Replied()) + Total(s.reqs, InProgress());
            && s.metrics.requests == Wrap64(s.metrics.blocked + others)
            && (|s.reqs| <= INT64_MAX ==> |s.reqs| == s.metrics.requests == s.metrics.blocked + others)
            && |s.audit| + s.lost == |s.reqs| - Total(s.reqs, BadRequests()) - Total(s.reqs, InProgress())
            && s.metrics.failovers == Wrap64(Total(s.reqs, Failovers()))
            && s.metrics.costMicro == Wrap64(Total(s.reqs, CostMicros()))
  {
    var reqs := states[k].reqs;
    RunKeepsAccounts(setup, states, events, k);
    RequestsPartition(reqs);
    WrapAdds(Total(reqs, Blocked()), |reqs| - Total(reqs, Blocked()));
  }
}
