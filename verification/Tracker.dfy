/** The cost tracker: budget decisions and spend recording over two interchangeable back ends. */
module CostTracker {
  import opened Sequences
  import opened Tenancy
  import opened Config
  import opened Ledger
  import opened Pricing

  datatype Budget = Budget(daily: real, perReq: real)

  datatype Decision = Decision(allowed: bool, reason: string, tenantId: string, spent: real, limit: real)

  datatype Usage = Usage(promptTokens: int, completionTokens: int, costUsd: real)

  datatype Snapshot = Snapshot(tenantId: string, day: string, spentUsd: real, dailyBudgetUsd: real, requestBudgetUsd: real)

  datatype Result<+T> = Ok(value: T) | Err(reason: string)

  // ---------------------------------------------------------------------------------------------
  // Budgets
  // ---------------------------------------------------------------------------------------------

  datatype Budgets = Budgets(defaults: Budget, tenants: map<string, Budget>) {
    function For(tenantId: string): Budget {
      var tenant := TenantOf(tenantId);
      if tenant in tenants then tenants[tenant] else defaults
    }
  }

  /** A tenant's positive values override the defaults. */
  function MergeBudget(defaults: Budget, tenant: TenantConfig): Budget {
    Budget(if tenant.dailyBudgetUsd > 0.0 then tenant.dailyBudgetUsd else defaults.daily,
           if tenant.perRequestBudgetUsd > 0.0 then tenant.perRequestBudgetUsd else defaults.perReq)
  }

  /** The budget set for `id` by the last entry that names it. */
  function EffectiveBudget(defaults: Budget, tenants: seq<TenantConfig>, id: string): Budget {
    if tenants == [] then defaults
    else
      var n := |tenants| - 1;
      if tenants[n].id == TenantOf(id) then MergeBudget(defaults, tenants[n])
      else EffectiveBudget(defaults, tenants[..n], id)
  }

  method TenantBudgets(defaults: Budget, tenants: seq<TenantConfig>) returns (budgets: map<string, Budget>)
    ensures forall id :: Budgets(defaults, budgets).For(id) == EffectiveBudget(defaults, tenants, id)
  {
    budgets := map[];
    for n := 0 to |tenants|
      invariant forall id :: Budgets(defaults, budgets).For(id) == EffectiveBudget(defaults, tenants[..n], id)
    {
      ghost var before := budgets;
      budgets := budgets[tenants[n].id := MergeBudget(defaults, tenants[n])];
      forall id ensures Budgets(defaults, budgets).For(id) == EffectiveBudget(defaults, tenants[..n + 1], id) {
        assert tenants[..n + 1][..n] == tenants[..n];
        assert Budgets(defaults, before).For(id) == EffectiveBudget(defaults, tenants[..n], id);
      }
    }
    assert tenants[..|tenants|] == tenants;
  }

  lemma {:induction false} BudgetOfUnlisted(defaults: Budget, tenants: seq<TenantConfig>, id: string)
    requires forall i :: 0 <= i < |tenants| ==> tenants[i].id != TenantOf(id)
    ensures EffectiveBudget(defaults, tenants, id) == defaults
  {
    if tenants != [] {
      BudgetOfUnlisted(defaults, tenants[..|tenants| - 1], id);
    }
  }

  lemma {:induction false} BudgetOfListed(defaults: Budget, tenants: seq<TenantConfig>, n: nat)
    requires DistinctIds(tenants) && n < |tenants| && tenants[n].id != ""
    ensures EffectiveBudget(defaults, tenants, tenants[n].id) == MergeBudget(defaults, tenants[n])
  {
    var last := |tenants| - 1;
    if n < last {
      assert Identity(tenants[n]) != Identity(tenants[last]);
      BudgetOfListed(defaults, tenants[..last], n);
    }
  }

  /** Each value of a listed tenant's budget is its own if it sets one, else the default; an unlisted tenant has the defaults. */
  lemma EffectiveBudgetIsFieldwise(defaults: Budget, tenants: seq<TenantConfig>, n: nat, id: string)
    requires DistinctIds(tenants) && n < |tenants| && tenants[n].id != ""
    ensures var own := EffectiveBudget(defaults, tenants, tenants[n].id);
            && own.daily == (if tenants[n].dailyBudgetUsd > 0.0 then tenants[n].dailyBudgetUsd else defaults.daily)
            && own.perReq == (if tenants[n].perRequestBudgetUsd > 0.0 then tenants[n].perRequestBudgetUsd else defaults.perReq)
    ensures (forall i :: 0 <= i < |tenants| ==> tenants[i].id != TenantOf(id)) ==> EffectiveBudget(defaults, tenants, id) == defaults
  {
    BudgetOfListed(defaults, tenants, n);
    if forall i :: 0 <= i < |tenants| ==> tenants[i].id != TenantOf(id) {
      BudgetOfUnlisted(defaults, tenants, id);
    }
  }

  /**
   As with limits: budgets are filed under the id as written and looked up under the trimmed one,
   so a validated tenant is held to its own budget exactly when its id is written without
   surrounding white space, or each value it sets repeats the default.
   */
  lemma OwnBudgetAppliesExactlyWhen(defaults: Budget, tenants: seq<TenantConfig>, n: nat)
    requires ValidTenants(tenants) && n < |tenants|
    ensures EffectiveBudget(defaults, tenants, Identity(tenants[n])) == MergeBudget(defaults, tenants[n])
       <==> || Identity(tenants[n]) == tenants[n].id
            || (&& (tenants[n].dailyBudgetUsd > 0.0 ==> tenants[n].dailyBudgetUsd == defaults.daily)
                && (tenants[n].perRequestBudgetUsd > 0.0 ==> tenants[n].perRequestBudgetUsd == defaults.perReq))
  {
    if Identity(tenants[n]) == tenants[n].id {
      BudgetOfListed(defaults, tenants, n);
    } else {
      IdentityIsUnlisted(tenants, n);
      BudgetOfUnlisted(defaults, tenants, Identity(tenants[n]));
    }
  }

  /** One blank after the id, and the tenant's daily budget is not enforced at all. */
  lemma PaddedIdLosesItsBudget()
    ensures var acme := TenantConfig("acme ", 5.0, 0.0, RateLimitConfig(false, 0, 0));
            && ValidTenants([acme]) && Identity(acme) == "acme"
            && EffectiveBudget(Budget(0.0, 0.0), [acme], "acme") == Budget(0.0, 0.0)
  {
    assert "acme "[..4] == "acme";
    assert TrimSpace("acme ") == TrimSpace("acme") == "acme";
  }

  /** The budget check, the per-request budget first; the numbers reported with a denial are the ones that justify it. */
  function Decide(budget: Budget, tenant: string, spent: real, estimated: real): (d: Decision)
    ensures d.allowed <==>
              && (budget.perReq > 0.0 ==> estimated <= budget.perReq)
              && (budget.daily > 0.0 ==> spent + estimated <= budget.daily)
    ensures d.reason == "per_request_budget_exceeded" <==> budget.perReq > 0.0 && estimated > budget.perReq
    ensures d.reason == "daily_budget_exceeded" <==>
              !(budget.perReq > 0.0 && estimated > budget.perReq) && budget.daily > 0.0 && spent + estimated > budget.daily
    ensures d.allowed <==> d.reason == ""
    ensures if d.reason == "per_request_budget_exceeded" then d.spent == estimated && d.limit == budget.perReq
            else d.spent == spent && d.limit == budget.daily
    ensures d.tenantId == tenant
  {
    if budget.perReq > 0.0 && estimated > budget.perReq then
      Decision(false, "per_request_budget_exceeded", tenant, estimated, budget.perReq)
    else if budget.daily > 0.0 && spent + estimated > budget.daily then
      Decision(false, "daily_budget_exceeded", tenant, spent, budget.daily)
    else
      Decision(true, "", tenant, spent, budget.daily)
  }

  // ---------------------------------------------------------------------------------------------
  // Back ends
  // ---------------------------------------------------------------------------------------------

  /** The map key of the in-memory back end. */
  function SpendKey(tenantId: string, day: string): string {
    TenantOf(tenantId) + "\0" + day
  }

  /** A formatted date holds no NUL character. */
  predicate IsDay(day: string) {
    '\0' !in day
  }

  /** One key per tenant and day, whatever characters a tenant id holds: the last NUL ends the id. */
  lemma SpendKeyIsInjective(t1: string, d1: string, t2: string, d2: string)
    requires IsDay(d1) && IsDay(d2)
    ensures SpendKey(t1, d1) == SpendKey(t2, d2) <==> TenantOf(t1) == TenantOf(t2) && d1 == d2
  {
    var a, b := TenantOf(t1), TenantOf(t2);
    if SpendKey(t1, d1) == SpendKey(t2, d2) {
      if |a| < |b| {
        LongerIdLeavesNul(a, d1, b, d2);
      } else if |b| < |a| {
        LongerIdLeavesNul(b, d2, a, d1);
      } else {
        assert a == SpendKey(t1, d1)[..|a|] && b == SpendKey(t2, d2)[..|b|];
        assert d1 == SpendKey(t1, d1)[|a| + 1..] && d2 == SpendKey(t2, d2)[|b| + 1..];
      }
    }
  }

  lemma LongerIdLeavesNul(a: string, d1: string, b: string, d2: string)
    requires a + "\0" + d1 == b + "\0" + d2 && |a| < |b|
    ensures '\0' in d1
  {
    assert (a + "\0" + d1)[|b|] == d1[|b| - |a| - 1];
    assert (b + "\0" + d2)[|b|] == '\0';
  }

  /** Either the map alone, or the ledger rows with the map mirroring what was last read. */
  datatype Backend = Memory(spendByDay: map<string, real>) | Ledgered(rows: Rows, spendByDay: map<string, real>)

  function SpentForDay(b: Backend, tenantId: string, day: string): real {
    match b
    case Memory(m) => var key := SpendKey(tenantId, day); if key in m then m[key] else 0.0
    case Ledgered(rows, _) => Spend(rows, tenantId, day)
  }

  /** Reading through the ledger refreshes the mirror. */
  function AfterRead(b: Backend, tenantId: string, day: string): Backend {
    match b
    case Memory(_) => b
    case Ledgered(rows, m) => Ledgered(rows, m[SpendKey(tenantId, day) := Spend(rows, tenantId, day)])
  }

  function AfterRecord(b: Backend, tenantId: string, day: string, amount: real): Backend {
    match b
    case Memory(m) => Memory(m[SpendKey(tenantId, day) := SpentForDay(b, tenantId, day) + amount])
    case Ledgered(rows, m) =>
      AfterRead(Ledgered(Upsert(rows, tenantId, day, amount), m), tenantId, day)
  }

  // ---------------------------------------------------------------------------------------------
  // Operation sequences
  // ---------------------------------------------------------------------------------------------

  datatype Op =
    | AllowOp(tenantId: string, day: string, estimated: real)
    | RecordOp(tenantId: string, day: string, usage: Usage)
    | SnapshotOp(tenantId: string, day: string)
    | Restart

  datatype Output = Decided(decision: Decision) | Recorded(usage: Usage) | Taken(snapshot: Snapshot) | Restarted

  /** The answer to an operation, given the tenant's spend for the day before it. */
  function Answer(budgets: Budgets, op: Op, spent: real): Output {
    match op
    case AllowOp(t, _, estimated) => Decided(Decide(budgets.For(t), TenantOf(t), spent, estimated))
    case RecordOp(_, _, usage) => Recorded(usage)
    case SnapshotOp(t, day) => Taken(Snapshot(TenantOf(t), day, spent, budgets.For(t).daily, budgets.For(t).perReq))
    case Restart => Restarted
  }

  function Apply(budgets: Budgets, b: Backend, op: Op): (r: (Output, Backend)) {
    match op
    case AllowOp(t, day, _) => (Answer(budgets, op, SpentForDay(b, t, day)), AfterRead(b, t, day))
    case RecordOp(t, day, usage) => (Answer(budgets, op, 0.0), AfterRecord(b, t, day, usage.costUsd))
    case SnapshotOp(t, day) => (Answer(budgets, op, SpentForDay(b, t, day)), AfterRead(b, t, day))
    case Restart => (Restarted, if b.Memory? then Memory(map[]) else Ledgered(b.rows, map[]))
  }

  function RunFrom(budgets: Budgets, b: Backend, ops: seq<Op>): (r: (seq<Output>, Backend))
    ensures |r.0| == |ops|
  {
    if ops == [] then ([], b)
    else
      var (outs, mid) := RunFrom(budgets, b, ops[..|ops| - 1]);
      var (out, end) := Apply(budgets, mid, ops[|ops| - 1]);
      (outs + [out], end)
  }

  /** What one operation charges to a tenant and day. */
  function ChargeTo(tenantId: string, day: string): Op -> real {
    (op: Op) =>
      if op.RecordOp? && TenantOf(op.tenantId) == TenantOf(tenantId) && op.day == day then op.usage.costUsd else 0.0
  }

  function TotalCharged(ops: seq<Op>, tenantId: string, day: string): real {
    Sum(ops, ChargeTo(tenantId, day))
  }

  /** The reference: every answer follows from the charges recorded before it, and nothing else. */
  function Reference(budgets: Budgets, ops: seq<Op>): (outs: seq<Output>)
    ensures |outs| == |ops|
  {
    if ops == [] then []
    else
      var n := |ops| - 1;
      var spent := if ops[n].Restart? then 0.0 else TotalCharged(ops[..n], ops[n].tenantId, ops[n].day);
      Reference(budgets, ops[..n]) + [Answer(budgets, ops[n], spent)]
  }

  ghost predicate DatesAreDays(ops: seq<Op>) {
    forall i :: 0 <= i < |ops| && !ops[i].Restart? ==> IsDay(ops[i].day)
  }

  /** The back end holds exactly what was charged, for every tenant and day. */
  ghost predicate Holds(b: Backend, ops: seq<Op>) {
    forall t, d :: IsDay(d) ==> SpentForDay(b, t, d) == TotalCharged(ops, t, d)
  }

  /** A restart loses what was only in memory, and nothing that is in the ledger. */
  lemma RestartKeepsOnlyTheLedger(budgets: Budgets, b: Backend, t: string, d: string)
    ensures SpentForDay(Apply(budgets, b, Restart).1, t, d) == if b.Memory? then 0.0 else SpentForDay(b, t, d)
  {
  }

  lemma ReadChangesNoSpend(b: Backend, tenantId: string, day: string, t: string, d: string)
    ensures SpentForDay(AfterRead(b, tenantId, day), t, d) == SpentForDay(b, t, d)
  {
  }

  lemma RecordAddsSpend(b: Backend, tenantId: string, day: string, amount: real, t: string, d: string)
    requires IsDay(day) && IsDay(d)
    ensures SpentForDay(AfterRecord(b, tenantId, day, amount), t, d) == SpentForDay(b, t, d)
              + (if TenantOf(t) == TenantOf(tenantId) && d == day then amount else 0.0)
  {
    SpendKeyIsInjective(tenantId, day, t, d);
  }

  /**
   Back-end refinement: starting empty, the ledger-backed tracker restarted at any points, and the
   in-memory tracker never restarted, both answer every operation as the reference does.
   */
  lemma {:induction false} BackendMeetsReference(budgets: Budgets, b: Backend, ops: seq<Op>)
    requires DatesAreDays(ops) && Holds(b, [])
    requires b.Memory? ==> forall i :: 0 <= i < |ops| ==> !ops[i].Restart?
    ensures RunFrom(budgets, b, ops).0 == Reference(budgets, ops)
    ensures Holds(RunFrom(budgets, b, ops).1, ops)
    ensures RunFrom(budgets, b, ops).1.Memory? == b.Memory?
  {
    if ops != [] {
      var n := |ops| - 1;
      BackendMeetsReference(budgets, b, ops[..n]);
      var mid, op := RunFrom(budgets, b, ops[..n]).1, ops[n];
      forall t, d | IsDay(d) ensures SpentForDay(Apply(budgets, mid, op).1, t, d) == TotalCharged(ops, t, d) {
        assert SpentForDay(mid, t, d) == TotalCharged(ops[..n], t, d);
        match op {
          case RecordOp(tenantId, day, usage) => RecordAddsSpend(mid, tenantId, day, usage.costUsd, t, d);
          case Restart =>
          case _ => ReadChangesNoSpend(mid, op.tenantId, op.day, t, d);
        }
      }
      assert !op.Restart? ==> SpentForDay(mid, op.tenantId, op.day) == TotalCharged(ops[..n], op.tenantId, op.day);
    }
  }

  /** Two fresh trackers, one on the ledger and one in memory, cannot be told apart. */
  lemma BackendsAgree(budgets: Budgets, ops: seq<Op>)
    requires DatesAreDays(ops) && forall i :: 0 <= i < |ops| ==> !ops[i].Restart?
    ensures RunFrom(budgets, Ledgered(map[], map[]), ops).0 == RunFrom(budgets, Memory(map[]), ops).0
  {
    BackendMeetsReference(budgets, Ledgered(map[], map[]), ops);
    BackendMeetsReference(budgets, Memory(map[]), ops);
  }

  lemma {:induction false} ReferenceAt(budgets: Budgets, ops: seq<Op>, i: nat)
    requires i < |ops| && !ops[i].Restart?
    ensures Reference(budgets, ops)[i] == Answer(budgets, ops[i], TotalCharged(ops[..i], ops[i].tenantId, ops[i].day))
  {
    var n := |ops| - 1;
    if i < n {
      ReferenceAt(budgets, ops[..n], i);
      assert ops[..n][..i] == ops[..i];
    }
  }

  /** What a tracker must answer, given the tenant's charges so far and its budgets. */
  ghost predicate AnswersTruly(op: Op, out: Output, charged: real, daily: real, perReq: real) {
    match op
    case AllowOp(t, _, estimated) =>
      && out.Decided? && out.decision.tenantId == TenantOf(t)
      && out.decision.reason == (if perReq > 0.0 && estimated > perReq then "per_request_budget_exceeded"
                                 else if daily > 0.0 && charged + estimated > daily then "daily_budget_exceeded"
                                 else "")
      && (out.decision.allowed <==> out.decision.reason == "")
      && (if out.decision.reason == "per_request_budget_exceeded"
          then out.decision.spent == estimated && out.decision.limit == perReq
          else out.decision.spent == charged && out.decision.limit == daily)
    case RecordOp(_, _, usage) => out == Recorded(usage)
    case SnapshotOp(t, day) =>
      && out.Taken? && out.snapshot.tenantId == TenantOf(t) && out.snapshot.day == day && out.snapshot.spentUsd == charged
      && out.snapshot.dailyBudgetUsd == daily && out.snapshot.requestBudgetUsd == perReq
    case Restart => out == Restarted
  }

  /** Every answer of either back end is the true one on the charges recorded before it. */
  lemma AnswersAreTrue(budgets: Budgets, b: Backend, ops: seq<Op>, i: nat)
    requires DatesAreDays(ops) && Holds(b, []) && i < |ops| && !ops[i].Restart?
    requires b.Memory? ==> forall i :: 0 <= i < |ops| ==> !ops[i].Restart?
    ensures var budget := budgets.For(ops[i].tenantId);
            AnswersTruly(ops[i], RunFrom(budgets, b, ops).0[i], TotalCharged(ops[..i], ops[i].tenantId, ops[i].day),
                         budget.daily, budget.perReq)
  {
    BackendMeetsReference(budgets, b, ops);
    ReferenceAt(budgets, ops, i);
  }

  // ---------------------------------------------------------------------------------------------
  // Operations that cannot be noticed
  // ---------------------------------------------------------------------------------------------

  predicate ChargesTenant(op: Op, tenantId: string) {
    op.RecordOp? && TenantOf(op.tenantId) == TenantOf(tenantId)
  }

  /** No dropped operation records spend for the tenant of a kept one. */
  ghost predicate DropsAreUnrelated(ops: seq<Op>, keep: seq<bool>)
    requires |ops| == |keep|
  {
    forall i, j :: 0 <= i < |ops| && 0 <= j < |ops| && !keep[i] && keep[j] && !ops[j].Restart? ==>
      !ChargesTenant(ops[i], ops[j].tenantId)
  }

  lemma {:induction false} DroppedChargesNothing(ops: seq<Op>, keep: seq<bool>, tenantId: string, day: string)
    requires |ops| == |keep|
    requires forall i :: 0 <= i < |ops| && !keep[i] ==> !ChargesTenant(ops[i], tenantId)
    ensures TotalCharged(Kept(ops, keep), tenantId, day) == TotalCharged(ops, tenantId, day)
  {
    if ops != [] {
      var n := |ops| - 1;
      DroppedChargesNothing(ops[..n], keep[..n], tenantId, day);
      KeptExtends(ops, keep);
      if keep[n] {
        assert Kept(ops, keep)[..|Kept(ops, keep)| - 1] == Kept(ops[..n], keep[..n]);
      }
    }
  }

  /**
   Dropping operations that record nothing for the tenants of the remaining ones leaves every
   remaining answer unchanged. Restarts, reads, and all operations of other tenants are such.
   */
  lemma {:induction false} UnrelatedOperationsAreInvisible(budgets: Budgets, ops: seq<Op>, keep: seq<bool>)
    requires |ops| == |keep| && DropsAreUnrelated(ops, keep)
    ensures Reference(budgets, Kept(ops, keep)) == Kept(Reference(budgets, ops), keep)
  {
    if ops != [] {
      var n := |ops| - 1;
      UnrelatedOperationsAreInvisible(budgets, ops[..n], keep[..n]);
      KeptExtends(ops, keep);
      KeptExtends(Reference(budgets, ops), keep);
      assert Reference(budgets, ops)[..n] == Reference(budgets, ops[..n]);
      if keep[n] {
        assert Kept(ops, keep)[..|Kept(ops, keep)| - 1] == Kept(ops[..n], keep[..n]);
        if !ops[n].Restart? {
          DroppedChargesNothing(ops[..n], keep[..n], ops[n].tenantId, ops[n].day);
        }
      }
    }
  }

  function OpsOf(ops: seq<Op>, tenant: string): (mine: seq<bool>)
    ensures |mine| == |ops|
  {
    seq(|ops|, i requires 0 <= i < |ops| => !ops[i].Restart? && TenantOf(ops[i].tenantId) == tenant)
  }

  function NotRestarts(ops: seq<Op>): (mask: seq<bool>)
    ensures |mask| == |ops|
  {
    seq(|ops|, i requires 0 <= i < |ops| => !ops[i].Restart?)
  }

  /** A tenant's answers are those of the history projected to that tenant, on either back end. */
  lemma TrackerNonInterference(budgets: Budgets, b: Backend, ops: seq<Op>, tenant: string)
    requires DatesAreDays(ops) && Holds(b, [])
    requires b.Memory? ==> forall i :: 0 <= i < |ops| ==> !ops[i].Restart?
    ensures Kept(RunFrom(budgets, b, ops).0, OpsOf(ops, tenant))
         == RunFrom(budgets, b, Kept(ops, OpsOf(ops, tenant))).0
  {
    KeptSatisfies(ops, OpsOf(ops, tenant), (op: Op) => !op.Restart? && IsDay(op.day));
    BackendMeetsReference(budgets, b, ops);
    BackendMeetsReference(budgets, b, Kept(ops, OpsOf(ops, tenant)));
    UnrelatedOperationsAreInvisible(budgets, ops, OpsOf(ops, tenant));
  }

  /**
   Replacing the ledger-backed tracker by a fresh one at any points changes nothing: its answers
   are those of an in-memory tracker that lived through the whole history.
   */
  lemma RestartsAreInvisible(budgets: Budgets, ops: seq<Op>)
    requires DatesAreDays(ops)
    ensures Kept(RunFrom(budgets, Ledgered(map[], map[]), ops).0, NotRestarts(ops))
         == RunFrom(budgets, Memory(map[]), Kept(ops, NotRestarts(ops))).0
  {
    KeptSatisfies(ops, NotRestarts(ops), (op: Op) => !op.Restart? && IsDay(op.day));
    BackendMeetsReference(budgets, Ledgered(map[], map[]), ops);
    BackendMeetsReference(budgets, Memory(map[]), Kept(ops, NotRestarts(ops)));
    UnrelatedOperationsAreInvisible(budgets, ops, NotRestarts(ops));
  }

  // ---------------------------------------------------------------------------------------------
  // The tracker object
  // ---------------------------------------------------------------------------------------------

  class Tracker {
    const defaults: Budget
    const budgets: map<string, Budget>
    const ledger: SQLiteLedger?
    var spendByDay: map<string, real>

    ghost function TheBudgets(): Budgets {
      Budgets(defaults, budgets)
    }

    ghost predicate Valid()
      reads this, ledger
    {
      ledger != null ==> ledger.Valid()
    }

    ghost function State(): Backend
      requires Valid()
      reads this, ledger
    {
      if ledger == null then Memory(spendByDay) else Ledgered(ledger.table.rows, spendByDay)
    }

    constructor (defaults: Budget, tenants: seq<TenantConfig>, ledger: SQLiteLedger?)
      requires ledger != null ==> ledger.Valid()
      ensures Valid() && this.ledger == ledger
      ensures forall id :: TheBudgets().For(id) == EffectiveBudget(defaults, tenants, id)
      ensures State() == if ledger == null then Memory(map[]) else Ledgered(ledger.table.rows, map[])
    {
      var merged := TenantBudgets(defaults, tenants);
      this.defaults := defaults;
      this.budgets := merged;
      this.ledger := ledger;
      this.spendByDay := map[];
    }

    /** Decides from the spend on record; reserves nothing. A failed read decides nothing. */
    method AllowTenant(prices: Prices, tenantId: string, model: string, promptTokens: int, maxTokens: int,
                       day: string, readFails: bool) returns (r: Result<Decision>)
      requires Valid()
      modifies this
      ensures Valid()
      ensures r.Err? <==> ledger != null && readFails
      ensures r.Err? ==> State() == old(State())
      ensures var op := AllowOp(tenantId, day, Price(prices, model, promptTokens, maxTokens));
              && (r.Ok? ==> (Decided(r.value), State()) == Apply(TheBudgets(), old(State()), op))
              && (r.Ok? ==> AnswersTruly(op, Decided(r.value), SpentForDay(old(State()), tenantId, day),
                                         TheBudgets().For(tenantId).daily, TheBudgets().For(tenantId).perReq))
    {
      var tenant := TenantOf(tenantId);
      var estimated := Price(prices, model, promptTokens, maxTokens);
      var budget := if tenant in budgets then budgets[tenant] else defaults;
      var spent := ReadDay(tenant, day, readFails);
      if spent.Err? {
        return Err("read spend");
      }
      return Ok(Decide(budget, tenant, spent.value, estimated));
    }

    /**
     Charges the actual cost. When the ledger accepts the charge but cannot be read back, the call
     reports an error although the charge stands.
     */
    method RecordTenant(prices: Prices, tenantId: string, model: string, promptTokens: int, completionTokens: int,
                        day: string, addFails: bool, readFails: bool) returns (r: Result<Usage>)
      requires Valid()
      modifies this, ledger
      ensures Valid()
      ensures r.Err? <==> ledger != null && (addFails || readFails)
      ensures r.Err? && addFails ==> State() == old(State())
      ensures var cost := Price(prices, model, promptTokens, completionTokens);
              var op := RecordOp(tenantId, day, Usage(promptTokens, completionTokens, cost));
              && (r.Ok? ==> (Recorded(r.value), State()) == Apply(TheBudgets(), old(State()), op))
              && (r.Err? && !addFails ==> State().rows == Upsert(old(State()).rows, tenantId, day, cost))
    {
      var tenant := TenantOf(tenantId);
      var usage := Usage(promptTokens, completionTokens, Price(prices, model, promptTokens, completionTokens));
      var key := SpendKey(tenant, day);
      if ledger != null {
        var added := ledger.AddSpend(tenant, day, usage.costUsd, addFails);
        if !added {
          return Err("record spend");
        }
        var spent := ledger.ReadSpend(tenant, day, readFails);
        if spent.None? {
          return Err("read recorded spend");
        }
        spendByDay := spendByDay[key := spent.value];
        return Ok(usage);
      }
      spendByDay := spendByDay[key := (if key in spendByDay then spendByDay[key] else 0.0) + usage.costUsd];
      return Ok(usage);
    }

    method SnapshotTenant(tenantId: string, day: string, readFails: bool) returns (r: Result<Snapshot>)
      requires Valid()
      modifies this
      ensures Valid()
      ensures r.Err? <==> ledger != null && readFails
      ensures r.Err? ==> State() == old(State())
      ensures r.Ok? ==> (Taken(r.value), State()) == Apply(TheBudgets(), old(State()), SnapshotOp(tenantId, day))
      ensures r.Ok? ==> AnswersTruly(SnapshotOp(tenantId, day), Taken(r.value), SpentForDay(old(State()), tenantId, day),
                                     TheBudgets().For(tenantId).daily, TheBudgets().For(tenantId).perReq)
    {
      var tenant := TenantOf(tenantId);
      var spent := ReadDay(tenant, day, readFails);
      if spent.Err? {
        return Err("read spend");
      }
      var budget := if tenant in budgets then budgets[tenant] else defaults;
      return Ok(Snapshot(tenant, day, spent.value, budget.daily, budget.perReq));
    }

    method ReadDay(tenantId: string, day: string, readFails: bool) returns (r: Result<real>)
      requires Valid()
      modifies this
      ensures Valid()
      ensures r.Err? <==> ledger != null && readFails
      ensures r.Err? ==> State() == old(State())
      ensures r.Ok? ==> r.value == SpentForDay(old(State()), tenantId, day)
                        && State() == AfterRead(old(State()), tenantId, day)
    {
      var key := SpendKey(tenantId, day);
      if ledger == null {
        return Ok(if key in spendByDay then spendByDay[key] else 0.0);
      }
      var spent := ledger.ReadSpend(tenantId, day, readFails);
      if spent.None? {
        return Err("read spend");
      }
      spendByDay := spendByDay[key := spent.value];
      return Ok(spent.value);
    }
  }
}
