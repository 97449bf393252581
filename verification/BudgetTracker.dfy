/**
 The budget protocol as either tracker back end carries it out: its admissions are the tracker's own
 answers, its settlements the tracker's own charges.
 */
module BudgetTracker {
  import opened Wrappers
  import opened Ledger
  import opened CostTracker
  import B = BudgetProtocol

  /** The back end reads, for every tenant and day, as the protocol's rows do. */
  ghost predicate Shows(b: Backend, rows: Rows) {
    forall t, d :: IsDay(d) ==> SpentForDay(b, t, d) == Spend(rows, t, d)
  }

  /** The tracker call behind a step of the protocol, if there is one. */
  function CallOf(s: B.State, e: B.Event): Option<Op> {
    match e
    case Admit(i, estimate) =>
      if s.days != [] && i < |s.slots| then Some(AllowOp(s.slots[i].tenant, B.Today(s), estimate)) else None
    case Settle(i, actual) =>
      if s.days != [] && i < |s.slots| then Some(RecordOp(s.slots[i].tenant, B.Today(s), Usage(0, 0, actual))) else None
    case _ => None
  }

  function AfterCall(budgets: Budgets, b: Backend, call: Option<Op>): Backend {
    if call.None? then b else Apply(budgets, b, call.value).1
  }

  /** What the handler goes by: the request is in the right phase, and the tracker's answer to a check was yes. */
  ghost predicate Permitted(budgets: Budgets, b: Backend, s: B.State, e: B.Event) {
    && B.Fits(s, e)
    && match e
       case Admit(_, estimate) =>
         && estimate >= 0.0
         && var answer := Apply(budgets, b, CallOf(s, e).value).0;
            answer.Decided? && answer.decision.allowed
       case Settle(_, actual) => actual >= 0.0
       case NewDay(day) => IsDay(day)
       case _ => true
  }

  /** The tracker's answer is the protocol's condition, and its charge the protocol's charge, on either back end. */
  lemma StepIsTrackerCall(budgets: Budgets, b: Backend, s: B.State, e: B.Event)
    requires B.Fits(s, e) && Shows(b, s.rows) && IsDay(B.Today(s)) && (e.NewDay? ==> IsDay(e.day))
    ensures Permitted(budgets, b, s, e) <==> B.Enabled(budgets, s, e)
    ensures Shows(AfterCall(budgets, b, CallOf(s, e)), B.Next(s, e).rows)
  {
    var call := CallOf(s, e);
    forall t, d | IsDay(d) ensures SpentForDay(AfterCall(budgets, b, call), t, d) == Spend(B.Next(s, e).rows, t, d) {
      if e.Settle? {
        RecordAddsSpend(b, s.slots[e.i].tenant, B.Today(s), e.actual, t, d);
      }
    }
    if e.Admit? {
      assert SpentForDay(b, s.slots[e.i].tenant, B.Today(s)) == Spend(s.rows, s.slots[e.i].tenant, B.Today(s));
    }
  }

  /** A step of the protocol, or a call that charges nothing: a refused check, a snapshot, a restart. */
  datatype Move = Act(event: B.Event) | Look(op: Op)

  /** The tracker and the protocol side by side after a series of moves. */
  datatype Pair = Pair(b: Backend, s: B.State)

  /** Restarts are harmless only where a ledger survives them. */
  ghost predicate Lawful(budgets: Budgets, p: Pair, move: Move) {
    match move
    case Act(e) => Permitted(budgets, p.b, p.s, e)
    case Look(op) => !op.RecordOp? && (op.Restart? ==> p.b.Ledgered?)
  }

  ghost function Moved(budgets: Budgets, p: Pair, move: Move): Pair
    requires Lawful(budgets, p, move)
  {
    match move
    case Act(e) => Pair(AfterCall(budgets, p.b, CallOf(p.s, e)), B.Next(p.s, e))
    case Look(op) => Pair(Apply(budgets, p.b, op).1, p.s)
  }

  /** A history of moves of any tenants, with at most `k` requests of `tenant` in flight throughout. */
  ghost predicate History(budgets: Budgets, k: int, tenant: string, pairs: seq<Pair>, moves: seq<Move>) {
    && |pairs| == |moves| + 1
    && (forall i {:trigger moves[i]} :: 0 <= i < |moves| ==>
          Lawful(budgets, pairs[i], moves[i]) && pairs[i + 1] == Moved(budgets, pairs[i], moves[i]))
    && forall i :: 0 <= i < |pairs| ==> B.InFlight(pairs[i].s.slots, tenant) <= k
  }

  ghost predicate InStep(budgets: Budgets, k: int, tenant: string, p: Pair) {
    && B.Inv(budgets, k, p.s, tenant)
    && Shows(p.b, p.s.rows) && IsDay(B.Today(p.s))
  }

  lemma MoveKeepsStep(budgets: Budgets, k: int, tenant: string, p: Pair, move: Move)
    requires budgets.For(tenant).daily > 0.0 && InStep(budgets, k, tenant, p) && Lawful(budgets, p, move)
    requires B.InFlight(p.s.slots, tenant) <= k && B.InFlight(Moved(budgets, p, move).s.slots, tenant) <= k
    ensures InStep(budgets, k, tenant, Moved(budgets, p, move))
  {
    match move {
      case Act(e) =>
        StepIsTrackerCall(budgets, p.b, p.s, e);
        B.StepKeepsInv(budgets, k, p.s, e, tenant);
      case Look(op) =>
        LookChangesNothing(budgets, p.b, op, p.s.rows);
    }
  }

  lemma LookChangesNothing(budgets: Budgets, b: Backend, op: Op, rows: Rows)
    requires Shows(b, rows) && !op.RecordOp? && (op.Restart? ==> b.Ledgered?)
    ensures Shows(Apply(budgets, b, op).1, rows)
  {
    forall t, d | IsDay(d) ensures SpentForDay(Apply(budgets, b, op).1, t, d) == Spend(rows, t, d) {
      assert SpentForDay(b, t, d) == Spend(rows, t, d);
      if !op.Restart? {
        ReadChangesNoSpend(b, op.tenantId, op.day, t, d);
      }
    }
  }

  lemma {:induction false} HistoryKeepsStep(budgets: Budgets, k: int, tenant: string, start: string,
                                            pairs: seq<Pair>, moves: seq<Move>, i: nat)
    requires budgets.For(tenant).daily > 0.0 && k >= 1 && IsDay(start)
    requires History(budgets, k, tenant, pairs, moves) && i <= |moves|
    requires pairs[0].s == B.Init(start) && Holds(pairs[0].b, [])
    ensures InStep(budgets, k, tenant, pairs[i])
  {
    if i == 0 {
      B.InvAtStart(budgets, k, tenant, start);
      assert forall t, d :: TotalCharged([], t, d) == 0.0;
    } else {
      var j := i - 1;
      HistoryKeepsStep(budgets, k, tenant, start, pairs, moves, j);
      assert Lawful(budgets, pairs[j], moves[j]);
      MoveKeepsStep(budgets, k, tenant, pairs[j], moves[j]);
      assert pairs[j + 1] == pairs[i];
    }
  }

  /**
   Budget safety of the tracker itself: on either back end, starting without spend, with the
   handler going by the tracker's answers alone and with any reads and restarts in between, what
   the tracker reports for a day stays within the ceiling and that day's overruns.
   */
  lemma TrackerBudgetSafety(budgets: Budgets, k: int, tenant: string, start: string,
                            pairs: seq<Pair>, moves: seq<Move>, i: nat, day: string)
    requires budgets.For(tenant).daily > 0.0 && k >= 1 && IsDay(start) && IsDay(day)
    requires History(budgets, k, tenant, pairs, moves) && i <= |moves|
    requires pairs[0].s == B.Init(start) && Holds(pairs[0].b, [])
    ensures SpentForDay(pairs[i].b, tenant, day)
         <= B.Ceiling(budgets.For(tenant), k) + Spend(pairs[i].s.overrun, tenant, day)
  {
    HistoryKeepsStep(budgets, k, tenant, start, pairs, moves, i);
    assert B.Net(pairs[i].s, tenant, day) <= B.Ceiling(budgets.For(tenant), k);
  }
}
