/** Over every run of the gateway: the gates before an upstream call, and how many such calls there can be. */
module GatewayAdmission {
  import opened Wrappers
  import opened Sequences
  import opened Tenancy
  import opened Routing
  import opened TokenBucket
  import opened Gateway
  import RL = RateLimiter

  // ---------------------------------------------------------------------------------------------
  // The gates
  // ---------------------------------------------------------------------------------------------

  lemma NothingAtStart(setup: Setup, states: seq<State>, events: seq<Event>)
    requires Run(setup, states, events)
    ensures states[0].reqs == [] && WellFormed(states[0])
  {
  }

  /** A request is funded by its own budget check and by nothing else. */
  lemma HowFunded(setup: Setup, s: State, e: Event, i: nat)
    requires Enabled(setup, s, e) && i < |Next(setup, s, e).reqs| && Next(setup, s, e).reqs[i].phase.Funded?
    ensures i < |s.reqs|
    ensures || s.reqs[i] == Next(setup, s, e).reqs[i]
            || (e.Fund? && e.i == i && !e.readFails && BudgetAllows(setup, s, i, Next(setup, s, e).reqs[i].phase.estimate))
  {
    if !e.Arrive? && !e.NewDay? {
      StepMoves(setup, s, e);
    }
  }

  lemma HowScreened(setup: Setup, s: State, e: Event, i: nat)
    requires Enabled(setup, s, e) && i < |Next(setup, s, e).reqs| && Next(setup, s, e).reqs[i].phase.Screened?
    ensures i < |s.reqs|
    ensures s.reqs[i] == Next(setup, s, e).reqs[i] || (e.Screen? && e.i == i && e.screening.Cleared?)
  {
    if !e.Arrive? && !e.NewDay? {
      StepMoves(setup, s, e);
    }
  }

  lemma HowAdmitted(setup: Setup, s: State, e: Event, i: nat)
    requires Enabled(setup, s, e) && i < |Next(setup, s, e).reqs| && Next(setup, s, e).reqs[i].phase.Admitted?
    ensures || (i < |s.reqs| && s.reqs[i] == Next(setup, s, e).reqs[i])
            || (e.Arrive? && i == |s.reqs| && LimiterAnswer(setup, s.buckets, TenantOf(e.tenantId), e.now).0)
  {
    if !e.Arrive? && !e.NewDay? {
      StepMoves(setup, s, e);
    }
  }

  lemma {:induction false} FundedCameFrom(setup: Setup, states: seq<State>, events: seq<Event>, k: nat, i: nat)
    returns (c: nat)
    requires Run(setup, states, events) && k < |states|
    requires i < |states[k].reqs| && states[k].reqs[i].phase.Funded?
    ensures c < k && events[c].Fund? && events[c].i == i && !events[c].readFails
    ensures Enabled(setup, states[c], events[c])
    ensures BudgetAllows(setup, states[c], i, states[k].reqs[i].phase.estimate)
  {
    NothingAtStart(setup, states, events);
    c := k - 1;
    StateAt(setup, states, events, k);
    HowFunded(setup, states[c], events[c], i);
    if states[c].reqs[i] == states[k].reqs[i] {
      c := FundedCameFrom(setup, states, events, c, i);
    }
  }

  lemma {:induction false} ScreenedCameFrom(setup: Setup, states: seq<State>, events: seq<Event>, k: nat, i: nat)
    returns (b: nat)
    requires Run(setup, states, events) && k < |states|
    requires i < |states[k].reqs| && states[k].reqs[i].phase.Screened?
    ensures b < k && events[b].Screen? && events[b].i == i && events[b].screening.Cleared?
    ensures Enabled(setup, states[b], events[b])
  {
    NothingAtStart(setup, states, events);
    b := k - 1;
    StateAt(setup, states, events, k);
    HowScreened(setup, states[b], events[b], i);
    if states[b].reqs[i] == states[k].reqs[i] {
      b := ScreenedCameFrom(setup, states, events, b, i);
    }
  }

  lemma {:induction false} AdmittedCameFrom(setup: Setup, states: seq<State>, events: seq<Event>, k: nat, i: nat)
    returns (a: nat)
    requires Run(setup, states, events) && k < |states|
    requires i < |states[k].reqs| && states[k].reqs[i].phase.Admitted?
    ensures a < k && events[a].Arrive? && |states[a].reqs| == i
    ensures LimiterAnswer(setup, states[a].buckets, TenantOf(events[a].tenantId), events[a].now).0
  {
    NothingAtStart(setup, states, events);
    a := k - 1;
    StateAt(setup, states, events, k);
    HowAdmitted(setup, states[a], events[a], i);
    if i < |states[a].reqs| {
      a := AdmittedCameFrom(setup, states, events, a, i);
    }
  }

  /**
   A provider is called for a request only after, in this order, the limiter admitted it, the
   guard did not block it, and the budget allowed its estimate.
   */
  lemma ProvidersCalledOnlyAfterGates(setup: Setup, states: seq<State>, events: seq<Event>, k: nat)
    returns (a: nat, b: nat, c: nat)
    requires Run(setup, states, events) && k < |events| && events[k].Dispatch?
    ensures a < b < c < k
    ensures events[a].Arrive? && |states[a].reqs| == events[k].i
    ensures LimiterAnswer(setup, states[a].buckets, TenantOf(events[a].tenantId), events[a].now).0
    ensures events[b].Screen? && events[b].i == events[k].i && events[b].screening.Cleared?
    ensures events[c].Fund? && events[c].i == events[k].i && !events[c].readFails
    ensures events[k].i < |states[k].reqs| && states[k].reqs[events[k].i].phase.Funded?
    ensures events[k].i < |states[c].reqs| && states[c].budget.days != []
    ensures BudgetAllows(setup, states[c], events[k].i, states[k].reqs[events[k].i].phase.estimate)
  {
    assert Enabled(setup, states[k], events[k]);
    c := FundedCameFrom(setup, states, events, k, events[k].i);
    b := ScreenedCameFrom(setup, states, events, c, events[k].i);
    a := AdmittedCameFrom(setup, states, events, b, events[k].i);
  }

  // ---------------------------------------------------------------------------------------------
  // Upstream calls in a window
  // ---------------------------------------------------------------------------------------------

  /** The requests of one tenant, in the order the limiter saw them. */
  function Own(reqs: seq<Req>, tenant: string): seq<Req> {
    if reqs == [] then []
    else
      var n := |reqs| - 1;
      Own(reqs[..n], tenant) + (if reqs[n].tenant == tenant then [reqs[n]] else [])
  }

  function Times(own: seq<Req>): seq<int> {
    seq(|own|, k requires 0 <= k < |own| => own[k].at)
  }

  /** Which requests the limiter let through. */
  function Passes(own: seq<Req>): seq<bool> {
    seq(|own|, k requires 0 <= k < |own| => own[k].phase != Done(RateLimited))
  }

  lemma OwnAppend(reqs: seq<Req>, req: Req, tenant: string)
    ensures Own(reqs + [req], tenant) == Own(reqs, tenant) + (if req.tenant == tenant then [req] else [])
  {
    assert (reqs + [req])[..|reqs|] == reqs;
  }

  lemma ViewsAppend(own: seq<Req>, req: Req)
    ensures Times(own + [req]) == Times(own) + [req.at]
    ensures Passes(own + [req]) == Passes(own) + [req.phase != Done(RateLimited)]
  {
  }

  /** A later step of a request shows neither in the times nor in the limiter's answers. */
  lemma {:induction false} OwnUpdate(reqs: seq<Req>, i: nat, req: Req, tenant: string)
    requires i < |reqs| && req.tenant == reqs[i].tenant && req.at == reqs[i].at
    requires req.phase != Done(RateLimited) && reqs[i].phase != Done(RateLimited)
    ensures Times(Own(reqs[i := req], tenant)) == Times(Own(reqs, tenant))
    ensures Passes(Own(reqs[i := req], tenant)) == Passes(Own(reqs, tenant))
  {
    var n := |reqs| - 1;
    var after := reqs[i := req];
    if i < n {
      OwnUpdate(reqs[..n], i, req, tenant);
      assert after[..n] == reqs[..n][i := req];
    } else {
      assert after[..n] == reqs[..n];
    }
    var x, y := Own(after[..n], tenant), Own(reqs[..n], tenant);
    if reqs[n].tenant == tenant {
      ViewsAppend(x, after[n]);
      ViewsAppend(y, reqs[n]);
    } else {
      assert x + [] == x && y + [] == y;
    }
  }

  /** The limiter's state and answers for a tenant are those of the greedy bucket on its own times. */
  ghost predicate LimiterTracks(limits: RL.Limits, s: State, tenant: string) {
    var times := Times(Own(s.reqs, tenant));
    && RL.BucketOf(s.buckets, tenant) == BucketAfter(limits.For(tenant), times)
    && Passes(Own(s.reqs, tenant)) == Greedy(limits.For(tenant), times)
  }

  lemma ArrivalKeepsTracking(setup: Setup, limits: RL.Limits, s: State, tenantId: string, now: int, auditOk: bool, tenant: string)
    requires s.budget.days != [] && setup.limiter == Some(limits) && limits.For(tenant).enabled
    requires LimiterTracks(limits, s, tenant)
    ensures LimiterTracks(limits, ArriveStep(s, tenantId, now, LimiterAnswer(setup, s.buckets, TenantOf(tenantId), now), auditOk), tenant)
  {
    var who := TenantOf(tenantId);
    var answer := LimiterAnswer(setup, s.buckets, who, now);
    var req := Req(who, now, if answer.0 then Admitted else Done(RateLimited));
    var own := Own(s.reqs, tenant);
    RL.AllowStepIsLocal(limits, s.buckets, who, now, tenant);
    OwnAppend(s.reqs, req, tenant);
    if who == tenant {
      ViewsAppend(own, req);
      HistoryExtends(limits.For(tenant), Times(own), now);
    } else {
      assert own + [] == own;
    }
  }

  lemma StepKeepsTracking(setup: Setup, limits: RL.Limits, s: State, e: Event, tenant: string)
    requires Enabled(setup, s, e) && setup.limiter == Some(limits) && limits.For(tenant).enabled
    requires LimiterTracks(limits, s, tenant)
    ensures LimiterTracks(limits, Next(setup, s, e), tenant)
  {
    match e {
      case Arrive(tenantId, now, auditOk) => ArrivalKeepsTracking(setup, limits, s, tenantId, now, auditOk, tenant);
      case NewDay(_) =>
      case _ =>
        StepMoves(setup, s, e);
        OwnUpdate(s.reqs, e.i, Next(setup, s, e).reqs[e.i], tenant);
    }
  }

  lemma {:induction false} RunKeepsTracking(setup: Setup, limits: RL.Limits, states: seq<State>, events: seq<Event>, k: nat, tenant: string)
    requires Run(setup, states, events) && k < |states|
    requires setup.limiter == Some(limits) && limits.For(tenant).enabled
    ensures LimiterTracks(limits, states[k], tenant)
  {
    if k == 0 {
      NothingAtStart(setup, states, events);
      assert Times([]) == [] && Passes([]) == [];
    } else {
      RunKeepsTracking(setup, limits, states, events, k - 1, tenant);
      StateAt(setup, states, events, k);
      StepKeepsTracking(setup, limits, states[k - 1], events[k - 1], tenant);
    }
  }

  /** No request makes more upstream calls than its model has candidates; a denied one makes none. */
  ghost predicate TriesBounded(reqs: seq<Req>, c: nat) {
    forall i :: 0 <= i < |reqs| ==> TriesMade(reqs[i]) <= if reqs[i].phase == Done(RateLimited) then 0 else c
  }

  ghost predicate AtMostCandidates(setup: Setup, c: nat) {
    forall model :: |CandidatesOf(setup.providers, model)| <= c
  }

  lemma {:induction false} RunBoundsTries(setup: Setup, states: seq<State>, events: seq<Event>, k: nat, c: nat)
    requires Run(setup, states, events) && k < |states| && AtMostCandidates(setup, c)
    ensures TriesBounded(states[k].reqs, c)
  {
    if k == 0 {
      NothingAtStart(setup, states, events);
    } else {
      RunBoundsTries(setup, states, events, k - 1, c);
      StateAt(setup, states, events, k);
      StepBoundsTries(setup, states[k - 1], events[k - 1], c);
    }
  }

  lemma StepBoundsTries(setup: Setup, s: State, e: Event, c: nat)
    requires Enabled(setup, s, e) && AtMostCandidates(setup, c) && TriesBounded(s.reqs, c)
    ensures TriesBounded(Next(setup, s, e).reqs, c)
  {
    if !e.Arrive? && !e.NewDay? {
      StepMoves(setup, s, e);
      StepBoundsOwnTries(setup, s, e, c);
    }
  }

  lemma StepBoundsOwnTries(setup: Setup, s: State, e: Event, c: nat)
    requires Enabled(setup, s, e) && AtMostCandidates(setup, c) && TriesBounded(s.reqs, c)
    requires !e.Arrive? && !e.NewDay?
    ensures TriesMade(Next(setup, s, e).reqs[e.i]) <= c
  {
    assert TriesMade(s.reqs[e.i]) <= c;
  }

  lemma {:induction false} OwnIsBounded(reqs: seq<Req>, tenant: string, c: nat)
    requires TriesBounded(reqs, c)
    ensures TriesBounded(Own(reqs, tenant), c)
  {
    if reqs != [] {
      OwnIsBounded(reqs[..|reqs| - 1], tenant, c);
    }
  }

  lemma OneMorePass(c: nat, passes: nat, pass: bool)
    ensures c * (passes + (if pass then 1 else 0)) == c * passes + (if pass then c else 0)
  {
  }

  lemma {:induction false} TriesByPasses(own: seq<Req>, c: nat)
    requires TriesBounded(own, c)
    ensures Total(own, Tries()) <= c * Count(Passes(own))
  {
    if own != [] {
      var n := |own| - 1;
      TriesByPasses(own[..n], c);
      assert Passes(own)[..n] == Passes(own[..n]);
      OneMorePass(c, Count(Passes(own[..n])), own[n].phase != Done(RateLimited));
    }
  }

  lemma ScaledEnvelope(c: nat, tries: int, passes: nat, envelope: int)
    requires tries <= c * passes && Tokens(passes) <= envelope
    ensures Tokens(tries) <= c * envelope
  {
    assert c * Tokens(passes) == Tokens(c * passes);
    assert c * (envelope - Tokens(passes)) >= 0;
    assert c * (envelope - Tokens(passes)) == c * envelope - c * Tokens(passes);
  }

  /** The limiter's envelope for the time between two of a tenant's requests, in units. */
  function WindowAllowance(limits: RL.Limits, tenant: string, from: Req, to: Req): int {
    Capacity(limits.For(tenant)) + (to.at - from.at) * limits.For(tenant).rpm
  }

  lemma PassesOfWindow(own: seq<Req>, i: nat, j: nat)
    requires i <= j <= |own|
    ensures Passes(own[i..j]) == Passes(own)[i..j]
  {
  }

  /** The window up to request `j - 1` ends in one the limiter passed, or the clock never went back. */
  ghost predicate WindowIsClosed(limit: Limit, own: seq<Req>, j: nat)
    requires 0 < j <= |own|
  {
    || own[j - 1].phase != Done(RateLimited)
    || (NonDecreasing(Times(own)) && limit.rpm >= 0 && limit.burst >= 0)
  }

  lemma AdmissionsFitEnvelope(limits: RL.Limits, tenant: string, own: seq<Req>, i: nat, j: nat)
    requires Passes(own) == Greedy(limits.For(tenant), Times(own))
    requires i < j <= |own| && WindowIsClosed(limits.For(tenant), own, j)
    ensures Tokens(Count(Passes(own[i..j]))) <= WindowAllowance(limits, tenant, own[i], own[j - 1])
  {
    var k := j - 1;
    assert Passes(own)[k] == (own[k].phase != Done(RateLimited));
    GreedyWindow(limits.For(tenant), Times(own), i, k);
    WindowInTimes(limits, tenant, own, i, k);
    assert k + 1 == j;
    PassesOfWindow(own, i, j);
  }

  lemma WindowInTimes(limits: RL.Limits, tenant: string, own: seq<Req>, i: nat, k: nat)
    requires i <= k < |own| && WindowFits(limits.For(tenant), Times(own), Passes(own), i, k + 1)
    ensures Tokens(Count(Passes(own)[i..k + 1])) <= WindowAllowance(limits, tenant, own[i], own[k])
  {
    assert Times(own)[i] == own[i].at && Times(own)[k] == own[k].at;
  }

  lemma WindowTries(setup: Setup, states: seq<State>, events: seq<Event>, k: nat, tenant: string, i: nat, j: nat, c: nat)
    requires Run(setup, states, events) && k < |states| && AtMostCandidates(setup, c)
    requires i < j <= |Own(states[k].reqs, tenant)|
    ensures var own := Own(states[k].reqs, tenant);
            Total(own[i..j], Tries()) <= c * Count(Passes(own[i..j]))
  {
    RunBoundsTries(setup, states, events, k, c);
    OwnIsBounded(states[k].reqs, tenant, c);
    TriesByPasses(Own(states[k].reqs, tenant)[i..j], c);
  }

  /**
   At every moment of every run: the upstream calls made for a tenant's requests `i..j` are at most
   the number of candidates times the limiter's envelope for the time between them. Whatever the
   clock and the limit, this holds of every window that ends in a request the limiter passed; of a
   window that ends in a denied one it holds if the limiter's clock never went back.
   */
  lemma UpstreamCallsFitEnvelope(setup: Setup, limits: RL.Limits, states: seq<State>, events: seq<Event>, k: nat,
                                 tenant: string, i: nat, j: nat, c: nat)
    requires Run(setup, states, events) && k < |states|
    requires setup.limiter == Some(limits) && AtMostCandidates(setup, c)
    requires limits.For(tenant).enabled
    requires i < j <= |Own(states[k].reqs, tenant)|
    requires WindowIsClosed(limits.For(tenant), Own(states[k].reqs, tenant), j)
    ensures var own := Own(states[k].reqs, tenant);
            Tokens(Total(own[i..j], Tries())) <= c * WindowAllowance(limits, tenant, own[i], own[j - 1])
  {
    var own := Own(states[k].reqs, tenant);
    RunKeepsTracking(setup, limits, states, events, k, tenant);
    AdmissionsFitEnvelope(limits, tenant, own, i, j);
    WindowTries(setup, states, events, k, tenant, i, j, c);
    ScaledEnvelope(c, Total(own[i..j], Tries()), Count(Passes(own[i..j])), WindowAllowance(limits, tenant, own[i], own[j - 1]));
  }
}
