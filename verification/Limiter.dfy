/** The tenant-aware limiter: one token bucket per tenant behind one map. */
module RateLimiter {
  import opened Sequences
  import opened Tenancy
  import opened TokenBucket
  import opened Config

  datatype Decision = Decision(allowed: bool, reason: string, tenantId: string, retryAfter: int)

  /** The effective limits: a default, and the merged limit of every configured tenant. */
  datatype Limits = Limits(default: Limit, tenants: map<string, Limit>) {
    function For(tenant: string): Limit {
      if tenant in tenants then tenants[tenant] else default
    }
  }

  type Buckets = map<string, Bucket>

  function BucketOf(buckets: Buckets, tenant: string): Bucket {
    if tenant in buckets then buckets[tenant] else Unused
  }

  // ---------------------------------------------------------------------------------------------
  // Building the limits
  // ---------------------------------------------------------------------------------------------

  function LimitFromConfig(cfg: RateLimitConfig): Limit {
    Limit(cfg.enabled || cfg.requestsPerMinute > 0 || cfg.burst > 0, cfg.requestsPerMinute, cfg.burst)
  }

  /** An override keeps its own values and inherits those it leaves at zero. */
  function MergeLimit(base: Limit, override: Limit): Limit {
    if !override.enabled then base
    else Limit(true,
               if override.rpm == 0 then base.rpm else override.rpm,
               if override.burst == 0 then base.burst else override.burst)
  }

  /** The rate limit configured for `id` by the last entry that names it; all zero if none does. */
  function OverrideFor(tenants: seq<TenantConfig>, id: string): RateLimitConfig {
    if tenants == [] then RateLimitConfig(false, 0, 0)
    else
      var n := |tenants| - 1;
      if tenants[n].id == id then tenants[n].rateLimit else OverrideFor(tenants[..n], id)
  }

  /** What the limiter is meant to enforce for `id`. */
  function EffectiveLimit(defaultCfg: RateLimitConfig, tenants: seq<TenantConfig>, id: string): Limit {
    MergeLimit(LimitFromConfig(defaultCfg), LimitFromConfig(OverrideFor(tenants, id)))
  }

  // ---------------------------------------------------------------------------------------------
  // One call, on values
  // ---------------------------------------------------------------------------------------------

  function AllowStep(limits: Limits, buckets: Buckets, tenantId: string, now: int): (r: (Decision, Buckets)) {
    var tenant := TenantOf(tenantId);
    var limit := limits.For(tenant);
    if !limit.enabled then (Decision(true, "", tenant, 0), buckets)
    else
      var b := BucketOf(buckets, tenant);
      var allowed := Allows(limit, b, now);
      var after := After(limit, b, now, allowed);
      if allowed then (Decision(true, "", tenant, 0), buckets[tenant := after])
      else (Decision(false, "rate_limit_exceeded", tenant, RetryAfterSeconds(limit.rpm, after.tokens)),
            buckets[tenant := after])
  }

  /** A call touches its own tenant's bucket and no other. */
  lemma AllowStepIsLocal(limits: Limits, buckets: Buckets, tenantId: string, now: int, tenant: string)
    ensures var l := limits.For(tenant);
            var b := BucketOf(buckets, tenant);
            var (d, after) := AllowStep(limits, buckets, tenantId, now);
            if TenantOf(tenantId) == tenant && l.enabled then
              && d.allowed == Allows(l, b, now) && BucketOf(after, tenant) == After(l, b, now, d.allowed)
              && (!d.allowed ==> d.retryAfter == RetryAfterSeconds(l.rpm, BucketOf(after, tenant).tokens))
            else
              BucketOf(after, tenant) == b
    ensures var (d, _) := AllowStep(limits, buckets, tenantId, now);
            && d.tenantId == TenantOf(tenantId)
            && (!limits.For(TenantOf(tenantId)).enabled ==> d.allowed)
            && (if d.allowed then d.reason == "" && d.retryAfter == 0 else d.reason == "rate_limit_exceeded")
  {
  }

  // ---------------------------------------------------------------------------------------------
  // Histories
  // ---------------------------------------------------------------------------------------------

  datatype Call = Call(tenantId: string, now: int)

  function BucketsAfter(limits: Limits, calls: seq<Call>): Buckets {
    if calls == [] then map[]
    else
      var n := |calls| - 1;
      AllowStep(limits, BucketsAfter(limits, calls[..n]), calls[n].tenantId, calls[n].now).1
  }

  function Decisions(limits: Limits, calls: seq<Call>): (ds: seq<Decision>)
    ensures |ds| == |calls|
  {
    if calls == [] then []
    else
      var n := |calls| - 1;
      Decisions(limits, calls[..n])
      + [AllowStep(limits, BucketsAfter(limits, calls[..n]), calls[n].tenantId, calls[n].now).0]
  }

  /** Which calls of a history belong to `tenant`; the empty id counts as the default tenant. */
  function CallsOf(calls: seq<Call>, tenant: string): (mine: seq<bool>)
    ensures |mine| == |calls|
  {
    seq(|calls|, i requires 0 <= i < |calls| => TenantOf(calls[i].tenantId) == tenant)
  }

  function Project(calls: seq<Call>, tenant: string): seq<Call> {
    Kept(calls, CallsOf(calls, tenant))
  }

  function TimesOf(calls: seq<Call>, tenant: string): (ts: seq<int>)
  {
    if calls == [] then []
    else
      var n := |calls| - 1;
      TimesOf(calls[..n], tenant) + (if TenantOf(calls[n].tenantId) == tenant then [calls[n].now] else [])
  }

  function Allowed(ds: seq<Decision>): seq<bool> {
    seq(|ds|, i requires 0 <= i < |ds| => ds[i].allowed)
  }

  lemma ProjectExtends(calls: seq<Call>, tenant: string)
    requires calls != []
    ensures var n := |calls| - 1;
            Project(calls, tenant) ==
            Project(calls[..n], tenant) + (if TenantOf(calls[n].tenantId) == tenant then [calls[n]] else [])
  {
    var n := |calls| - 1;
    assert CallsOf(calls, tenant)[..n] == CallsOf(calls[..n], tenant);
  }

  lemma TimesExtend(calls: seq<Call>, call: Call, tenant: string)
    ensures TimesOf(calls + [call], tenant)
         == TimesOf(calls, tenant) + (if TenantOf(call.tenantId) == tenant then [call.now] else [])
  {
    assert (calls + [call])[..|calls|] == calls;
  }

  lemma RunExtends(limits: Limits, calls: seq<Call>, call: Call)
    ensures var (d, after) := AllowStep(limits, BucketsAfter(limits, calls), call.tenantId, call.now);
            && BucketsAfter(limits, calls + [call]) == after
            && Decisions(limits, calls + [call]) == Decisions(limits, calls) + [d]
  {
    assert (calls + [call])[..|calls|] == calls;
  }

  /** Every bucket is the bucket of its own tenant's call times, whatever other tenants do. */
  lemma {:induction false} BucketsAreIndependent(limits: Limits, calls: seq<Call>, tenant: string)
    requires limits.For(tenant).enabled
    ensures BucketOf(BucketsAfter(limits, calls), tenant)
         == BucketAfter(limits.For(tenant), TimesOf(calls, tenant))
  {
    if calls != [] {
      var n := |calls| - 1;
      var before, last := calls[..n], calls[n];
      assert before + [last] == calls;
      BucketsAreIndependent(limits, before, tenant);
      BucketsStayIndependent(limits, before, last, tenant);
    }
  }

  lemma BucketsStayIndependent(limits: Limits, calls: seq<Call>, call: Call, tenant: string)
    requires limits.For(tenant).enabled
    requires BucketOf(BucketsAfter(limits, calls), tenant) == BucketAfter(limits.For(tenant), TimesOf(calls, tenant))
    ensures BucketOf(BucketsAfter(limits, calls + [call]), tenant)
         == BucketAfter(limits.For(tenant), TimesOf(calls + [call], tenant))
  {
    TimesExtend(calls, call, tenant);
    RunExtends(limits, calls, call);
    AllowStepIsLocal(limits, BucketsAfter(limits, calls), call.tenantId, call.now, tenant);
    if TenantOf(call.tenantId) == tenant {
      HistoryExtends(limits.For(tenant), TimesOf(calls, tenant), call.now);
    } else {
      assert TimesOf(calls + [call], tenant) == TimesOf(calls, tenant);
    }
  }

  lemma {:induction false} ProjectionKeepsTimes(calls: seq<Call>, tenant: string)
    ensures TimesOf(Project(calls, tenant), tenant) == TimesOf(calls, tenant)
  {
    if calls != [] {
      var n := |calls| - 1;
      ProjectionKeepsTimes(calls[..n], tenant);
      ProjectExtends(calls, tenant);
      var before := Project(calls[..n], tenant);
      if TenantOf(calls[n].tenantId) == tenant {
        TimesExtend(before, calls[n], tenant);
      } else {
        assert Project(calls, tenant) == before;
      }
    }
  }

  /** Decisions for a tenant depend on nothing but that tenant's bucket. */
  lemma SameBucketSameDecision(limits: Limits, a: Buckets, b: Buckets, tenantId: string, now: int)
    requires limits.For(TenantOf(tenantId)).enabled ==> BucketOf(a, TenantOf(tenantId)) == BucketOf(b, TenantOf(tenantId))
    ensures AllowStep(limits, a, tenantId, now).0 == AllowStep(limits, b, tenantId, now).0
  {
  }

  /** The decisions of a history that concern `tenant`. */
  function DecisionsFor(limits: Limits, calls: seq<Call>, tenant: string): seq<Decision> {
    Kept(Decisions(limits, calls), CallsOf(calls, tenant))
  }

  lemma DecisionsForExtend(limits: Limits, calls: seq<Call>, tenant: string, n: nat)
    requires |calls| == n + 1
    ensures var d := AllowStep(limits, BucketsAfter(limits, calls[..n]), calls[n].tenantId, calls[n].now).0;
            DecisionsFor(limits, calls, tenant) ==
            DecisionsFor(limits, calls[..n], tenant) + (if TenantOf(calls[n].tenantId) == tenant then [d] else [])
  {
    var ds, mine := Decisions(limits, calls), CallsOf(calls, tenant);
    KeptExtends(ds, mine);
    assert mine[..n] == CallsOf(calls[..n], tenant);
    assert ds[..n] == Decisions(limits, calls[..n]);
  }

  /**
   Tenant non-interference: in any interleaved history the decisions for one tenant, retry hints
   included, are those of the history projected to that tenant. Any clock.
   */
  lemma {:induction false} TenantNonInterference(limits: Limits, calls: seq<Call>, tenant: string)
    ensures DecisionsFor(limits, calls, tenant) == Decisions(limits, Project(calls, tenant))
  {
    if calls != [] {
      var n := |calls| - 1;
      TenantNonInterference(limits, calls[..n], tenant);
      ProjectExtends(calls, tenant);
      DecisionsForExtend(limits, calls, tenant, n);
      var own := Project(calls[..n], tenant);
      if TenantOf(calls[n].tenantId) == tenant {
        RunExtends(limits, own, calls[n]);
        if limits.For(tenant).enabled {
          BucketsAreIndependent(limits, calls[..n], tenant);
          BucketsAreIndependent(limits, own, tenant);
          ProjectionKeepsTimes(calls[..n], tenant);
        }
        SameBucketSameDecision(limits, BucketsAfter(limits, calls[..n]), BucketsAfter(limits, own),
                               calls[n].tenantId, calls[n].now);
      } else {
        assert Project(calls, tenant) == own;
      }
    }
  }

  /** The decisions for one tenant so far are the greedy ones on that tenant's own call times. */
  ghost predicate GreedySoFar(limits: Limits, calls: seq<Call>, tenant: string) {
    Allowed(DecisionsFor(limits, calls, tenant)) == Greedy(limits.For(tenant), TimesOf(calls, tenant))
  }

  lemma NextDecisionIsGreedy(limits: Limits, calls: seq<Call>, call: Call, tenant: string)
    requires limits.For(tenant).enabled && TenantOf(call.tenantId) == tenant
    ensures var d := AllowStep(limits, BucketsAfter(limits, calls), call.tenantId, call.now).0;
            var ts := TimesOf(calls, tenant);
            Greedy(limits.For(tenant), ts + [call.now]) == Greedy(limits.For(tenant), ts) + [d.allowed]
  {
    BucketsAreIndependent(limits, calls, tenant);
    AllowStepIsLocal(limits, BucketsAfter(limits, calls), call.tenantId, call.now, tenant);
    HistoryExtends(limits.For(tenant), TimesOf(calls, tenant), call.now);
  }

  lemma AllowedAppend(ds: seq<Decision>, d: Decision)
    ensures Allowed(ds + [d]) == Allowed(ds) + [d.allowed]
  {
  }

  lemma StaysGreedy(limits: Limits, calls: seq<Call>, tenant: string, n: nat)
    requires |calls| == n + 1 && limits.For(tenant).enabled
    requires GreedySoFar(limits, calls[..n], tenant)
    ensures GreedySoFar(limits, calls, tenant)
  {
    var before := DecisionsFor(limits, calls[..n], tenant);
    DecisionsForExtend(limits, calls, tenant, n);
    if TenantOf(calls[n].tenantId) == tenant {
      AllowedAppend(before, AllowStep(limits, BucketsAfter(limits, calls[..n]), calls[n].tenantId, calls[n].now).0);
      NextDecisionIsGreedy(limits, calls[..n], calls[n], tenant);
    } else {
      assert before + [] == before;
      assert TimesOf(calls[..n], tenant) + [] == TimesOf(calls[..n], tenant);
    }
  }

  /** Over any interleaved history and any clock, every tenant sees the greedy bucket of its own calls. */
  lemma {:induction false} TenantIsGreedy(limits: Limits, calls: seq<Call>, tenant: string)
    requires limits.For(tenant).enabled
    ensures GreedySoFar(limits, calls, tenant)
  {
    if calls == [] {
      assert Allowed([]) == [];
    } else {
      TenantIsGreedy(limits, calls[..|calls| - 1], tenant);
      StaysGreedy(limits, calls, tenant, |calls| - 1);
    }
  }

  // ---------------------------------------------------------------------------------------------
  // Liveness of configured limits
  // ---------------------------------------------------------------------------------------------

  lemma {:induction false} OverrideIsValid(tenants: seq<TenantConfig>, id: string)
    requires ValidTenants(tenants)
    ensures ValidateRateLimit(OverrideFor(tenants, id)).None?
  {
    if tenants != [] {
      OverrideIsValid(tenants[..|tenants| - 1], id);
    }
  }

  /** In a validated configuration each value is the tenant's own if it sets one, else the global one. */
  lemma EffectiveLimitIsFieldwise(defaultCfg: RateLimitConfig, tenants: seq<TenantConfig>, id: string)
    requires ValidateRateLimit(defaultCfg).None? && ValidTenants(tenants)
    ensures var l := EffectiveLimit(defaultCfg, tenants, id);
            var own := OverrideFor(tenants, id);
            && l.rpm == (if own.requestsPerMinute > 0 then own.requestsPerMinute else defaultCfg.requestsPerMinute)
            && l.burst == (if own.burst > 0 then own.burst else defaultCfg.burst)
            && (l.enabled <==> own.enabled || defaultCfg.enabled || l.rpm > 0 || l.burst > 0)
  {
    OverrideIsValid(tenants, id);
  }

  /**
   In a validated configuration, an enabled effective limit recovers after a finite wait from every
   reachable state exactly when each of rate and burst is set for the tenant or globally.
   */
  lemma EffectiveLimitRecoversExactlyWhen(defaultCfg: RateLimitConfig, tenants: seq<TenantConfig>, id: string)
    requires ValidateRateLimit(defaultCfg).None? && ValidTenants(tenants)
    requires EffectiveLimit(defaultCfg, tenants, id).enabled
    ensures var override := OverrideFor(tenants, id);
            AlwaysRecovers(EffectiveLimit(defaultCfg, tenants, id))
            <==> && (override.requestsPerMinute > 0 || defaultCfg.requestsPerMinute > 0)
                 && (override.burst > 0 || defaultCfg.burst > 0)
  {
    OverrideIsValid(tenants, id);
    RecoversIffLive(EffectiveLimit(defaultCfg, tenants, id));
  }

  /** Once the global limit is switched on, every tenant has a live limit, named in the file or not. */
  lemma EnabledLimitsAreLive(defaultCfg: RateLimitConfig, tenants: seq<TenantConfig>, id: string)
    requires ValidateRateLimit(defaultCfg).None? && ValidTenants(tenants) && defaultCfg.enabled
    ensures var l := EffectiveLimit(defaultCfg, tenants, id);
            l.enabled && l.rpm >= 1 && l.burst >= 1 && AlwaysRecovers(l)
  {
    OverrideIsValid(tenants, id);
    RecoversIffLive(EffectiveLimit(defaultCfg, tenants, id));
  }

  /**
   The switch matters: a rate without a burst passes validation while `enabled` is false, still
   produces an enabled limit, and that limit denies every call of every tenant forever.
   */
  lemma ValidatedLimitMayDenyForever(ts: seq<int>, k: nat)
    requires k < |ts|
    ensures ValidateRateLimit(RateLimitConfig(false, 5, 0)).None?
    ensures EffectiveLimit(RateLimitConfig(false, 5, 0), [], "acme").enabled
    ensures !Greedy(EffectiveLimit(RateLimitConfig(false, 5, 0), [], "acme"), ts)[k]
  {
    DecisionAt(EffectiveLimit(RateLimitConfig(false, 5, 0), [], "acme"), ts, k);
  }

  // ---------------------------------------------------------------------------------------------
  // Whose limit it is
  // ---------------------------------------------------------------------------------------------

  lemma {:induction false} OverrideOfUnlisted(tenants: seq<TenantConfig>, id: string)
    requires forall i :: 0 <= i < |tenants| ==> tenants[i].id != id
    ensures OverrideFor(tenants, id) == RateLimitConfig(false, 0, 0)
  {
    if tenants != [] {
      OverrideOfUnlisted(tenants[..|tenants| - 1], id);
    }
  }

  lemma {:induction false} OverrideOfListed(tenants: seq<TenantConfig>, n: nat)
    requires DistinctIds(tenants) && n < |tenants|
    ensures OverrideFor(tenants, tenants[n].id) == tenants[n].rateLimit
  {
    var last := |tenants| - 1;
    if n < last {
      assert Identity(tenants[n]) != Identity(tenants[last]);
      OverrideOfListed(tenants[..last], n);
    }
  }

  /** A tenant's entry changes nothing: it is empty, or repeats what the global limit says. */
  predicate AddsNothing(defaultCfg: RateLimitConfig, own: RateLimitConfig) {
    || (!own.enabled && own.requestsPerMinute == 0 && own.burst == 0)
    || (&& LimitFromConfig(defaultCfg).enabled
        && (own.requestsPerMinute == 0 || own.requestsPerMinute == defaultCfg.requestsPerMinute)
        && (own.burst == 0 || own.burst == defaultCfg.burst))
  }

  /**
   Tenants authenticate under their trimmed id, the limiter files their limit under the id as
   written. So a validated tenant is held to its own limit exactly when its id is written without
   surrounding white space, or its entry changes nothing.
   */
  lemma OwnLimitAppliesExactlyWhen(defaultCfg: RateLimitConfig, tenants: seq<TenantConfig>, n: nat)
    requires ValidTenants(tenants) && n < |tenants|
    ensures EffectiveLimit(defaultCfg, tenants, Identity(tenants[n]))
            == MergeLimit(LimitFromConfig(defaultCfg), LimitFromConfig(tenants[n].rateLimit))
       <==> Identity(tenants[n]) == tenants[n].id || AddsNothing(defaultCfg, tenants[n].rateLimit)
  {
    var id := Identity(tenants[n]);
    assert ValidateRateLimit(tenants[n].rateLimit).None?;
    if id == tenants[n].id {
      OverrideOfListed(tenants, n);
    } else {
      IdentityIsUnlisted(tenants, n);
      OverrideOfUnlisted(tenants, id);
    }
  }

  /** One blank before the id, and a validated, enabled limit is not enforced at all. */
  lemma PaddedIdLosesItsLimit()
    ensures var acme := TenantConfig(" acme", 0.0, 0.0, RateLimitConfig(true, 5, 5));
            && ValidTenants([acme]) && Identity(acme) == "acme"
            && !EffectiveLimit(RateLimitConfig(false, 0, 0), [acme], "acme").enabled
  {
    assert TrimSpace(" acme") == TrimSpace("acme") == "acme";
    OverrideOfUnlisted([TenantConfig(" acme", 0.0, 0.0, RateLimitConfig(true, 5, 5))], "acme");
  }

  // ---------------------------------------------------------------------------------------------
  // The limiter object
  // ---------------------------------------------------------------------------------------------

  class Limiter {
    const defaultLimit: Limit
    const tenantLimits: map<string, Limit>
    var buckets: Buckets
    /** Every call so far, in the order in which the lock was taken. */
    ghost var history: seq<Call>

    ghost function TheLimits(): Limits {
      Limits(defaultLimit, tenantLimits)
    }

    ghost predicate Valid()
      reads this
    {
      buckets == BucketsAfter(TheLimits(), history)
    }

    constructor (defaultCfg: RateLimitConfig, tenants: seq<TenantConfig>)
      ensures Valid() && history == []
      ensures forall id :: TheLimits().For(id) == EffectiveLimit(defaultCfg, tenants, id)
    {
      var base := LimitFromConfig(defaultCfg);
      var limits: map<string, Limit> := map[];
      for n := 0 to |tenants|
        invariant forall id :: Limits(base, limits).For(id) == EffectiveLimit(defaultCfg, tenants[..n], id)
      {
        ghost var before := limits;
        limits := limits[tenants[n].id := MergeLimit(base, LimitFromConfig(tenants[n].rateLimit))];
        forall id ensures Limits(base, limits).For(id) == EffectiveLimit(defaultCfg, tenants[..n + 1], id) {
          assert tenants[..n + 1][..n] == tenants[..n];
          assert Limits(base, before).For(id) == EffectiveLimit(defaultCfg, tenants[..n], id);
        }
      }
      assert tenants[..|tenants|] == tenants;
      defaultLimit := base;
      tenantLimits := limits;
      buckets := map[];
      history := [];
    }

    /** Decides one call; the answer is the next decision of the whole history. */
    method Allow(tenantId: string, now: int) returns (d: Decision)
      requires Valid()
      modifies this
      ensures Valid() && history == old(history) + [Call(tenantId, now)]
      ensures Decisions(TheLimits(), history) == old(Decisions(TheLimits(), history)) + [d]
      ensures d.tenantId == TenantOf(tenantId)
      ensures forall other :: other != TenantOf(tenantId) ==> BucketOf(buckets, other) == old(BucketOf(buckets, other))
    {
      d := Decide(tenantId, now);
      RunExtends(TheLimits(), history, Call(tenantId, now));
      history := history + [Call(tenantId, now)];
    }

    /** The critical section: refill, cap, spend, store. */
    method Decide(tenantId: string, now: int) returns (d: Decision)
      modifies this`buckets
      ensures (d, buckets) == AllowStep(TheLimits(), old(buckets), tenantId, now)
    {
      var tenant := TenantOf(tenantId);
      var limit := if tenant in tenantLimits then tenantLimits[tenant] else defaultLimit;
      if !limit.enabled {
        return Decision(true, "", tenant, 0);
      }
      var current := if tenant in buckets then buckets[tenant] else Unused;
      if current.Unused? {
        current := Bucket(Tokens(limit.burst), now);
      }
      var tokens := current.tokens + (now - current.updated) * limit.rpm;
      if tokens > Tokens(limit.burst) {
        tokens := Tokens(limit.burst);
      }
      if tokens >= TOKEN {
        tokens := tokens - TOKEN;
        buckets := buckets[tenant := Bucket(tokens, now)];
        return Decision(true, "", tenant, 0);
      }
      buckets := buckets[tenant := Bucket(tokens, now)];
      return Decision(false, "rate_limit_exceeded", tenant, RetryAfterSeconds(limit.rpm, tokens));
    }
  }
}
