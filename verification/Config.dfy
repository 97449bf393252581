/** The part of a loaded configuration the admission controls depend on, and its validation. */
module Config {
  import opened Wrappers

  datatype RateLimitConfig = RateLimitConfig(enabled: bool, requestsPerMinute: int, burst: int)

  datatype TenantConfig = TenantConfig(
    id: string,
    dailyBudgetUsd: real,
    perRequestBudgetUsd: real,
    rateLimit: RateLimitConfig)

  datatype ConfigError =
    | NegativeRateLimit
    | MissingRequestsPerMinute
    | MissingBurst
    | MissingTenantId
    | DuplicateTenantId(id: string)

  /** Accepted exactly when nothing is negative and an enabled limit sets both values. */
  function ValidateRateLimit(rate: RateLimitConfig): (err: Option<ConfigError>)
    ensures err.None? <==>
              && rate.requestsPerMinute >= 0 && rate.burst >= 0
              && (rate.enabled ==> rate.requestsPerMinute >= 1 && rate.burst >= 1)
    ensures err == Some(NegativeRateLimit) <==> rate.requestsPerMinute < 0 || rate.burst < 0
    ensures err == Some(MissingRequestsPerMinute) <==> rate.enabled && rate.requestsPerMinute == 0 && rate.burst >= 0
    ensures err == Some(MissingBurst) <==> rate.enabled && rate.requestsPerMinute > 0 && rate.burst == 0
  {
    if !rate.enabled && rate.requestsPerMinute == 0 && rate.burst == 0 then None
    else if rate.requestsPerMinute < 0 || rate.burst < 0 then Some(NegativeRateLimit)
    else if rate.enabled && rate.requestsPerMinute == 0 then Some(MissingRequestsPerMinute)
    else if rate.enabled && rate.burst == 0 then Some(MissingBurst)
    else None
  }

  /** Unicode white space. */
  predicate IsSpace(c: char) {
    || c == ' ' || '\t' <= c <= '\r' || c == '\U{85}' || c == '\U{A0}' || c == '\U{1680}'
    || '\U{2000}' <= c <= '\U{200A}' || c == '\U{2028}' || c == '\U{2029}' || c == '\U{202F}'
    || c == '\U{205F}' || c == '\U{3000}'
  }

  /** By code point. */
  lemma WhiteSpaceByCodePoint(c: char)
    ensures IsSpace(c) <==> c as int in {9, 10, 11, 12, 13, 32, 133, 160, 5760, 8192, 8193, 8194, 8195, 8196, 8197, 8198,
                                         8199, 8200, 8201, 8202, 8232, 8233, 8239, 8287, 12288}
  {
  }

  /** An id without the white space around it. */
  function TrimSpace(id: string): string {
    if id == "" then ""
    else if IsSpace(id[0]) then TrimSpace(id[1..])
    else if IsSpace(id[|id| - 1]) then TrimSpace(id[..|id| - 1])
    else id
  }

  /**
   Exactly the white space around an id goes: what is left is a stretch of the id with nothing but
   white space before and after it, and neither begins nor ends with any.
   */
  lemma {:induction false} TrimSpaceStops(id: string) returns (i: nat, j: nat)
    ensures i <= j <= |id| && TrimSpace(id) == id[i..j]
    ensures forall k :: 0 <= k < i || j <= k < |id| ==> IsSpace(id[k])
    ensures i < j ==> !IsSpace(id[i]) && !IsSpace(id[j - 1])
  {
    i, j := 0, |id|;
    if id != "" && IsSpace(id[0]) {
      i, j := TrimSpaceStops(id[1..]);
      i, j := i + 1, j + 1;
      assert id[1..][i - 1..j - 1] == id[i..j];
      forall k | 0 <= k < i || j <= k < |id| ensures IsSpace(id[k]) {
        if k > 0 { assert id[1..][k - 1] == id[k]; }
      }
    } else if id != "" && IsSpace(id[|id| - 1]) {
      i, j := TrimSpaceStops(id[..|id| - 1]);
      assert id[..|id| - 1][i..j] == id[i..j];
      forall k | 0 <= k < i || j <= k < |id| ensures IsSpace(id[k]) {
        if k < |id| - 1 { assert id[..|id| - 1][k] == id[k]; }
      }
    }
  }

  /** A trimmed id is its own. */
  lemma TrimmedTwice(id: string)
    ensures TrimSpace(TrimSpace(id)) == TrimSpace(id)
  {
    var i, j := TrimSpaceStops(id);
  }

  /** The id a tenant authenticates under. */
  function Identity(tenant: TenantConfig): string {
    TrimSpace(tenant.id)
  }

  ghost predicate DistinctIds(tenants: seq<TenantConfig>) {
    forall i, j :: 0 <= i < j < |tenants| ==> Identity(tenants[i]) != Identity(tenants[j])
  }

  ghost predicate ValidTenants(tenants: seq<TenantConfig>) {
    && DistinctIds(tenants)
    && forall i :: 0 <= i < |tenants| ==>
         Identity(tenants[i]) != "" && ValidateRateLimit(tenants[i].rateLimit).None?
  }

  /** Nobody else is listed as the tenant authenticates. */
  lemma IdentityIsUnlisted(tenants: seq<TenantConfig>, n: nat)
    requires DistinctIds(tenants) && n < |tenants| && Identity(tenants[n]) != tenants[n].id
    ensures forall i :: 0 <= i < |tenants| ==> tenants[i].id != Identity(tenants[n])
  {
    forall i | 0 <= i < |tenants| ensures tenants[i].id != Identity(tenants[n]) {
      TrimmedTwice(tenants[n].id);
      assert i != n ==> Identity(tenants[i]) != Identity(tenants[n]);
    }
  }

  lemma OneMoreTenant(tenants: seq<TenantConfig>, tenant: TenantConfig)
    requires ValidTenants(tenants)
    ensures ValidTenants(tenants + [tenant]) <==>
              && Identity(tenant) != "" && ValidateRateLimit(tenant.rateLimit).None?
              && forall i :: 0 <= i < |tenants| ==> Identity(tenants[i]) != Identity(tenant)
  {
    var more := tenants + [tenant];
    assert more[|tenants|] == tenant;
    assert forall i :: 0 <= i < |tenants| ==> more[i] == tenants[i];
  }

  /** What follows a faulty entry cannot mend it. */
  lemma FaultRemains(tenants: seq<TenantConfig>, n: nat)
    requires n <= |tenants| && ValidTenants(tenants)
    ensures ValidTenants(tenants[..n])
  {
  }

  /** The fault entry `n` is rejected for: no name, a name taken earlier, or its own limit. */
  ghost predicate FaultAt(tenants: seq<TenantConfig>, n: nat, err: ConfigError)
    requires n < |tenants|
  {
    match err
    case MissingTenantId => Identity(tenants[n]) == ""
    case DuplicateTenantId(id) => Identity(tenants[n]) == id != "" && exists i :: 0 <= i < n && Identity(tenants[i]) == id
    case _ =>
      && Identity(tenants[n]) != "" && (forall i :: 0 <= i < n ==> Identity(tenants[i]) != Identity(tenants[n]))
      && ValidateRateLimit(tenants[n].rateLimit) == Some(err)
  }

  /** Accepts exactly the lists of named, distinct tenants with valid limits, and blames the first fault. */
  method ValidateTenants(tenants: seq<TenantConfig>) returns (err: Option<ConfigError>)
    ensures err.None? <==> ValidTenants(tenants)
    ensures err.Some? ==> exists n :: 0 <= n < |tenants| && ValidTenants(tenants[..n]) && FaultAt(tenants, n, err.value)
  {
    var seen: set<string> := {};
    for n := 0 to |tenants|
      invariant ValidTenants(tenants[..n])
      invariant seen == set i | 0 <= i < n :: Identity(tenants[i])
    {
      var tenant := tenants[n];
      OneMoreTenant(tenants[..n], tenant);
      assert tenants[..n + 1] == tenants[..n] + [tenant];
      assert ValidTenants(tenants) ==> ValidTenants(tenants[..n + 1]) by {
        if ValidTenants(tenants) { FaultRemains(tenants, n + 1); }
      }
      var id := Identity(tenant);
      if id == "" {
        assert FaultAt(tenants, n, MissingTenantId);
        return Some(MissingTenantId);
      }
      if id in seen {
        var i :| 0 <= i < n && Identity(tenants[i]) == id;
        assert FaultAt(tenants, n, DuplicateTenantId(id));
        return Some(DuplicateTenantId(id));
      }
      seen := seen + {id};
      var rateErr := ValidateRateLimit(tenant.rateLimit);
      if rateErr.Some? {
        assert FaultAt(tenants, n, rateErr.value);
        return rateErr;
      }
    }
    assert tenants[..|tenants|] == tenants;
    return None;
  }
}
