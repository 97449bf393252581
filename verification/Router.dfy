/** Provider selection, failover and key rotation. */
module Routing {
  import opened Wrappers
  import opened Sequences
  import opened Metrics

  /** A provider lists the models it serves; an empty list means it takes anything as a fallback. */
  datatype Provider = Provider(name: string, models: set<string>)

  // ---------------------------------------------------------------------------------------------
  // Candidates
  // ---------------------------------------------------------------------------------------------

  function Listing(providers: seq<Provider>, model: string): (mask: seq<bool>)
    ensures |mask| == |providers|
  {
    seq(|providers|, i requires 0 <= i < |providers| => model in providers[i].models)
  }

  function Unrestricted(providers: seq<Provider>): (mask: seq<bool>)
    ensures |mask| == |providers|
  {
    seq(|providers|, i requires 0 <= i < |providers| => providers[i].models == {})
  }

  /** Exactly the providers listing the model, in order; if there are none, exactly the unrestricted ones. */
  function CandidatesOf(providers: seq<Provider>, model: string): seq<Provider> {
    if exists i :: 0 <= i < |providers| && model in providers[i].models
    then Kept(providers, Listing(providers, model))
    else Kept(providers, Unrestricted(providers))
  }

  lemma {:induction false} KeptIsEmptyIff<T>(xs: seq<T>, keep: seq<bool>)
    requires |xs| == |keep|
    ensures Kept(xs, keep) == [] <==> forall i :: 0 <= i < |xs| ==> !keep[i]
  {
    if xs != [] {
      KeptIsEmptyIff(xs[..|xs| - 1], keep[..|xs| - 1]);
    }
  }

  /** The positions of the selected elements, in order. */
  ghost predicate Positions<T(!new)>(xs: seq<T>, chosen: seq<T>, at: seq<int>) {
    && |at| == |chosen|
    && (forall k :: 0 <= k < |at| ==> 0 <= at[k] < |xs| && chosen[k] == xs[at[k]])
    && (forall k, m :: 0 <= k < m < |at| ==> at[k] < at[m])
  }

  lemma {:induction false} KeptPositions<T(!new)>(xs: seq<T>, keep: seq<bool>) returns (at: seq<int>)
    requires |xs| == |keep|
    ensures Positions(xs, Kept(xs, keep), at)
    ensures forall i :: 0 <= i < |xs| ==> (i in at <==> keep[i])
  {
    at := [];
    if xs != [] {
      var n := |xs| - 1;
      at := KeptPositions(xs[..n], keep[..n]);
      KeptExtends(xs, keep);
      if keep[n] {
        at := at + [n];
        assert n in at by { assert at[|at| - 1] == n; }
      }
    }
  }

  /** Whether provider `i` is to be tried for the model: those that list it, or those that list nothing if none lists it. */
  ghost predicate IsCandidate(providers: seq<Provider>, model: string, i: int)
    requires 0 <= i < |providers|
  {
    if exists j :: 0 <= j < |providers| && model in providers[j].models then model in providers[i].models
    else providers[i].models == {}
  }

  ghost predicate AreCandidates(providers: seq<Provider>, model: string, candidates: seq<Provider>) {
    exists at ::
      && Positions(providers, candidates, at)
      && forall i :: 0 <= i < |providers| ==> (i in at <==> IsCandidate(providers, model, i))
  }

  /** The candidates are exactly the providers to be tried, each once and in the order of the configuration. */
  lemma CandidatesAreExact(providers: seq<Provider>, model: string)
    ensures AreCandidates(providers, model, CandidatesOf(providers, model))
  {
    if exists j :: 0 <= j < |providers| && model in providers[j].models {
      var at := KeptPositions(providers, Listing(providers, model));
      assert Positions(providers, CandidatesOf(providers, model), at);
    } else {
      var at := KeptPositions(providers, Unrestricted(providers));
      assert Positions(providers, CandidatesOf(providers, model), at);
    }
  }

  method Candidates(providers: seq<Provider>, model: string) returns (candidates: seq<Provider>)
    ensures candidates == CandidatesOf(providers, model)
    ensures AreCandidates(providers, model, candidates)
  {
    CandidatesAreExact(providers, model);
    var matches, fallback := [], [];
    for n := 0 to |providers|
      invariant matches == Kept(providers[..n], Listing(providers[..n], model))
      invariant fallback == Kept(providers[..n], Unrestricted(providers[..n]))
    {
      var upto := providers[..n + 1];
      assert upto[..n] == providers[..n];
      assert Listing(upto, model)[..n] == Listing(providers[..n], model);
      assert Unrestricted(upto)[..n] == Unrestricted(providers[..n]);
      if providers[n].models == {} {
        fallback := fallback + [providers[n]];
      } else if model in providers[n].models {
        matches := matches + [providers[n]];
      }
    }
    assert providers[..|providers|] == providers;
    KeptIsEmptyIff(providers, Listing(providers, model));
    if matches != [] {
      assert exists i :: 0 <= i < |providers| && Listing(providers, model)[i];
      return matches;
    }
    assert forall i :: 0 <= i < |providers| ==> Listing(providers, model)[i] == (model in providers[i].models);
    return fallback;
  }

  // ---------------------------------------------------------------------------------------------
  // Failover
  // ---------------------------------------------------------------------------------------------

  /** What a provider brings back if it is called: an error, or a reply. */
  datatype Attempt = Failed | Reply(status: int, streaming: bool, completionTokens: nat)

  predicate Acceptable(a: Attempt) {
    a.Reply? && a.status != 429 && a.status < 500
  }

  datatype CallError = NoProvider | CallFailed(provider: string) | BadStatus(provider: string, status: int)

  /** An attempt after which the next candidate is tried. */
  predicate IsFailure(a: Attempt) {
    a.Failed? || a.status == 429 || a.status >= 500
  }

  /** How many candidates are called: up to the first acceptable reply, or all of them. */
  function TriesOf(attempts: seq<Attempt>): (tries: nat)
    ensures tries <= |attempts|
    ensures forall i :: 0 <= i < tries - 1 ==> !Acceptable(attempts[i])
    ensures tries < |attempts| ==> tries > 0 && Acceptable(attempts[tries - 1])
    ensures attempts != [] ==> tries > 0
  {
    if attempts == [] then 0
    else if Acceptable(attempts[0]) then 1
    else 1 + TriesOf(attempts[1..])
  }

  /** The reply handed on, if any. */
  function ReplyOf(attempts: seq<Attempt>): Option<Attempt> {
    var tries := TriesOf(attempts);
    if tries > 0 && Acceptable(attempts[tries - 1]) then Some(attempts[tries - 1]) else None
  }

  /** The reply handed on is the first acceptable one. */
  lemma {:induction false} ReplyIsFirstAcceptable(attempts: seq<Attempt>, k: nat)
    requires k < |attempts| && attempts[k].Reply? && attempts[k].status != 429 && attempts[k].status < 500
    requires forall i :: 0 <= i < k ==> IsFailure(attempts[i])
    ensures TriesOf(attempts) == k + 1 && ReplyOf(attempts) == Some(attempts[k])
  {
    if k > 0 {
      ReplyIsFirstAcceptable(attempts[1..], k - 1);
    }
  }

  /** Without an acceptable attempt every candidate is called and nothing is handed on. */
  lemma {:induction false} NoReplyMeansAllTried(attempts: seq<Attempt>)
    requires forall i :: 0 <= i < |attempts| ==> IsFailure(attempts[i])
    ensures TriesOf(attempts) == |attempts| && ReplyOf(attempts) == None
  {
    if attempts != [] {
      NoReplyMeansAllTried(attempts[1..]);
    }
  }

  /** The loop over the candidates, at least one. */
  method TryInOrder(candidates: seq<Provider>, attempts: seq<Attempt>, metrics: Registry)
    returns (reply: Option<Attempt>, lastErr: Option<CallError>)
    requires |attempts| == |candidates| > 0
    modifies metrics`failovers
    ensures reply == ReplyOf(attempts)
    ensures metrics.failovers == Ticked(old(metrics.failovers), TriesOf(attempts) - 1)
    ensures reply.None? ==>
              var last := |attempts| - 1;
              var name := candidates[last].name;
              lastErr == Some(if attempts[last].Failed? then CallFailed(name) else BadStatus(name, attempts[last].status))
  {
    lastErr := None;
    for i := 0 to |candidates|
      invariant forall j :: 0 <= j < i ==> IsFailure(attempts[j])
      invariant i > 0 ==> lastErr == Some(if attempts[i - 1].Failed? then CallFailed(candidates[i - 1].name)
                                          else BadStatus(candidates[i - 1].name, attempts[i - 1].status))
      invariant metrics.failovers == Ticked(old(metrics.failovers), if i == 0 then 0 else i - 1)
    {
      if i > 0 {
        metrics.RecordFailover();
      }
      var upstream := attempts[i];
      if upstream.Failed? {
        lastErr := Some(CallFailed(candidates[i].name));
        continue;
      }
      if upstream.status == 429 || upstream.status >= 500 {
        lastErr := Some(BadStatus(candidates[i].name, upstream.status));
        continue;
      }
      ReplyIsFirstAcceptable(attempts, i);
      return Some(upstream), None;
    }
    NoReplyMeansAllTried(attempts);
    return None, lastErr;
  }

  /**
   Calls the candidates in order until one answers acceptably. `attempts[i]` is what candidate `i`
   brings back if called. A missing reply always comes with an error, the last candidate's, and the
   failover counter grows by the calls made after the first.
   */
  method CallProviders(providers: seq<Provider>, model: string, attempts: seq<Attempt>, metrics: Registry)
    returns (reply: Option<Attempt>, err: Option<CallError>)
    requires |attempts| == |CandidatesOf(providers, model)|
    modifies metrics`failovers
    ensures reply == ReplyOf(attempts)
    ensures reply.None? <==> err.Some?
    ensures metrics.failovers == Wrap64(old(metrics.failovers) + (if attempts == [] then 0 else TriesOf(attempts) - 1))
    ensures err == Some(NoProvider) <==> attempts == []
    ensures reply.None? && attempts != [] ==>
              var last := |attempts| - 1;
              var name := CandidatesOf(providers, model)[last].name;
              err == Some(if attempts[last].Failed? then CallFailed(name) else BadStatus(name, attempts[last].status))
  {
    var candidates := Candidates(providers, model);
    if |candidates| == 0 {
      return None, Some(NoProvider);
    }
    TickedWraps(metrics.failovers, TriesOf(attempts) - 1);
    reply, err := TryInOrder(candidates, attempts, metrics);
    if reply.Some? {
      err := None;
    }
  }

  // ---------------------------------------------------------------------------------------------
  // Key rotation
  // ---------------------------------------------------------------------------------------------

  /** Remainder truncated toward zero. */
  function TruncatedRemainder(a: int, b: int): int
    requires b > 0
  {
    if a >= 0 then a % b else -((-a) % b)
  }

  /** The index computed by the call that draws ticket `n`, with 64-bit conversion and subtraction. */
  function TicketIndex(n: nat, keys: nat): int
    requires keys > 0
  {
    IndexOf(n % INT64_SPAN, keys)
  }

  function IndexOf(counter: int, keys: nat): int
    requires keys > 0
  {
    TruncatedRemainder(Wrap64(Wrap64(counter) - 1), keys)
  }

  /** For the first 2^63 tickets the rotation is plain round-robin. */
  lemma RotationIsRoundRobin(n: nat, keys: nat)
    requires keys > 0 && 1 <= n <= INT64_MAX + 1
    ensures TicketIndex(n, keys) == (n - 1) % keys
  {
  }

  /**
   Over one full turn of the counter, a call picks a key, instead of a negative index, exactly when
   its ticket is among the first 2^63 or its distance from the end divides evenly.
   */
  lemma IndexInRangeExactlyWhen(n: nat, keys: nat)
    requires keys > 0 && 1 <= n <= INT64_SPAN
    ensures 0 <= TicketIndex(n, keys) < keys <==> n <= INT64_MAX + 1 || (INT64_SPAN + 1 - n) % keys == 0
  {
    if n <= INT64_MAX + 1 {
      RotationIsRoundRobin(n, keys);
    } else {
      assert Wrap64(Wrap64(n % INT64_SPAN) - 1) == n - INT64_SPAN - 1;
    }
  }

  /** With two keys, the second call past 2^63 computes the index -1. */
  lemma RotationGoesNegative()
    ensures TicketIndex(0x8000_0000_0000_0002, 2) == -1
  {
    assert Wrap64(Wrap64(0x8000_0000_0000_0002) - 1) == -INT64_MAX;
  }

  /** How many of the `n` tickets from `first` on use key position `p`. */
  function Uses(first: nat, n: nat, keys: nat, p: nat): nat
    requires keys > 0
  {
    if n == 0 then 0
    else Uses(first, n - 1, keys, p) + (if TicketIndex(first + n - 1, keys) == p then 1 else 0)
  }

  /** The same count for plain round-robin. */
  function Turns(first: nat, n: nat, keys: nat, p: nat): nat
    requires keys > 0 && first >= 1
  {
    if n == 0 then 0
    else Turns(first, n - 1, keys, p) + (if (first + n - 2) % keys == p then 1 else 0)
  }

  lemma {:induction false} UsesAreTurns(first: nat, n: nat, keys: nat, p: nat)
    requires p < keys && 1 <= first && first + n <= INT64_MAX + 2
    ensures Uses(first, n, keys, p) == Turns(first, n, keys, p)
  {
    if n > 0 {
      UsesAreTurns(first, n - 1, keys, p);
      RotationIsRoundRobin(first + n - 1, keys);
    }
  }

  /** Tickets still to draw after ticket `n` was next, until position `p` comes up. */
  function Distance(n: nat, keys: nat, p: nat): int
    requires keys > 0 && n >= 1
  {
    var at := (n - 1) % keys;
    if at <= p then p - at else p - at + keys
  }

  lemma MultipleIsFar(d: int, k: int)
    requires k > 0
    ensures d >= 1 ==> d * k >= k
    ensures d <= -1 ==> d * k <= -k
  {
  }

  lemma RemainderIsUnique(x: int, k: int, q: int, r: int)
    requires k > 0 && 0 <= r < k && x == q * k + r
    ensures x % k == r
  {
    var q', r' := x / k, x % k;
    assert x == q' * k + r';
    MultipleIsFar(q - q', k);
    assert (q - q') * k == q * k - q' * k;
  }

  lemma NextRemainder(i: nat, keys: nat)
    requires keys > 0
    ensures (i + 1) % keys == if i % keys == keys - 1 then 0 else i % keys + 1
  {
    var q, r := i / keys, i % keys;
    assert i == q * keys + r;
    if r == keys - 1 {
      assert (q + 1) * keys == q * keys + keys;
      RemainderIsUnique(i + 1, keys, q + 1, 0);
    } else {
      RemainderIsUnique(i + 1, keys, q, r + 1);
    }
  }

  lemma DistanceShrinks(n: nat, keys: nat, p: nat)
    requires p < keys && n >= 1
    ensures Distance(n + 1, keys, p) == Distance(n, keys, p) - 1 + (if (n - 1) % keys == p then keys else 0)
  {
    NextRemainder(n - 1, keys);
  }

  lemma OneMoreTurn(turns: nat, keys: nat, hit: bool)
    ensures (turns + (if hit then 1 else 0)) * keys == turns * keys + (if hit then keys else 0)
  {
  }

  lemma {:induction false} TurnsByDistance(first: nat, n: nat, keys: nat, p: nat, end: nat)
    requires p < keys && 1 <= first && end == first + n
    ensures Turns(first, n, keys, p) * keys == n + Distance(end, keys, p) - Distance(first, keys, p)
  {
    if n > 0 {
      var last := end - 1;
      TurnsByDistance(first, n - 1, keys, p, last);
      DistanceShrinks(last, keys, p);
      OneMoreTurn(Turns(first, n - 1, keys, p), keys, (last - 1) % keys == p);
    }
  }

  /**
   Fair rotation: any `n` consecutive tickets, within the first 2^63, use each position `n / keys`
   times, rounded down or up.
   */
  lemma RotationIsFair(first: nat, n: nat, keys: nat, p: nat)
    requires p < keys && 1 <= first && first + n <= INT64_MAX + 2
    ensures n / keys <= Uses(first, n, keys, p) <= (n + keys - 1) / keys
  {
    UsesAreTurns(first, n, keys, p);
    TurnsByDistance(first, n, keys, p, first + n);
    QuotientBetween(n, keys, Uses(first, n, keys, p));
  }

  lemma QuotientBetween(n: nat, keys: nat, uses: nat)
    requires keys > 0 && n - keys < uses * keys < n + keys
    ensures n / keys <= uses <= (n + keys - 1) / keys
  {
    var q, c := n / keys, (n + keys - 1) / keys;
    assert n == q * keys + n % keys && n + keys - 1 == c * keys + (n + keys - 1) % keys;
    MultipleIsFar(uses - q, keys);
    MultipleIsFar(uses - c, keys);
    assert (uses - q) * keys == uses * keys - q * keys && (uses - c) * keys == uses * keys - c * keys;
  }

  lemma CounterAdvances(drawn: nat)
    ensures (drawn % INT64_SPAN + 1) % INT64_SPAN == (drawn + 1) % INT64_SPAN
  {
    NextRemainder(drawn, INT64_SPAN);
  }

  datatype KeyChoice = NoKeys | Key(key: string) | IndexPanic

  class KeyRing {
    const keys: seq<string>
    /** The 64-bit unsigned ticket counter. */
    var nextKey: nat
    /** Tickets drawn so far. */
    ghost var drawn: nat

    ghost predicate Valid()
      reads this
    {
      nextKey == drawn % INT64_SPAN
    }

    constructor (keys: seq<string>)
      ensures Valid() && this.keys == keys && drawn == 0
    {
      this.keys := keys;
      nextKey, drawn := 0, 0;
    }

    /** Draws the next ticket; without keys nothing is drawn. */
    method NextKey() returns (choice: KeyChoice)
      requires Valid()
      modifies this
      ensures Valid()
      ensures keys == [] ==> choice == NoKeys && drawn == old(drawn)
      ensures keys != [] ==> drawn == old(drawn) + 1
      ensures keys != [] ==>
                var at := TicketIndex(drawn, |keys|);
                if 0 <= at < |keys| then choice == Key(keys[at]) else choice == IndexPanic
    {
      if |keys| == 0 {
        return NoKeys;
      }
      CounterAdvances(drawn);
      nextKey := (nextKey + 1) % INT64_SPAN;
      drawn := drawn + 1;
      var at := IndexOf(nextKey, |keys|);
      if at < 0 || at >= |keys| {
        return IndexPanic;
      }
      return Key(keys[at]);
    }
  }
}
