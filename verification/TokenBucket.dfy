/**
 One tenant's token bucket, and what it does over a whole history of calls.

 Time is in integer nanoseconds. Tokens are scaled so that no rounding occurs: one token is
 `TOKEN` units (the nanoseconds in a minute), so a rate of `rpm` tokens per minute earns exactly
 `rpm` units per nanosecond.
 */
module TokenBucket {
  import opened Sequences

  const TOKEN: int := 60_000_000_000

  /** `n` whole tokens in units. */
  function Tokens(n: int): int {
    n * 60_000_000_000
  }

  /** `n` seconds in nanoseconds. */
  function Seconds(n: int): int {
    n * 1_000_000_000
  }

  datatype Limit = Limit(enabled: bool, rpm: int, burst: int)

  /** `Unused` is the zero value found in the map before a tenant's first call. */
  datatype Bucket = Unused | Bucket(tokens: int, updated: int)

  // ---------------------------------------------------------------------------------------------
  // One call
  // ---------------------------------------------------------------------------------------------

  function Capacity(l: Limit): int {
    Tokens(l.burst)
  }

  /** The level at time `now`, after the lazy refill and the cap but before any spending. */
  function Refilled(l: Limit, b: Bucket, now: int): (level: int)
    ensures level <= Capacity(l)
  {
    var current := if b.Unused? then Bucket(Capacity(l), now) else b;
    var level := current.tokens + (now - current.updated) * l.rpm;
    if level > Capacity(l) then Capacity(l) else level
  }

  predicate Allows(l: Limit, b: Bucket, now: int) {
    Refilled(l, b, now) >= TOKEN
  }

  /** The bucket a call at time `now` leaves behind, when it does or does not take a token. */
  function After(l: Limit, b: Bucket, now: int, take: bool): Bucket {
    Bucket(Refilled(l, b, now) - (if take then TOKEN else 0), now)
  }

  lemma EarnedIsNonNegative(dt: int, rpm: int)
    requires dt >= 0 && rpm >= 0
    ensures dt * rpm >= 0
  {
  }

  lemma EarnedIsMonotone(dt: int, slow: int, fast: int)
    requires dt >= 0 && slow <= fast
    ensures dt * slow <= dt * fast
  {
  }

  lemma EarnedSplits(t0: int, t1: int, t2: int, rpm: int)
    ensures (t1 - t0) * rpm + (t2 - t1) * rpm == (t2 - t0) * rpm
  {
  }

  // ---------------------------------------------------------------------------------------------
  // Histories
  // ---------------------------------------------------------------------------------------------

  ghost predicate NonDecreasing(ts: seq<int>) {
    forall i, j :: 0 <= i <= j < |ts| ==> ts[i] <= ts[j]
  }

  /** The bucket after calls at times `ts`, when exactly the calls marked in `picks` take a token. */
  function Track(l: Limit, ts: seq<int>, picks: seq<bool>): (b: Bucket)
    requires |ts| == |picks|
    ensures b.Unused? <==> ts == []
    ensures ts != [] ==> b.updated == ts[|ts| - 1]
  {
    if ts == [] then Unused
    else
      var n := |ts| - 1;
      After(l, Track(l, ts[..n], picks[..n]), ts[n], picks[n])
  }

  /** The decisions the limiter takes: a call is admitted whenever a whole token is there. */
  function Greedy(l: Limit, ts: seq<int>): (picks: seq<bool>)
    ensures |picks| == |ts|
  {
    if ts == [] then []
    else
      var n := |ts| - 1;
      var before := Greedy(l, ts[..n]);
      before + [Allows(l, Track(l, ts[..n], before), ts[n])]
  }

  /** The limiter's bucket after calls at times `ts`. */
  function BucketAfter(l: Limit, ts: seq<int>): Bucket {
    Track(l, ts, Greedy(l, ts))
  }

  function Count(picks: seq<bool>): (n: nat)
    ensures n <= |picks|
  {
    if picks == [] then 0
    else Count(picks[..|picks| - 1]) + (if picks[|picks| - 1] then 1 else 0)
  }

  lemma {:induction false} GreedyPrefix(l: Limit, ts: seq<int>, k: nat)
    requires k <= |ts|
    ensures Greedy(l, ts[..k]) == Greedy(l, ts)[..k]
  {
    if k < |ts| {
      var n := |ts| - 1;
      GreedyPrefix(l, ts[..n], k);
      assert ts[..n][..k] == ts[..k];
    } else {
      assert ts[..k] == ts;
    }
  }

  /** One more call extends a history the way the limiter's code extends its bucket. */
  lemma HistoryExtends(l: Limit, ts: seq<int>, now: int)
    ensures Greedy(l, ts + [now]) == Greedy(l, ts) + [Allows(l, BucketAfter(l, ts), now)]
    ensures BucketAfter(l, ts + [now]) == After(l, BucketAfter(l, ts), now, Allows(l, BucketAfter(l, ts), now))
  {
    var all := ts + [now];
    assert all[..|all| - 1] == ts;
    var picks := Greedy(l, all);
    assert picks[..|all| - 1] == Greedy(l, ts);
  }

  /** Each decision of a history is the one its own prefix leads to. */
  lemma DecisionAt(l: Limit, ts: seq<int>, k: nat)
    requires k < |ts|
    ensures Greedy(l, ts)[k] == Allows(l, BucketAfter(l, ts[..k]), ts[k])
    ensures BucketAfter(l, ts[..k + 1]) == After(l, BucketAfter(l, ts[..k]), ts[k], Greedy(l, ts)[k])
  {
    HistoryExtends(l, ts[..k], ts[k]);
    assert ts[..k] + [ts[k]] == ts[..k + 1];
    GreedyPrefix(l, ts, k + 1);
    assert Greedy(l, ts)[k] == Greedy(l, ts[..k + 1])[k];
  }

  /** The last call of a history, its decision and the bucket it leaves. */
  lemma LastCall(l: Limit, ts: seq<int>, n: nat)
    requires |ts| == n + 1
    ensures var b := BucketAfter(l, ts[..n]);
            var allowed := Allows(l, b, ts[n]);
            && Greedy(l, ts) == Greedy(l, ts[..n]) + [allowed]
            && BucketAfter(l, ts) == After(l, b, ts[n], allowed)
            && Count(Greedy(l, ts)) == Count(Greedy(l, ts[..n])) + (if allowed then 1 else 0)
  {
    HistoryExtends(l, ts[..n], ts[n]);
    assert ts[..n] + [ts[n]] == ts;
    assert Greedy(l, ts)[..n] == Greedy(l, ts[..n]);
  }

  lemma {:induction false} CountSplit(a: seq<bool>, b: seq<bool>)
    ensures Count(a + b) == Count(a) + Count(b)
  {
    if b == [] {
      assert a + b == a;
    } else {
      var n := |b| - 1;
      CountSplit(a, b[..n]);
      assert (a + b)[..|a + b| - 1] == a + b[..n];
    }
  }

  lemma WindowExtends(picks: seq<bool>, i: nat)
    requires i < |picks|
    ensures var n := |picks| - 1;
            Count(picks[i..]) == Count(picks[..n][i..]) + (if picks[n] then 1 else 0)
  {
    assert picks[i..][..|picks[i..]| - 1] == picks[..|picks| - 1][i..];
  }

  // ---------------------------------------------------------------------------------------------
  // The arrival envelope
  // ---------------------------------------------------------------------------------------------

  /** Calls `i..j` (end exclusive) contain no more picks than `burst + rpm * (t[j-1] - t[i])`. */
  ghost predicate WindowFits(l: Limit, ts: seq<int>, picks: seq<bool>, i: int, j: int)
    requires 0 <= i < j <= |ts| == |picks|
  {
    Tokens(Count(picks[i..j])) <= Capacity(l) + (ts[j - 1] - ts[i]) * l.rpm
  }

  ghost predicate Envelope(l: Limit, ts: seq<int>, picks: seq<bool>)
    requires |ts| == |picks|
  {
    forall i, j :: 0 <= i < j <= |ts| ==> WindowFits(l, ts, picks, i, j)
  }

  /** The bucket never goes below empty. */
  ghost predicate NeverOverdrawn(l: Limit, ts: seq<int>, picks: seq<bool>)
    requires |ts| == |picks|
  {
    forall k :: 0 < k <= |ts| ==> Track(l, ts[..k], picks[..k]).tokens >= 0
  }

  lemma SpendingKeepsBound(l: Limit, b: Bucket, start: int, mid: int, now: int, take: bool, spent: int)
    requires b.Bucket? && b.updated == mid && b.tokens + spent <= Capacity(l) + (mid - start) * l.rpm
    ensures After(l, b, now, take).tokens + (if take then TOKEN else 0) + spent <= Capacity(l) + (now - start) * l.rpm
  {
    EarnedSplits(start, mid, now, l.rpm);
  }

  /** Any clock, any picks: what the bucket holds now was not spent since call `i`. */
  lemma {:induction false} LevelBoundsWindow(l: Limit, ts: seq<int>, picks: seq<bool>, i: nat, from: int, to: int)
    requires i < |ts| == |picks| && ts[i] == from && ts[|ts| - 1] == to
    ensures Track(l, ts, picks).tokens + Tokens(Count(picks[i..])) <= Capacity(l) + (to - from) * l.rpm
  {
    var n := |ts| - 1;
    WindowExtends(picks, i);
    var before := Track(l, ts[..n], picks[..n]);
    if i < n {
      LevelBoundsWindow(l, ts[..n], picks[..n], i, from, ts[n - 1]);
      SpendingKeepsBound(l, before, from, ts[n - 1], to, picks[n], Tokens(Count(picks[..n][i..])));
    } else {
      assert (to - from) * l.rpm == 0;
      assert picks[..n][i..] == [];
    }
  }

  /** The level is exactly accounted for by the window since the bucket was last full. */
  lemma {:induction false} LevelHasAnchor(l: Limit, ts: seq<int>, picks: seq<bool>) returns (i: nat)
    requires 0 < |ts| == |picks|
    ensures i < |ts|
    ensures Track(l, ts, picks).tokens + Tokens(Count(picks[i..]))
         == Capacity(l) + (ts[|ts| - 1] - ts[i]) * l.rpm
  {
    var n := |ts| - 1;
    var level := Refilled(l, Track(l, ts[..n], picks[..n]), ts[n]);
    if level == Capacity(l) {
      i := n;
      WindowExtends(picks, i);
    } else {
      i := LevelHasAnchor(l, ts[..n], picks[..n]);
      WindowExtends(picks, i);
      EarnedSplits(ts[i], ts[n - 1], ts[n], l.rpm);
    }
  }

  /**
   A choice of calls meets the envelope on every window exactly when one bucket can pay for it.
   No assumption on the clock or on the limit.
   */
  lemma EnvelopeIffNeverOverdrawn(l: Limit, ts: seq<int>, picks: seq<bool>)
    requires |ts| == |picks|
    ensures Envelope(l, ts, picks) <==> NeverOverdrawn(l, ts, picks)
  {
    if Envelope(l, ts, picks) {
      forall k | 0 < k <= |ts| ensures Track(l, ts[..k], picks[..k]).tokens >= 0 {
        var i := LevelHasAnchor(l, ts[..k], picks[..k]);
        assert picks[..k][i..] == picks[i..k];
        assert WindowFits(l, ts, picks, i, k);
      }
    }
    if NeverOverdrawn(l, ts, picks) {
      forall i, j | 0 <= i < j <= |ts| ensures WindowFits(l, ts, picks, i, j) {
        LevelBoundsWindow(l, ts[..j], picks[..j], i, ts[i], ts[j - 1]);
        assert picks[..j][i..] == picks[i..j];
        assert Track(l, ts[..j], picks[..j]).tokens >= 0;
      }
    }
  }

  lemma WindowToLastAdmission(l: Limit, ts: seq<int>, i: nat, from: int, to: int)
    requires i < |ts| && Greedy(l, ts)[|ts| - 1] && ts[i] == from && ts[|ts| - 1] == to
    ensures Tokens(Count(Greedy(l, ts)[i..])) <= Capacity(l) + (to - from) * l.rpm
  {
    LevelBoundsWindow(l, ts, Greedy(l, ts), i, from, to);
    AdmissionLeavesNoDebt(l, ts);
  }

  /**
   Window bound for any clock, even one that steps backwards: from any call to a later admitted
   call, the admissions fit the envelope of that window.
   */
  lemma WindowBoundAnyClock(l: Limit, ts: seq<int>, i: nat, j: nat)
    requires i <= j < |ts|
    requires Greedy(l, ts)[j]
    ensures WindowFits(l, ts, Greedy(l, ts), i, j + 1)
  {
    var upto := Greedy(l, ts[..j + 1]);
    assert upto == Greedy(l, ts)[..j + 1] by { GreedyPrefix(l, ts, j + 1); }
    WindowToLastAdmission(l, ts[..j + 1], i, ts[i], ts[j]);
    assert upto[i..] == Greedy(l, ts)[i..j + 1];
  }

  lemma AdmissionLeavesNoDebt(l: Limit, ts: seq<int>)
    requires ts != [] && Greedy(l, ts)[|ts| - 1]
    ensures BucketAfter(l, ts).tokens >= 0
  {
    DecisionAt(l, ts, |ts| - 1);
    assert ts[..|ts|] == ts;
  }

  // ---------------------------------------------------------------------------------------------
  // Non-decreasing clock: range, optimality, monotonicity
  // ---------------------------------------------------------------------------------------------

  /** In every reachable state the stored tokens lie within 0..burst. */
  lemma {:induction false} TokensStayInRange(l: Limit, ts: seq<int>)
    requires NonDecreasing(ts) && ts != []
    requires l.rpm >= 0 && l.burst >= 0
    ensures 0 <= BucketAfter(l, ts).tokens <= Capacity(l)
  {
    var n := |ts| - 1;
    DecisionAt(l, ts, n);
    assert ts[..n + 1] == ts;
    if n > 0 {
      TokensStayInRange(l, ts[..n]);
      EarnedIsNonNegative(ts[n] - ts[n - 1], l.rpm);
    }
  }

  lemma GreedyMeetsEnvelope(l: Limit, ts: seq<int>)
    requires NonDecreasing(ts)
    requires l.rpm >= 0 && l.burst >= 0
    ensures Envelope(l, ts, Greedy(l, ts))
  {
    forall k | 0 < k <= |ts| ensures Track(l, ts[..k], Greedy(l, ts)[..k]).tokens >= 0 {
      GreedyPrefix(l, ts, k);
      TokensStayInRange(l, ts[..k]);
    }
    EnvelopeIffNeverOverdrawn(l, ts, Greedy(l, ts));
  }

  /** A window fits if it ends in an admitted call, or if the clock never goes back. */
  lemma GreedyWindow(l: Limit, ts: seq<int>, i: nat, k: nat)
    requires i <= k < |ts|
    requires Greedy(l, ts)[k] || (NonDecreasing(ts) && l.rpm >= 0 && l.burst >= 0)
    ensures WindowFits(l, ts, Greedy(l, ts), i, k + 1)
  {
    if Greedy(l, ts)[k] {
      WindowBoundAnyClock(l, ts, i, k);
    } else {
      GreedyMeetsEnvelope(l, ts);
    }
  }

  lemma OverdrawnPrefix(l: Limit, ts: seq<int>, picks: seq<bool>, k: nat)
    requires k <= |ts| == |picks| && NeverOverdrawn(l, ts, picks)
    ensures NeverOverdrawn(l, ts[..k], picks[..k])
  {
    forall m | 0 < m <= k ensures Track(l, ts[..k][..m], picks[..k][..m]).tokens >= 0 {
      assert ts[..k][..m] == ts[..m] && picks[..k][..m] == picks[..m];
    }
  }

  /** One call of the simulation below: `lead` is how many more calls the greedy run has admitted. */
  lemma DominatesOneCall(small: Limit, big: Limit, v: Bucket, b: Bucket, now: int, take: bool, lead: nat)
    requires small.rpm <= big.rpm && small.burst <= big.burst
    requires (v.Unused? && b.Unused?) ||
             (v.Bucket? && b.Bucket? && v.updated == b.updated <= now && b.tokens + Tokens(lead) >= v.tokens)
    requires After(small, v, now, take).tokens >= 0
    ensures var allowed := Allows(big, b, now);
            var lead' := lead + (if allowed then 1 else 0) - (if take then 1 else 0);
            && lead' >= 0
            && After(big, b, now, allowed).tokens + Tokens(lead') >= After(small, v, now, take).tokens
  {
    if v.Bucket? {
      EarnedIsMonotone(now - v.updated, small.rpm, big.rpm);
    }
    assert Refilled(big, b, now) + Tokens(lead) >= Refilled(small, v, now);
  }

  /** The greedy run on `big` leads `picks` on `small`, and its lead covers any shortage of tokens. */
  ghost predicate Ahead(small: Limit, big: Limit, ts: seq<int>, picks: seq<bool>)
    requires |ts| == |picks|
  {
    var lead := Count(Greedy(big, ts)) - Count(picks);
    lead >= 0 && (ts == [] || BucketAfter(big, ts).tokens + Tokens(lead) >= Track(small, ts, picks).tokens)
  }

  /**
   The simulation behind optimality. Any affordable choice on a smaller limit is followed by the
   greedy run on a larger one: the greedy run is never behind in admissions, and any shortage of
   tokens is paid for by its lead.
   */
  lemma {:induction false} GreedyDominates(small: Limit, big: Limit, ts: seq<int>, picks: seq<bool>)
    requires |ts| == |picks| && NonDecreasing(ts)
    requires small.rpm <= big.rpm && small.burst <= big.burst
    requires NeverOverdrawn(small, ts, picks)
    ensures Ahead(small, big, ts, picks)
  {
    if ts != [] {
      var n := |ts| - 1;
      OverdrawnPrefix(small, ts, picks, n);
      GreedyDominates(small, big, ts[..n], picks[..n]);
      GreedyDominatesStep(small, big, ts, picks, n);
    }
  }

  lemma GreedyDominatesStep(small: Limit, big: Limit, ts: seq<int>, picks: seq<bool>, n: nat)
    requires |ts| == |picks| == n + 1 && (n > 0 ==> ts[n - 1] <= ts[n])
    requires small.rpm <= big.rpm && small.burst <= big.burst
    requires NeverOverdrawn(small, ts, picks)
    requires Ahead(small, big, ts[..n], picks[..n])
    ensures Ahead(small, big, ts, picks)
  {
    assert ts[..n + 1] == ts && picks[..n + 1] == picks;
    LastCall(big, ts, n);
    DominatesOneCall(small, big, Track(small, ts[..n], picks[..n]), BucketAfter(big, ts[..n]), ts[n], picks[n],
                     Count(Greedy(big, ts[..n])) - Count(picks[..n]));
  }

  /**
   Greedy optimality: in every prefix of the arrivals, the limiter has admitted at least as many
   calls as any other choice that meets the envelope.
   */
  lemma GreedyIsOptimal(l: Limit, ts: seq<int>, picks: seq<bool>, k: nat)
    requires |ts| == |picks| && NonDecreasing(ts) && k <= |ts|
    requires Envelope(l, ts, picks)
    ensures Count(picks[..k]) <= Count(Greedy(l, ts)[..k])
  {
    EnvelopeIffNeverOverdrawn(l, ts, picks);
    OverdrawnPrefix(l, ts, picks, k);
    GreedyDominates(l, l, ts[..k], picks[..k]);
    GreedyPrefix(l, ts, k);
  }

  /** Raising a limit never lowers the number of admissions in any prefix. */
  lemma RaisingNeverHurts(small: Limit, big: Limit, ts: seq<int>, k: nat)
    requires NonDecreasing(ts) && k <= |ts|
    requires 0 <= small.rpm <= big.rpm && 0 <= small.burst <= big.burst
    ensures Count(Greedy(small, ts)[..k]) <= Count(Greedy(big, ts)[..k])
  {
    GreedyMeetsEnvelope(small, ts[..k]);
    EnvelopeIffNeverOverdrawn(small, ts[..k], Greedy(small, ts[..k]));
    GreedyDominates(small, big, ts[..k], Greedy(small, ts[..k]));
    GreedyPrefix(small, ts, k);
    GreedyPrefix(big, ts, k);
  }

  /** The larger limit need not admit the same calls: here it denies one the smaller limit admits. */
  lemma RaisingMayDenyACall()
    ensures Greedy(Limit(true, 2, 1), [1, 1 + Seconds(20), 1 + Seconds(30)]) == [true, false, true]
    ensures Greedy(Limit(true, 3, 1), [1, 1 + Seconds(20), 1 + Seconds(30)]) == [true, true, false]
  {
    ThreeCalls(Limit(true, 2, 1), 1, 1 + Seconds(20), 1 + Seconds(30));
    ThreeCalls(Limit(true, 3, 1), 1, 1 + Seconds(20), 1 + Seconds(30));
  }

  lemma ThreeCalls(l: Limit, a: int, b: int, c: int)
    ensures var b0 := After(l, Unused, a, Allows(l, Unused, a));
            var b1 := After(l, b0, b, Allows(l, b0, b));
            Greedy(l, [a, b, c]) == [Allows(l, Unused, a), Allows(l, b0, b), Allows(l, b1, c)]
  {
    HistoryExtends(l, [], a);
    HistoryExtends(l, [a], b);
    HistoryExtends(l, [a, b], c);
    assert [] + [a] == [a] && [a] + [b] == [a, b] && [a, b] + [c] == [a, b, c];
  }

  // ---------------------------------------------------------------------------------------------
  // Denied calls are free
  // ---------------------------------------------------------------------------------------------

  /** Refilling in two pieces under the cap equals refilling once. */
  lemma RefillInPieces(l: Limit, b: Bucket, t1: int, t2: int)
    requires l.rpm >= 0 && t1 <= t2
    requires b.Bucket? ==> b.updated <= t1
    ensures Refilled(l, After(l, b, t1, false), t2) == Refilled(l, b, t2)
  {
    EarnedIsNonNegative(t2 - t1, l.rpm);
  }

  /** No call at time `from` or later can tell the two buckets apart. */
  ghost predicate SameFrom(l: Limit, a: Bucket, b: Bucket, from: int) {
    forall later :: from <= later ==> Refilled(l, a, later) == Refilled(l, b, later)
  }

  lemma ForgetDeniedCall(l: Limit, a: Bucket, b: Bucket, from: int, now: int)
    requires l.rpm >= 0 && from <= now && (b.Bucket? ==> b.updated <= now)
    requires SameFrom(l, a, b, from)
    ensures SameFrom(l, a, After(l, b, now, false), now)
  {
    forall later | now <= later ensures Refilled(l, a, later) == Refilled(l, After(l, b, now, false), later) {
      RefillInPieces(l, b, now, later);
    }
  }

  lemma SameLevelSameOutcome(l: Limit, a: Bucket, b: Bucket, now: int)
    requires Refilled(l, a, now) == Refilled(l, b, now)
    ensures Allows(l, a, now) == Allows(l, b, now)
    ensures forall take :: After(l, a, now, take) == After(l, b, now, take)
  {
  }

  /** The kept calls get the decisions they had, and leave a bucket no later call can tell apart. */
  ghost predicate Unaffected(l: Limit, ts: seq<int>, keep: seq<bool>)
    requires |ts| == |keep|
  {
    && Greedy(l, Kept(ts, keep)) == Kept(Greedy(l, ts), keep)
    && (ts == [] || SameFrom(l, BucketAfter(l, Kept(ts, keep)), BucketAfter(l, ts), ts[|ts| - 1]))
  }

  /** Deleting any set of denied calls from a history leaves every remaining decision unchanged. */
  lemma {:induction false} DeniedCallsAreFree(l: Limit, ts: seq<int>, keep: seq<bool>)
    requires |ts| == |keep| && NonDecreasing(ts) && l.rpm >= 0
    requires forall i :: 0 <= i < |ts| && Greedy(l, ts)[i] ==> keep[i]
    ensures Unaffected(l, ts, keep)
  {
    if ts != [] {
      var n := |ts| - 1;
      GreedyPrefix(l, ts, n);
      DeniedCallsAreFree(l, ts[..n], keep[..n]);
      assert Greedy(l, ts)[n] ==> keep[n];
      if keep[n] {
        KeepCall(l, ts, keep, n);
      } else {
        DropDeniedCall(l, ts, keep, n);
      }
    }
  }

  lemma KeepCall(l: Limit, ts: seq<int>, keep: seq<bool>, n: nat)
    requires |ts| == |keep| == n + 1 && (n > 0 ==> ts[n - 1] <= ts[n])
    requires keep[n] && Unaffected(l, ts[..n], keep[..n])
    ensures Unaffected(l, ts, keep)
  {
    var kept := Kept(ts[..n], keep[..n]);
    KeptExtends(ts, keep);
    KeptExtends(Greedy(l, ts), keep);
    LastCall(l, ts, n);
    assert Greedy(l, ts)[..n] == Greedy(l, ts[..n]);
    HistoryExtends(l, kept, ts[n]);
    SameLevelSameOutcome(l, BucketAfter(l, kept), BucketAfter(l, ts[..n]), ts[n]);
    assert BucketAfter(l, Kept(ts, keep)) == BucketAfter(l, ts);
  }

  lemma DropDeniedCall(l: Limit, ts: seq<int>, keep: seq<bool>, n: nat)
    requires |ts| == |keep| == n + 1 && (n > 0 ==> ts[n - 1] <= ts[n]) && l.rpm >= 0
    requires !keep[n] && !Greedy(l, ts)[n] && Unaffected(l, ts[..n], keep[..n])
    ensures Unaffected(l, ts, keep)
  {
    KeptExtends(ts, keep);
    KeptExtends(Greedy(l, ts), keep);
    LastCall(l, ts, n);
    assert Greedy(l, ts)[..n] == Greedy(l, ts[..n]);
    ForgetDeniedCall(l, BucketAfter(l, Kept(ts[..n], keep[..n])), BucketAfter(l, ts[..n]),
                     if n == 0 then ts[n] else ts[n - 1], ts[n]);
  }

  // ---------------------------------------------------------------------------------------------
  // The retry hint
  // ---------------------------------------------------------------------------------------------

  /** Whole seconds, truncated, until a level of `tokens` reaches one token; at least 1. */
  function RetryAfterSeconds(rpm: int, tokens: int): (seconds: int)
    ensures seconds >= 1
    ensures rpm <= 0 ==> seconds == 60
  {
    if rpm <= 0 then 60
    else
      var seconds := (TOKEN - tokens) / (Seconds(rpm));
      if seconds < 1 then 1 else seconds
  }

  /** What truncation does to the quotient `need / rate`, clamped at 1. */
  lemma TruncationFacts(need: int, rate: int, hint: int)
    requires rate > 0 && need > 0
    requires hint == if need / rate < 1 then 1 else need / rate
    ensures hint == 1 || hint * rate <= need
    ensures need < (hint + 1) * rate
    ensures hint * rate >= need <==> need % rate == 0 || need < rate
  {
    var q := need / rate;
    assert need == q * rate + need % rate;
    assert (q + 1) * rate == q * rate + rate;
    if q < 1 {
      assert q == 0;
    }
  }

  /**
   The hint is never longer than one second or the time really needed, whichever is more, and never a
   whole second shorter.
   */
  lemma RetryHintNotTooLong(l: Limit, tokens: int)
    requires l.rpm >= 1 && tokens < TOKEN
    ensures var hint := RetryAfterSeconds(l.rpm, tokens);
            && (hint == 1 || Seconds(hint) * l.rpm <= TOKEN - tokens)
            && TOKEN - tokens < Seconds(hint + 1) * l.rpm
  {
    var hint := RetryAfterSeconds(l.rpm, tokens);
    TruncationFacts(TOKEN - tokens, Seconds(l.rpm), hint);
    SecondsCommute(hint, l.rpm);
    SecondsCommute(hint + 1, l.rpm);
  }

  lemma SecondsCommute(n: int, rpm: int)
    ensures Seconds(n) * rpm == n * Seconds(rpm)
  {
  }

  /** From a denied call on, a later call is admitted exactly when the missing tokens are earned. */
  lemma AdmittedAfterWait(l: Limit, b: Bucket, now: int, later: int)
    requires l.burst >= 1
    ensures Allows(l, After(l, b, now, false), later)
       <==> Refilled(l, b, now) + (later - now) * l.rpm >= TOKEN
  {
  }

  /**
   Waiting exactly the hinted time is enough exactly when truncation lost nothing: the missing
   tokens are a whole number of seconds' worth, or less than one second's worth.
   */
  lemma RetryHintSufficesExactlyWhen(l: Limit, b: Bucket, now: int)
    requires l.rpm >= 1 && l.burst >= 1 && !Allows(l, b, now)
    ensures var level := Refilled(l, b, now);
            Allows(l, After(l, b, now, false), now + Seconds(RetryAfterSeconds(l.rpm, level)))
            <==> (TOKEN - level) % Seconds(l.rpm) == 0 || TOKEN - level < Seconds(l.rpm)
  {
    var level := Refilled(l, b, now);
    var hint := RetryAfterSeconds(l.rpm, level);
    TruncationFacts(TOKEN - level, Seconds(l.rpm), hint);
    SecondsCommute(hint, l.rpm);
    AdmittedAfterWait(l, b, now, now + Seconds(hint));
  }

  /** The hint alone may fall short: seven a minute, denied, and denied again after the hint. */
  lemma RetryHintMayFallShort()
    ensures RetryAfterSeconds(7, 0) == 8
    ensures Greedy(Limit(true, 7, 1), [1, 1, 1 + Seconds(8)]) == [true, false, false]
  {
    ThreeCalls(Limit(true, 7, 1), 1, 1, 1 + Seconds(8));
  }

  /** While no call is admitted, the denied ones in between change nothing for a later call. */
  lemma {:induction false} DeniedStretch(l: Limit, ts: seq<int>, i: nat, j: nat, later: int)
    requires NonDecreasing(ts) && l.rpm >= 0
    requires i < j <= |ts| && ts[j - 1] <= later
    requires forall m :: i < m < j ==> !Greedy(l, ts)[m]
    ensures Refilled(l, BucketAfter(l, ts[..j]), later) == Refilled(l, BucketAfter(l, ts[..i + 1]), later)
    decreases j
  {
    if j > i + 1 {
      var n := j - 1;
      DeniedStretch(l, ts, i, n, later);
      DecisionAt(l, ts, n);
      RefillInPieces(l, BucketAfter(l, ts[..n]), ts[n], later);
    }
  }

  /** One second more than the hint has passed since the bucket was last touched. */
  predicate HintPlusOneElapsed(l: Limit, b: Bucket, now: int)
    requires b.Bucket?
  {
    now >= b.updated + Seconds(RetryAfterSeconds(l.rpm, b.tokens) + 1)
  }

  /** One second more than the hint always suffices, for a single waiting call. */
  lemma HintPlusOneIsEnough(l: Limit, b: Bucket, now: int)
    requires l.rpm >= 1 && l.burst >= 1 && b.Bucket? && b.tokens < TOKEN
    requires HintPlusOneElapsed(l, b, now)
    ensures Allows(l, b, now)
  {
    var hint := RetryAfterSeconds(l.rpm, b.tokens);
    TruncationFacts(TOKEN - b.tokens, Seconds(l.rpm), hint);
    SecondsCommute(hint + 1, l.rpm);
    EarnedIsMonotone(l.rpm, Seconds(hint + 1), now - b.updated);
    assert b.tokens + (now - b.updated) * l.rpm >= TOKEN;
  }

  /**
   With one second added to the hint, the next call is admitted, whatever denied calls lie
   between. The clock must not go back.
   */
  lemma RetryHintPlusOneSuffices(l: Limit, ts: seq<int>, i: nat, j: nat)
    requires NonDecreasing(ts) && l.rpm >= 1 && l.burst >= 1
    requires i < j < |ts|
    requires forall m :: i <= m < j ==> !Greedy(l, ts)[m]
    requires HintPlusOneElapsed(l, BucketAfter(l, ts[..i + 1]), ts[j])
    ensures Greedy(l, ts)[j]
  {
    assert BucketAfter(l, ts[..i + 1]).tokens < TOKEN by {
      DecisionAt(l, ts, i);
    }
    assert Allows(l, BucketAfter(l, ts[..i + 1]), ts[j]) by {
      HintPlusOneIsEnough(l, BucketAfter(l, ts[..i + 1]), ts[j]);
    }
    assert Allows(l, BucketAfter(l, ts[..j]), ts[j]) by {
      DeniedStretch(l, ts, i, j, ts[j]);
    }
    DecisionAt(l, ts, j);
  }

  // ---------------------------------------------------------------------------------------------
  // Liveness
  // ---------------------------------------------------------------------------------------------

  /** After a call history `ts`, a call at any time from `later` on is admitted. */
  ghost predicate AdmittedFrom(l: Limit, ts: seq<int>, later: int) {
    forall t :: t >= later ==> Allows(l, BucketAfter(l, ts), t)
  }

  /** From every reachable state, a finite wait is enough for the next call to be admitted. */
  ghost predicate AlwaysRecovers(l: Limit) {
    forall ts :: NonDecreasing(ts) ==> exists later :: AdmittedFrom(l, ts, later)
  }

  lemma RecoversWhenLive(l: Limit, ts: seq<int>) returns (later: int)
    requires l.rpm >= 1 && l.burst >= 1
    ensures AdmittedFrom(l, ts, later)
  {
    var b := BucketAfter(l, ts);
    if b.Unused? {
      later := 0;
    } else {
      later := b.updated + (if b.tokens < TOKEN then TOKEN - b.tokens else 0);
      forall t | t >= later ensures Allows(l, b, t) {
        EarnedIsMonotone(t - b.updated, 1, l.rpm);
      }
    }
  }

  /** `n` calls in one instant empty a bucket of capacity `n`. */
  lemma {:induction false} DrainInOneInstant(l: Limit, n: nat)
    requires n <= l.burst
    ensures var ts := seq(n, _ => 1);
            NonDecreasing(ts) && (n > 0 ==> BucketAfter(l, ts) == Bucket(Tokens(l.burst - n), 1))
  {
    if n > 0 {
      DrainInOneInstant(l, n - 1);
      var ts := seq(n, _ => 1);
      assert ts[..n - 1] == seq(n - 1, _ => 1);
      LastCall(l, ts, n - 1);
    }
  }

  /** A limit always recovers exactly when it earns tokens and can hold a whole one. */
  lemma RecoversIffLive(l: Limit)
    requires l.rpm >= 0 && l.burst >= 0
    ensures AlwaysRecovers(l) <==> l.rpm >= 1 && l.burst >= 1
  {
    if l.rpm >= 1 && l.burst >= 1 {
      forall ts | NonDecreasing(ts) ensures exists later :: AdmittedFrom(l, ts, later) {
        var later := RecoversWhenLive(l, ts);
      }
    } else {
      var ts := seq(l.burst, _ => 1);
      DrainInOneInstant(l, l.burst);
      forall later ensures !AdmittedFrom(l, ts, later) {
        assert !Allows(l, BucketAfter(l, ts), later);
      }
    }
  }
}
