/** The most calls a token bucket can pass in a stretch of time, whatever the calls and whatever the clock. */
module Saturation {
  import opened TokenBucket

  function Min(a: int, b: int): int {
    if a < b then a else b
  }

  // ---------------------------------------------------------------------------------------------
  // A bucket that is drained at every nanosecond
  // ---------------------------------------------------------------------------------------------

  /** What a saturated bucket has passed, and the fraction of a token left in it. */
  datatype Drained = Drained(passes: int, left: int)

  /** The whole tokens in a level. */
  function Whole(level: int): nat
    decreases if level < TOKEN then 0 else level
  {
    if level < TOKEN then 0 else 1 + Whole(level - TOKEN)
  }

  lemma {:induction false} WholeLeavesAFraction(level: int)
    requires level >= 0
    ensures 0 <= level - Tokens(Whole(level)) < TOKEN
    decreases level
  {
    if level >= TOKEN {
      WholeLeavesAFraction(level - TOKEN);
    }
  }

  /** The level one nanosecond after the bucket was drained. */
  function Level(l: Limit, d: Drained): int {
    Min(Capacity(l), d.left + l.rpm)
  }

  function DrainedNext(l: Limit, d: Drained): Drained {
    Drained(d.passes + Whole(Level(l, d)), Level(l, d) - Tokens(Whole(Level(l, d))))
  }

  /** Starting full, every whole token is spent as soon as it is there. */
  function Saturated(l: Limit, w: nat): Drained {
    if w == 0 then Drained(l.burst, 0) else DrainedNext(l, Saturated(l, w - 1))
  }

  /** The most calls that can pass within `w` nanoseconds of the first one. */
  function MostPassed(l: Limit, w: nat): int {
    Saturated(l, w).passes
  }

  /** All the tokens a saturated bucket has seen. */
  function Worth(l: Limit, w: nat): int {
    Tokens(Saturated(l, w).passes) + Saturated(l, w).left
  }

  ghost predicate Sound(l: Limit) {
    l.rpm >= 0 && l.burst >= 0
  }

  lemma NextIsAFraction(l: Limit, d: Drained)
    requires Sound(l) && 0 <= d.left
    ensures 0 <= DrainedNext(l, d).left < TOKEN && DrainedNext(l, d).left <= Capacity(l)
  {
    WholeLeavesAFraction(Level(l, d));
  }

  lemma {:induction false} LeftIsAFraction(l: Limit, w: nat)
    requires Sound(l)
    ensures 0 <= Saturated(l, w).left < TOKEN && Saturated(l, w).left <= Capacity(l)
  {
    if w > 0 {
      LeftIsAFraction(l, w - 1);
      NextIsAFraction(l, Saturated(l, w - 1));
    }
  }

  lemma SaturatedNext(l: Limit, w: nat, w': nat)
    requires w' == w + 1
    ensures Saturated(l, w') == DrainedNext(l, Saturated(l, w))
  {
  }

  /** One nanosecond's refill, and what is spent of it. */
  lemma SaturatedStep(l: Limit, w: nat, w': nat)
    requires w' == w + 1
    ensures Saturated(l, w').passes >= Saturated(l, w).passes
    ensures Worth(l, w') == Tokens(Saturated(l, w).passes) + Level(l, Saturated(l, w))
  {
    SaturatedNext(l, w, w');
  }

  lemma {:induction false} MostPassedGrows(l: Limit, w: nat, more: nat)
    requires Sound(l) && w <= more
    ensures MostPassed(l, w) <= MostPassed(l, more)
    decreases more - w
  {
    if w < more {
      SaturatedStep(l, w, w + 1);
      MostPassedGrows(l, w + 1, more);
    }
  }

  // ---------------------------------------------------------------------------------------------
  // No history passes more
  // ---------------------------------------------------------------------------------------------

  /** One nanosecond more favours the bucket that has passed more and is worth more. */
  lemma OneNanosecond(l: Limit, w: nat, c: int, level: int, w': nat)
    requires Sound(l) && c <= Saturated(l, w).passes && Tokens(c) + level <= Worth(l, w) && w' == w + 1
    ensures Tokens(c) + Min(Capacity(l), level + l.rpm) <= Worth(l, w') && c <= Saturated(l, w').passes
  {
    SaturatedStep(l, w, w');
  }

  lemma OneNanosecondMore(x: nat, rpm: int)
    requires x > 0
    ensures x * rpm == (x - 1) * rpm + rpm
  {
  }

  lemma {:induction false} Later(l: Limit, w: nat, c: int, level: int, x: nat, w': nat)
    requires Sound(l) && c <= Saturated(l, w).passes && Tokens(c) + level <= Worth(l, w) && w' == w + x
    ensures c <= Saturated(l, w').passes && Tokens(c) + Min(Capacity(l), level + x * l.rpm) <= Worth(l, w')
  {
    if x > 0 {
      Later(l, w, c, level, x - 1, w' - 1);
      OneNanosecondMore(x, l.rpm);
      OneNanosecond(l, w' - 1, c, Min(Capacity(l), level + (x - 1) * l.rpm), w');
    }
  }

  /**
   A bucket that has passed `c` calls is behind the one saturated for `w` nanoseconds: it has passed
   no more, and is worth no more even with all it could earn up to the latest time seen.
   */
  ghost predicate Behind(l: Limit, b: Bucket, c: int, latest: int, w: nat) {
    && b.Bucket? && b.updated <= latest
    && c <= Saturated(l, w).passes
    && Tokens(c) + b.tokens + (latest - b.updated) * l.rpm <= Worth(l, w)
  }

  /** A call while the clock is at or behind the latest time. */
  lemma CallBefore(l: Limit, b: Bucket, c: int, latest: int, w: nat, now: int, take: bool)
    requires Sound(l) && Behind(l, b, c, latest, w) && now <= latest && take == Allows(l, b, now)
    ensures Behind(l, After(l, b, now, take), c + (if take then 1 else 0), latest, w)
  {
    EarnedSplits(b.updated, now, latest, l.rpm);
    EarnedIsNonNegative(latest - now, l.rpm);
    LeftIsAFraction(l, w);
  }

  /** Letting time pass without a call. */
  lemma TimePasses(l: Limit, b: Bucket, c: int, latest: int, w: nat, now: int, w': nat)
    requires Sound(l) && Behind(l, b, c, latest, w) && latest <= now && w' == w + (now - latest)
    ensures Tokens(c) + Refilled(l, b, now) <= Worth(l, w') && c <= Saturated(l, w').passes
  {
    EarnedSplits(b.updated, latest, now, l.rpm);
    Later(l, w, c, b.tokens + (latest - b.updated) * l.rpm, now - latest, w');
  }

  lemma CallAfter(l: Limit, b: Bucket, c: int, latest: int, w: nat, now: int, w': nat, take: bool)
    requires Sound(l) && Behind(l, b, c, latest, w) && latest <= now && w' == w + (now - latest) && take == Allows(l, b, now)
    ensures Behind(l, After(l, b, now, take), c + (if take then 1 else 0), now, w')
  {
    TimePasses(l, b, c, latest, w, now, w');
    LeftIsAFraction(l, w');
    assert (now - now) * l.rpm == 0;
  }

  lemma FirstCall(l: Limit, b: Bucket, now: int, take: bool)
    requires Sound(l) && take == Allows(l, b, now)
    ensures Behind(l, After(l, b, now, take), if take then 1 else 0, now, 0)
  {
    assert (now - now) * l.rpm == 0;
  }

  ghost predicate AllWithin(ts: seq<int>, i: nat, lo: int, hi: int) {
    forall k :: i <= k < |ts| ==> lo <= ts[k] <= hi
  }

  /** How many of the calls from the `i`th on pass. */
  function PassedFrom(l: Limit, ts: seq<int>, i: nat): nat
    requires i <= |ts|
  {
    Count(Greedy(l, ts)[i..])
  }

  lemma PassedExtends(l: Limit, ts: seq<int>, n: nat, i: nat)
    requires |ts| == n + 1 && i <= n
    ensures var take := Allows(l, BucketAfter(l, ts[..n]), ts[n]);
            && BucketAfter(l, ts) == After(l, BucketAfter(l, ts[..n]), ts[n], take)
            && PassedFrom(l, ts, i) == PassedFrom(l, ts[..n], i) + (if take then 1 else 0)
  {
    LastCall(l, ts, n);
    WindowExtends(Greedy(l, ts), i);
    assert Greedy(l, ts)[..n] == Greedy(l, ts[..n]);
  }

  /** The calls from the `i`th on, the latest of them within `w` nanoseconds of it, have left the bucket behind. */
  ghost predicate LeftBehind(l: Limit, ts: seq<int>, i: nat, hi: int)
    requires i < |ts|
  {
    exists latest, w: nat :: latest == ts[i] + w && latest <= hi && Behind(l, BucketAfter(l, ts), PassedFrom(l, ts, i), latest, w)
  }

  lemma FirstLeavesBehind(l: Limit, ts: seq<int>, n: nat, hi: int)
    requires Sound(l) && |ts| == n + 1 && ts[n] <= hi
    ensures LeftBehind(l, ts, n, hi)
  {
    PassedExtends(l, ts, n, n);
    assert PassedFrom(l, ts[..n], n) == 0;
    var b := BucketAfter(l, ts[..n]);
    FirstCall(l, b, ts[n], Allows(l, b, ts[n]));
    assert Behind(l, BucketAfter(l, ts), PassedFrom(l, ts, n), ts[n], 0);
  }

  lemma NextLeavesBehind(l: Limit, ts: seq<int>, n: nat, i: nat, hi: int)
    requires Sound(l) && i < n && |ts| == n + 1 && LeftBehind(l, ts[..n], i, hi) && ts[n] <= hi
    ensures LeftBehind(l, ts, i, hi)
  {
    var b, c, now := BucketAfter(l, ts[..n]), PassedFrom(l, ts[..n], i), ts[n];
    var latest, w: nat :| latest == ts[..n][i] + w && latest <= hi && Behind(l, b, c, latest, w);
    PassedExtends(l, ts, n, i);
    var take := Allows(l, b, now);
    if now <= latest {
      CallBefore(l, b, c, latest, w, now, take);
    } else {
      CallAfter(l, b, c, latest, w, now, w + (now - latest), take);
    }
  }

  lemma {:induction false} StaysBehind(l: Limit, ts: seq<int>, i: nat, lo: int, hi: int)
    requires Sound(l) && i < |ts| && AllWithin(ts, i, lo, hi)
    ensures LeftBehind(l, ts, i, hi)
  {
    var n := |ts| - 1;
    if i == n {
      FirstLeavesBehind(l, ts, n, hi);
    } else {
      StaysBehind(l, ts[..n], i, lo, hi);
      NextLeavesBehind(l, ts, n, i, hi);
    }
  }

  lemma BehindHasPassedNoMore(l: Limit, ts: seq<int>, i: nat, hi: int, x: nat)
    requires Sound(l) && i < |ts| && LeftBehind(l, ts, i, hi) && x == hi - ts[i]
    ensures PassedFrom(l, ts, i) <= MostPassed(l, x)
  {
    var latest, w: nat :| latest == ts[i] + w && latest <= hi && Behind(l, BucketAfter(l, ts), PassedFrom(l, ts, i), latest, w);
    MostPassedGrows(l, w, x);
  }

  /** Of the calls from the `i`th on, if all come within `w` nanoseconds, at most `MostPassed` pass. Any clock. */
  lemma WindowPassesAtMost(l: Limit, ts: seq<int>, i: nat, lo: int, w: nat)
    requires Sound(l) && i <= |ts| && AllWithin(ts, i, lo, lo + w)
    ensures PassedFrom(l, ts, i) <= MostPassed(l, w)
  {
    if i == |ts| {
      assert PassedFrom(l, ts, i) == 0;
      MostPassedGrows(l, 0, w);
    } else {
      var x := lo + w - ts[i];
      StaysBehind(l, ts, i, lo, lo + w);
      BehindHasPassedNoMore(l, ts, i, lo + w, x);
      MostPassedGrows(l, x, w);
    }
  }

  // ---------------------------------------------------------------------------------------------
  // Some history passes that many
  // ---------------------------------------------------------------------------------------------

  /** `n` calls at one moment. */
  function AtOnce(n: nat, now: int): (ts: seq<int>)
    ensures |ts| == n && forall k :: 0 <= k < n ==> ts[k] == now
  {
    seq(n, _ => now)
  }

  /** From time `at` on, the bucket refills from `level`. */
  ghost predicate RefillsFrom(l: Limit, b: Bucket, at: int, level: int) {
    forall t :: at <= t ==> Refilled(l, b, t) == Min(Capacity(l), level + (t - at) * l.rpm)
  }

  ghost predicate AllPass(l: Limit, ts: seq<int>) {
    forall k :: 0 <= k < |ts| ==> Greedy(l, ts)[k]
  }

  lemma OneMorePasses(l: Limit, ts: seq<int>, now: int, level: int, left: int)
    requires Sound(l) && AllPass(l, ts) && RefillsFrom(l, BucketAfter(l, ts), now, level)
    requires 0 <= left && level == left + TOKEN <= Capacity(l)
    ensures AllPass(l, ts + [now]) && RefillsFrom(l, BucketAfter(l, ts + [now]), now, left)
  {
    HistoryExtends(l, ts, now);
    assert (now - now) * l.rpm == 0;
    assert Refilled(l, BucketAfter(l, ts), now) == level;
  }

  lemma {:induction false} ManyPass(l: Limit, ts: seq<int>, now: int, level: int, n: nat, left: int)
    requires Sound(l) && AllPass(l, ts) && RefillsFrom(l, BucketAfter(l, ts), now, level)
    requires 0 <= left && level <= Capacity(l) && level == left + Tokens(n)
    ensures AllPass(l, ts + AtOnce(n, now)) && RefillsFrom(l, BucketAfter(l, ts + AtOnce(n, now)), now, left)
  {
    if n == 0 {
      assert ts + AtOnce(0, now) == ts;
    } else {
      assert ts + AtOnce(n - 1, now) + [now] == ts + AtOnce(n, now);
      ManyPass(l, ts, now, level, n - 1, left + TOKEN);
      OneMorePasses(l, ts + AtOnce(n - 1, now), now, left + TOKEN, left);
    }
  }

  /** The level one nanosecond later. */
  lemma RefillsOn(l: Limit, b: Bucket, at: int, level: int, at': int, level': int)
    requires Sound(l) && RefillsFrom(l, b, at, level) && at' == at + 1 && level' == Min(Capacity(l), level + l.rpm)
    ensures RefillsFrom(l, b, at', level')
  {
    forall t | at' <= t ensures Refilled(l, b, t) == Min(Capacity(l), level' + (t - at') * l.rpm) {
      EarnedSplits(at, at', t, l.rpm);
      EarnedIsNonNegative(t - at', l.rpm);
    }
  }

  /** The schedule up to time `at` passes in full and leaves the bucket as the saturated one. */
  ghost predicate OnSchedule(l: Limit, ts: seq<int>, lo: int, w: nat, at: int) {
    && at == lo + w && |ts| == MostPassed(l, w) && AllWithin(ts, 0, lo, at) && AllPass(l, ts)
    && RefillsFrom(l, BucketAfter(l, ts), at, Saturated(l, w).left)
  }

  lemma ScheduleStarts(l: Limit, lo: int)
    requires Sound(l)
    ensures OnSchedule(l, AtOnce(l.burst, lo), lo, 0, lo)
  {
    FullAtFirst(l, lo);
    ManyPass(l, [], lo, Capacity(l), l.burst, 0);
    assert [] + AtOnce(l.burst, lo) == AtOnce(l.burst, lo);
  }

  lemma StillWithin(ts: seq<int>, n: nat, lo: int, at: int, at': int)
    requires AllWithin(ts, 0, lo, at) && lo <= at <= at'
    ensures AllWithin(ts + AtOnce(n, at'), 0, lo, at')
  {
  }

  /** One nanosecond on, one call for every token that is now whole. */
  lemma ScheduleGoesOn(l: Limit, ts: seq<int>, lo: int, w: nat, at: int, w': nat, at': int) returns (ts': seq<int>)
    requires Sound(l) && OnSchedule(l, ts, lo, w, at) && w' == w + 1 && at' == at + 1
    ensures OnSchedule(l, ts', lo, w', at')
  {
    var level := Level(l, Saturated(l, w));
    var n := Whole(level);
    ts' := ts + AtOnce(n, at');
    SaturatedNext(l, w, w');
    LeftIsAFraction(l, w');
    StillWithin(ts, n, lo, at, at');
    RefillsOn(l, BucketAfter(l, ts), at, Saturated(l, w).left, at', level);
    ManyPass(l, ts, at', level, n, Saturated(l, w').left);
  }

  /** A schedule on which as many calls pass as in a saturated bucket. */
  lemma {:induction false} SomeSchedule(l: Limit, lo: int, w: nat, at: int) returns (ts: seq<int>)
    requires Sound(l) && at == lo + w
    ensures OnSchedule(l, ts, lo, w, at)
  {
    if w == 0 {
      ts := AtOnce(l.burst, lo);
      ScheduleStarts(l, lo);
    } else {
      ts := SomeSchedule(l, lo, w - 1, at - 1);
      ts := ScheduleGoesOn(l, ts, lo, w - 1, at - 1, w, at);
    }
  }

  lemma FullAtFirst(l: Limit, lo: int)
    requires Sound(l)
    ensures RefillsFrom(l, BucketAfter(l, []), lo, Capacity(l))
  {
    forall t | lo <= t ensures Refilled(l, BucketAfter(l, []), t) == Min(Capacity(l), Capacity(l) + (t - lo) * l.rpm) {
      EarnedIsNonNegative(t - lo, l.rpm);
    }
  }

  ghost predicate CanPass(l: Limit, n: nat, lo: int, w: nat) {
    exists ts :: AllWithin(ts, 0, lo, lo + w) && Count(Greedy(l, ts)) >= n
  }

  lemma {:induction false} CountOfAll(picks: seq<bool>)
    requires forall k :: 0 <= k < |picks| ==> picks[k]
    ensures Count(picks) == |picks|
  {
    if picks != [] {
      CountOfAll(picks[..|picks| - 1]);
    }
  }

  /** Exactly how many calls can pass within `w` nanoseconds, over all call patterns and all clocks. */
  lemma CanPassExactlyWhen(l: Limit, n: nat, lo: int, w: nat)
    requires Sound(l)
    ensures CanPass(l, n, lo, w) <==> n <= MostPassed(l, w)
  {
    if CanPass(l, n, lo, w) {
      var ts :| AllWithin(ts, 0, lo, lo + w) && Count(Greedy(l, ts)) >= n;
      WindowPassesAtMost(l, ts, 0, lo, w);
      assert Greedy(l, ts)[0..] == Greedy(l, ts);
    }
    if n <= MostPassed(l, w) {
      var ts := SomeSchedule(l, lo, w, lo + w);
      CountOfAll(Greedy(l, ts));
    }
  }

  // ---------------------------------------------------------------------------------------------
  // In closed form
  // ---------------------------------------------------------------------------------------------

  /** Never more than the envelope; and exactly the envelope where the cap never cuts a refill. */
  lemma {:induction false} MostPassedFitsEnvelope(l: Limit, w: nat)
    requires Sound(l)
    ensures Tokens(MostPassed(l, w)) <= Worth(l, w) <= Capacity(l) + w * l.rpm
    ensures l.rpm <= Tokens(l.burst - 1) ==> Worth(l, w) == Capacity(l) + w * l.rpm
  {
    LeftIsAFraction(l, w);
    if w > 0 {
      MostPassedFitsEnvelope(l, w - 1);
      LeftIsAFraction(l, w - 1);
      SaturatedStep(l, w - 1, w);
      OneNanosecondMore(w, l.rpm);
    }
  }

  lemma MostPassedInTokens(l: Limit, w: nat)
    requires Sound(l) && l.rpm <= Tokens(l.burst - 1)
    ensures MostPassed(l, w) == l.burst + w * l.rpm / TOKEN
  {
    MostPassedFitsEnvelope(l, w);
    LeftIsAFraction(l, w);
  }

  lemma OneTokenStep(l: Limit, passes: int, left: int)
    requires l.burst == 1
    ensures DrainedNext(l, Drained(passes, left))
         == if left + l.rpm < TOKEN then Drained(passes, left + l.rpm) else Drained(passes + 1, 0)
  {
    assert Whole(TOKEN) == 1;
  }

  /** Until the next token is whole, what is earned adds up. */
  lemma {:induction false} BetweenTokens(l: Limit, w: nat, passes: int, b: nat, w': nat)
    requires l.burst == 1 && 1 <= l.rpm && b * l.rpm < TOKEN
    requires Saturated(l, w) == Drained(passes, 0) && w' == w + b
    ensures Saturated(l, w') == Drained(passes, b * l.rpm)
  {
    if b > 0 {
      OneNanosecondMore(b, l.rpm);
      BetweenTokens(l, w, passes, b - 1, w' - 1);
      OneTokenStep(l, passes, (b - 1) * l.rpm);
      SaturatedNext(l, w' - 1, w');
    }
  }

  /** With a burst of one, a token takes `q` nanoseconds, and what is earned beyond it is cut off. */
  lemma {:induction false} TokenByToken(l: Limit, q: nat, a: nat, w: nat)
    requires l.burst == 1 && 1 <= l.rpm && 1 <= q && (q - 1) * l.rpm < TOKEN <= q * l.rpm && w == a * q
    ensures Saturated(l, w) == Drained(1 + a, 0)
  {
    if a > 0 {
      assert a * q == (a - 1) * q + q;
      TokenByToken(l, q, a - 1, w - q);
      BetweenTokens(l, w - q, a, q - 1, w - 1);
      OneNanosecondMore(q, l.rpm);
      OneTokenStep(l, a, (q - 1) * l.rpm);
      SaturatedNext(l, w - 1, w);
    }
  }

  lemma RoundedUp(n: nat, d: nat) returns (q: nat)
    requires n >= 1 && d >= 1
    ensures q == (n + d - 1) / d && q >= 1 && (q - 1) * d < n <= q * d
  {
    q := (n + d - 1) / d;
    assert n + d - 1 == q * d + (n + d - 1) % d;
    assert (q - 1) * d == q * d - d;
    assert q * d >= n;
  }

  lemma MostPassedOneAtATime(l: Limit, w: nat)
    requires l.burst == 1 && 1 <= l.rpm
    ensures MostPassed(l, w) == 1 + w / ((TOKEN + l.rpm - 1) / l.rpm)
  {
    var q := RoundedUp(TOKEN, l.rpm);
    var a, b := w / q, w % q;
    assert w == a * q + b;
    TokenByToken(l, q, a, w - b);
    EarnedIsMonotone(l.rpm, b, q - 1);
    BetweenTokens(l, w - b, 1 + a, b, w);
  }
}
