/** One run of the migrator, step by step: the loop over the list, its transactions, and what reruns come to. */
module MigrationRuns {
  import opened Wrappers
  import opened Migrations

  datatype Row = Row(namespace: string, version: int)

  datatype Tables<S> = Tables(rows: seq<Row>, schema: S)

  function VersionsOf(rows: seq<Row>, namespace: string): seq<int> {
    if rows == [] then []
    else
      var last := rows[|rows| - 1];
      VersionsOf(rows[..|rows| - 1], namespace) + (if last.namespace == namespace then [last.version] else [])
  }

  lemma {:induction false} RecordedMeansRow(rows: seq<Row>, namespace: string, v: int)
    ensures v in VersionsOf(rows, namespace) <==> Row(namespace, v) in rows
  {
    if rows != [] {
      RecordedMeansRow(rows[..|rows| - 1], namespace, v);
    }
  }

  /** Where the infrastructure fails: before a transaction starts, or when it commits. */
  datatype Fault = NoFault | BeginFails | CommitFails

  /** One migration as a transaction; the key on (namespace, version) refuses a second row. */
  function Transact<S>(namespace: string, m: Migration<S>, fault: Fault, t: Tables<S>): (r: (bool, Tables<S>)) {
    var row := Row(namespace, m.version);
    if fault.NoFault? && m.apply(t.schema).Some? && row !in t.rows
    then (true, Tables(t.rows + [row], m.apply(t.schema).value))
    else (false, t)
  }

  /** The loop over the list from position `i`, given the versions seen at the start. */
  function RunFrom<S>(namespace: string, ms: seq<Migration<S>>, faults: seq<Fault>, applied: set<int>, i: nat, t: Tables<S>)
    : (r: (bool, Tables<S>))
    requires i <= |ms| == |faults|
    decreases |ms| - i
  {
    if i == |ms| then (true, t)
    else if ms[i].version in applied then RunFrom(namespace, ms, faults, applied, i + 1, t)
    else
      var (ok, after) := Transact(namespace, ms[i], faults[i], t);
      if ok then RunFrom(namespace, ms, faults, applied, i + 1, after) else (false, after)
  }

  /** A whole run of the migrator against the tables as they are. */
  function RunAll<S>(namespace: string, ms: seq<Migration<S>>, faults: seq<Fault>, t: Tables<S>): (bool, Tables<S>)
    requires |ms| == |faults|
  {
    RunFrom(namespace, ms, faults, SetOf(VersionsOf(t.rows, namespace)), 0, t)
  }

  lemma {:induction false} FoldFront<S>(ms: seq<Migration<S>>, s: S)
    requires ms != []
    ensures Fold(ms, s) == match ms[0].apply(s) case None => None case Some(mid) => Fold(ms[1..], mid)
  {
    if |ms| > 1 {
      FoldFront(ms[..|ms| - 1], s);
      assert ms[1..][..|ms[1..]| - 1] == ms[..|ms| - 1][1..];
    } else {
      assert ms[..0] == [] && ms[1..] == [];
    }
  }

  lemma VersionRowAdded(rows: seq<Row>, row: Row, namespace: string)
    ensures VersionsOf(rows + [row], namespace)
         == VersionsOf(rows, namespace) + (if row.namespace == namespace then [row.version] else [])
  {
    assert (rows + [row])[..|rows|] == rows;
  }

  /** What a run leaves behind when `n` migrations were applied before it reached position `i`. */
  ghost predicate Advanced<S>(namespace: string, ms: seq<Migration<S>>, t: Tables<S>, n: nat, t': Tables<S>, n': nat) {
    && n <= n' <= |ms|
    && VersionsOf(t'.rows, namespace) == Versions(ms[..n'])
    && Fold(ms[n..n'], t.schema) == Some(t'.schema)
    && forall other :: other != namespace ==> VersionsOf(t'.rows, other) == VersionsOf(t.rows, other)
  }

  lemma AdvanceOne<S>(namespace: string, ms: seq<Migration<S>>, n: nat, t: Tables<S>, t1: Tables<S>, t2: Tables<S>, n': nat)
    requires n < |ms| && VersionsOf(t.rows, namespace) == Versions(ms[..n])
    requires t1.rows == t.rows + [Row(namespace, ms[n].version)] && ms[n].apply(t.schema) == Some(t1.schema)
    requires Advanced(namespace, ms, t1, n + 1, t2, n')
    ensures Advanced(namespace, ms, t, n, t2, n')
  {
    FoldFront(ms[n..n'], t.schema);
    assert ms[n..n'][1..] == ms[n + 1..n'];
    forall other | other != namespace ensures VersionsOf(t2.rows, other) == VersionsOf(t.rows, other) {
      VersionRowAdded(t.rows, Row(namespace, ms[n].version), other);
    }
  }

  // ---------------------------------------------------------------------------------------------
  // First occurrences
  // ---------------------------------------------------------------------------------------------

  /** The entries whose version is not listed earlier. */
  function Firsts<S>(ms: seq<Migration<S>>): (firsts: seq<Migration<S>>)
    ensures |firsts| <= |ms|
  {
    if ms == [] then []
    else
      var n := |ms| - 1;
      Firsts(ms[..n]) + (if ms[n].version in Versions(ms[..n]) then [] else [ms[n]])
  }

  lemma DistinctAppend(vs: seq<int>, v: int)
    ensures Distinct(vs + [v]) <==> Distinct(vs) && v !in vs
  {
    var more := vs + [v];
    assert more[|vs|] == v && forall i :: 0 <= i < |vs| ==> more[i] == vs[i];
    if Distinct(more) {
      forall i, j | 0 <= i < j < |vs| ensures vs[i] != vs[j] { assert more[i] != more[j]; }
      forall i | 0 <= i < |vs| ensures vs[i] != v { assert more[i] != more[|vs|]; }
    }
  }

  /** Every listed version has exactly one first occurrence. */
  lemma {:induction false} FirstsCover<S>(ms: seq<Migration<S>>)
    ensures forall v :: v in Versions(ms) <==> v in Versions(Firsts(ms))
    ensures Distinct(Versions(Firsts(ms)))
  {
    if ms != [] {
      var n := |ms| - 1;
      var before := ms[..n];
      FirstsCover(before);
      assert Versions(ms) == Versions(before) + [ms[n].version];
      if ms[n].version !in Versions(before) {
        assert Versions(Firsts(ms)) == Versions(Firsts(before)) + [ms[n].version];
        DistinctAppend(Versions(Firsts(before)), ms[n].version);
      } else {
        assert Firsts(ms) == Firsts(before);
      }
    }
  }

  lemma {:induction false} FirstsArePrefix<S>(ms: seq<Migration<S>>, i: nat)
    requires i <= |ms|
    ensures Firsts(ms[..i]) <= Firsts(ms)
  {
    if i < |ms| {
      FirstsArePrefix(ms[..|ms| - 1], i);
      assert ms[..|ms| - 1][..i] == ms[..i];
    } else {
      assert ms[..i] == ms;
    }
  }

  lemma LastEntry<S>(ms: seq<Migration<S>>, n: nat)
    requires |ms| == n + 1
    ensures Distinct(Versions(ms)) <==> Distinct(Versions(ms[..n])) && ms[n].version !in Versions(ms[..n])
  {
    assert Versions(ms) == Versions(ms[..n]) + [ms[n].version];
    DistinctAppend(Versions(ms[..n]), ms[n].version);
  }

  lemma {:induction false} FirstsAreAll<S>(ms: seq<Migration<S>>)
    requires Distinct(Versions(ms))
    ensures Firsts(ms) == ms
  {
    if ms != [] {
      var n := |ms| - 1;
      LastEntry(ms, n);
      FirstsAreAll(ms[..n]);
      assert ms[..n] + [ms[n]] == ms;
    }
  }

  /** How entry `i` stands to the first occurrences before it. */
  lemma FirstsStep<S>(ms: seq<Migration<S>>, i: nat)
    requires i < |ms|
    ensures var q := |Firsts(ms[..i])|;
            var v := ms[i].version;
            if v in Versions(ms[..i]) then
              |Firsts(ms[..i + 1])| == q && exists p :: 0 <= p < q <= |Firsts(ms)| && Firsts(ms)[p].version == v
            else
              |Firsts(ms[..i + 1])| == q + 1 <= |Firsts(ms)| && Firsts(ms)[q] == ms[i]
  {
    assert ms[..i + 1][..i] == ms[..i];
    FirstsArePrefix(ms, i);
    FirstsArePrefix(ms, i + 1);
    FirstsCover(ms[..i]);
    var v := ms[i].version;
    if v in Versions(ms[..i]) {
      var p :| 0 <= p < |Versions(Firsts(ms[..i]))| && Versions(Firsts(ms[..i]))[p] == v;
      assert Firsts(ms)[p] == Firsts(ms[..i])[p];
    }
  }

  lemma FirstAt<S>(ms: seq<Migration<S>>, p: nat, n: nat)
    requires p < |Firsts(ms)| && n <= |Firsts(ms)|
    ensures Firsts(ms)[p].version in Versions(Firsts(ms)[..n]) <==> p < n
  {
    FirstsCover(ms);
    SeenMeansPassed(Firsts(ms), n, p);
  }

  // ---------------------------------------------------------------------------------------------
  // What a run does
  // ---------------------------------------------------------------------------------------------

  function Clean(n: nat): (faults: seq<Fault>)
    ensures |faults| == n && NoFaults(faults)
  {
    seq(n, _ => NoFault)
  }

  ghost predicate NoFaults(faults: seq<Fault>) {
    forall j :: 0 <= j < |faults| ==> faults[j].NoFault?
  }

  /**
   The run is at entry `i`, having started with `n0` first occurrences applied and applied those up
   to `n`. It has either applied nothing yet or has just caught up with the list.
   */
  ghost predicate Underway<S>(namespace: string, ms: seq<Migration<S>>, n0: nat, n: nat, i: nat, t: Tables<S>) {
    && i <= |ms| && n0 <= n <= |Firsts(ms)|
    && VersionsOf(t.rows, namespace) == Versions(Firsts(ms)[..n])
    && |Firsts(ms[..i])| <= n
    && (n == n0 || n == |Firsts(ms[..i])|)
  }

  /** What the rest of the run comes to, `n'` being the first occurrences applied at its end. */
  ghost predicate Outcome<S>(namespace: string, ms: seq<Migration<S>>, faults: seq<Fault>, n0: nat, n: nat, t: Tables<S>,
                             r: (bool, Tables<S>), n': nat)
    requires n <= |Firsts(ms)|
  {
    && Advanced(namespace, Firsts(ms), t, n, r.1, n')
    && (r.0 ==> n' == |Firsts(ms)|)
    && (n == |Firsts(ms)| == n0 ==> r == (true, t))
    && (NoFaults(faults) && Fold(Firsts(ms)[n..], t.schema).Some? ==>
          (Distinct(Versions(ms)) ==> r.0) && (n == n0 < |Firsts(ms)| ==> n' > n))
  }

  /** Where the loop stands on entry `i`: it skips it, commits it as the next first occurrence, or stops. */
  lemma EntryCases<S>(namespace: string, ms: seq<Migration<S>>, n0: nat, n: nat, i: nat, t: Tables<S>)
    requires Underway(namespace, ms, n0, n, i, t) && i < |ms|
    ensures var v := ms[i].version;
            if v in Versions(Firsts(ms)[..n0]) then Underway(namespace, ms, n0, n, i + 1, t)
            else if v in Versions(ms[..i]) then n0 < n && Row(namespace, v) in t.rows
            else
              && n < |Firsts(ms)| && Firsts(ms)[n] == ms[i] && |Firsts(ms[..i + 1])| == n + 1
              && Row(namespace, v) !in t.rows
  {
    FirstsStep(ms, i);
    var q, v := |Firsts(ms[..i])|, ms[i].version;
    RecordedMeansRow(t.rows, namespace, v);
    if v in Versions(ms[..i]) {
      var p :| 0 <= p < q && Firsts(ms)[p].version == v;
      FirstAt(ms, p, n0);
      FirstAt(ms, p, n);
    } else {
      FirstAt(ms, q, n0);
      FirstAt(ms, q, n);
    }
  }

  lemma FoldNext<S>(ms: seq<Migration<S>>, n: nat, s: S)
    requires n < |ms|
    ensures Fold(ms[n..], s) == match ms[n].apply(s) case None => None case Some(mid) => Fold(ms[n + 1..], mid)
  {
    FoldFront(ms[n..], s);
    assert ms[n..][1..] == ms[n + 1..];
  }

  lemma RepeatIsNotDistinct<S>(ms: seq<Migration<S>>, i: nat)
    requires i < |ms| && ms[i].version in Versions(ms[..i])
    ensures !Distinct(Versions(ms))
  {
    var k :| 0 <= k < i && Versions(ms[..i])[k] == ms[i].version;
    assert Versions(ms)[k] == Versions(ms)[i];
  }

  /** A run that ends at once has applied nothing more. */
  lemma EndsHere<S>(namespace: string, ms: seq<Migration<S>>, n: nat, t: Tables<S>)
    requires n <= |Firsts(ms)| && VersionsOf(t.rows, namespace) == Versions(Firsts(ms)[..n])
    ensures Advanced(namespace, Firsts(ms), t, n, t, n)
  {
    assert Firsts(ms)[n..n] == [];
  }

  lemma FinishesHere<S>(namespace: string, ms: seq<Migration<S>>, faults: seq<Fault>, n0: nat, n: nat, t: Tables<S>)
    requires Underway(namespace, ms, n0, n, |ms|, t)
    ensures Outcome(namespace, ms, faults, n0, n, t, (true, t), n)
  {
    assert ms[..|ms|] == ms;
    EndsHere(namespace, ms, n, t);
  }

  /** A transaction fails only for a fault, a failing statement, or a repeated version. */
  lemma StopsHere<S>(namespace: string, ms: seq<Migration<S>>, faults: seq<Fault>, n0: nat, n: nat, i: nat, t: Tables<S>)
    requires |faults| == |ms| && Underway(namespace, ms, n0, n, i, t) && i < |ms|
    requires ms[i].version !in Versions(Firsts(ms)[..n0]) && !Transact(namespace, ms[i], faults[i], t).0
    ensures Outcome(namespace, ms, faults, n0, n, t, (false, t), n)
  {
    EntryCases(namespace, ms, n0, n, i, t);
    EndsHere(namespace, ms, n, t);
    if ms[i].version in Versions(ms[..i]) {
      RepeatIsNotDistinct(ms, i);
    } else {
      FoldNext(Firsts(ms), n, t.schema);
    }
  }

  /** A committed entry is the next first occurrence, and the run has caught up with the list. */
  lemma CommitsHere<S>(namespace: string, ms: seq<Migration<S>>, fault: Fault, applied: set<int>, n0: nat, n: nat, i: nat,
                       t: Tables<S>, t1: Tables<S>)
    requires Underway(namespace, ms, n0, n, i, t) && i < |ms|
    requires applied == SetOf(Versions(Firsts(ms)[..n0])) && ms[i].version !in applied
    requires Transact(namespace, ms[i], fault, t) == (true, t1)
    ensures n < |Firsts(ms)| && Firsts(ms)[n] == ms[i]
    ensures Underway(namespace, ms, n0, n + 1, i + 1, t1)
  {
    EntryCases(namespace, ms, n0, n, i, t);
    VersionRowAdded(t.rows, Row(namespace, ms[i].version), namespace);
    VersionsGrow(Firsts(ms), n);
  }

  lemma OutcomeFromHere<S>(namespace: string, ms: seq<Migration<S>>, faults: seq<Fault>, n0: nat, n: nat, t: Tables<S>, t1: Tables<S>,
                           r: (bool, Tables<S>), n': nat)
    requires n0 <= n < |Firsts(ms)| && VersionsOf(t.rows, namespace) == Versions(Firsts(ms)[..n])
    requires t1.rows == t.rows + [Row(namespace, Firsts(ms)[n].version)] && Firsts(ms)[n].apply(t.schema) == Some(t1.schema)
    requires Outcome(namespace, ms, faults, n0, n + 1, t1, r, n')
    ensures Outcome(namespace, ms, faults, n0, n, t, r, n')
  {
    AdvanceOne(namespace, Firsts(ms), n, t, t1, r.1, n');
    FoldNext(Firsts(ms), n, t.schema);
  }

  /** The rest of the run, from entry `i` on, comes to some outcome. */
  ghost predicate Advances<S>(namespace: string, ms: seq<Migration<S>>, faults: seq<Fault>, applied: set<int>,
                              n0: nat, n: nat, i: nat, t: Tables<S>)
    requires |faults| == |ms| && i <= |ms| && n <= |Firsts(ms)|
  {
    exists n' :: Outcome(namespace, ms, faults, n0, n, t, RunFrom(namespace, ms, faults, applied, i, t), n')
  }

  lemma AdvancesByCommit<S>(namespace: string, ms: seq<Migration<S>>, faults: seq<Fault>, applied: set<int>,
                            n0: nat, n: nat, i: nat, t: Tables<S>, t1: Tables<S>)
    requires |faults| == |ms| && Underway(namespace, ms, n0, n, i, t) && i < |ms| && ms[i].version !in applied
    requires Transact(namespace, ms[i], faults[i], t) == (true, t1)
    requires n < |Firsts(ms)| && Firsts(ms)[n] == ms[i] && Advances(namespace, ms, faults, applied, n0, n + 1, i + 1, t1)
    ensures Advances(namespace, ms, faults, applied, n0, n, i, t)
  {
    var r := RunFrom(namespace, ms, faults, applied, i + 1, t1);
    var n' :| Outcome(namespace, ms, faults, n0, n + 1, t1, r, n');
    OutcomeFromHere(namespace, ms, faults, n0, n, t, t1, r, n');
    assert RunFrom(namespace, ms, faults, applied, i, t) == r;
  }

  lemma AdvancesByStop<S>(namespace: string, ms: seq<Migration<S>>, faults: seq<Fault>, applied: set<int>,
                          n0: nat, n: nat, i: nat, t: Tables<S>)
    requires |faults| == |ms| && Underway(namespace, ms, n0, n, i, t) && i < |ms| && ms[i].version !in applied
    requires applied == SetOf(Versions(Firsts(ms)[..n0])) && !Transact(namespace, ms[i], faults[i], t).0
    ensures Advances(namespace, ms, faults, applied, n0, n, i, t)
  {
    StopsHere(namespace, ms, faults, n0, n, i, t);
    assert RunFrom(namespace, ms, faults, applied, i, t) == (false, t);
  }

  lemma AdvancesBySkip<S>(namespace: string, ms: seq<Migration<S>>, faults: seq<Fault>, applied: set<int>,
                          n0: nat, n: nat, i: nat, t: Tables<S>)
    requires |faults| == |ms| && i < |ms| && n <= |Firsts(ms)| && ms[i].version in applied
    requires Advances(namespace, ms, faults, applied, n0, n, i + 1, t)
    ensures Advances(namespace, ms, faults, applied, n0, n, i, t)
  {
    assert RunFrom(namespace, ms, faults, applied, i, t) == RunFrom(namespace, ms, faults, applied, i + 1, t);
  }

  lemma AdvancesByFinish<S>(namespace: string, ms: seq<Migration<S>>, faults: seq<Fault>, applied: set<int>,
                            n0: nat, n: nat, t: Tables<S>)
    requires |faults| == |ms| && Underway(namespace, ms, n0, n, |ms|, t)
    ensures Advances(namespace, ms, faults, applied, n0, n, |ms|, t)
  {
    FinishesHere(namespace, ms, faults, n0, n, t);
    assert RunFrom(namespace, ms, faults, applied, |ms|, t) == (true, t);
  }

  lemma SkipsHere<S>(namespace: string, ms: seq<Migration<S>>, applied: set<int>, n0: nat, n: nat, i: nat, t: Tables<S>)
    requires Underway(namespace, ms, n0, n, i, t) && i < |ms|
    requires applied == SetOf(Versions(Firsts(ms)[..n0])) && ms[i].version in applied
    ensures Underway(namespace, ms, n0, n, i + 1, t)
  {
    EntryCases(namespace, ms, n0, n, i, t);
  }

  /** One entry, given that every run from the next entry on comes to an outcome. */
  lemma EntryAdvances<S>(namespace: string, ms: seq<Migration<S>>, faults: seq<Fault>, applied: set<int>,
                         n0: nat, n: nat, i: nat, next: nat, t: Tables<S>)
    requires |faults| == |ms| && Underway(namespace, ms, n0, n, i, t) && next == i + 1 <= |ms|
    requires applied == SetOf(Versions(Firsts(ms)[..n0]))
    requires forall n1: nat, t1 :: Underway(namespace, ms, n0, n1, next, t1) ==>
                                     Advances(namespace, ms, faults, applied, n0, n1, next, t1)
    ensures Advances(namespace, ms, faults, applied, n0, n, i, t)
  {
    if ms[i].version in applied {
      SkipsHere(namespace, ms, applied, n0, n, i, t);
      AdvancesBySkip(namespace, ms, faults, applied, n0, n, i, t);
    } else {
      var (ok, t1) := Transact(namespace, ms[i], faults[i], t);
      if ok {
        CommitsHere(namespace, ms, faults[i], applied, n0, n, i, t, t1);
        AdvancesByCommit(namespace, ms, faults, applied, n0, n, i, t, t1);
      } else {
        AdvancesByStop(namespace, ms, faults, applied, n0, n, i, t);
      }
    }
  }

  lemma {:induction false} RunAdvances<S>(namespace: string, ms: seq<Migration<S>>, faults: seq<Fault>, applied: set<int>,
                                          n0: nat, n: nat, i: nat, t: Tables<S>)
    requires |faults| == |ms| && Underway(namespace, ms, n0, n, i, t)
    requires applied == SetOf(Versions(Firsts(ms)[..n0]))
    ensures Advances(namespace, ms, faults, applied, n0, n, i, t)
    decreases |ms| - i
  {
    if i == |ms| {
      AdvancesByFinish(namespace, ms, faults, applied, n0, n, t);
    } else {
      var next := i + 1;
      forall n1: nat, t1 | Underway(namespace, ms, n0, n1, next, t1)
        ensures Advances(namespace, ms, faults, applied, n0, n1, next, t1)
      {
        RunAdvances(namespace, ms, faults, applied, n0, n1, next, t1);
      }
      EntryAdvances(namespace, ms, faults, applied, n0, n, i, next, t);
    }
  }

  /** A run of any list, whatever fails, from any number of applied first occurrences. */
  lemma RunFromFirsts<S>(namespace: string, ms: seq<Migration<S>>, faults: seq<Fault>, n0: nat, t: Tables<S>) returns (n: nat)
    requires |faults| == |ms| && n0 <= |Firsts(ms)|
    requires VersionsOf(t.rows, namespace) == Versions(Firsts(ms)[..n0])
    ensures Outcome(namespace, ms, faults, n0, n0, t, RunAll(namespace, ms, faults, t), n)
  {
    assert ms[..0] == [];
    RunAdvances(namespace, ms, faults, SetOf(VersionsOf(t.rows, namespace)), n0, n0, 0, t);
    n :| Outcome(namespace, ms, faults, n0, n0, t, RunAll(namespace, ms, faults, t), n);
  }

  /**
   With distinct versions, a run from any prefix leaves a longer or equal prefix with exactly the
   effects in between; it applies everything when nothing fails, reports success only then, and is
   a no-op on a complete database. Other namespaces keep their versions.
   */
  lemma RunFromPrefix<S>(namespace: string, ms: seq<Migration<S>>, faults: seq<Fault>, n0: nat, t: Tables<S>) returns (n: nat)
    requires |faults| == |ms| && Distinct(Versions(ms)) && n0 <= |ms|
    requires VersionsOf(t.rows, namespace) == Versions(ms[..n0])
    ensures var r := RunAll(namespace, ms, faults, t);
            && Advanced(namespace, ms, t, n0, r.1, n)
            && (r.0 ==> n == |ms|)
            && (NoFaults(faults) && Fold(ms[n0..], t.schema).Some? ==> r.0)
            && (n0 == |ms| ==> r == (true, t))
  {
    FirstsAreAll(ms);
    n := RunFromFirsts(namespace, ms, faults, n0, t);
  }

  // ---------------------------------------------------------------------------------------------
  // Faults
  // ---------------------------------------------------------------------------------------------

  lemma {:induction false} LoopStopsAtFault<S>(namespace: string, ms: seq<Migration<S>>, faults: seq<Fault>, applied: set<int>,
                                               i: nat, j: nat, t: Tables<S>)
    requires |faults| == |ms| && i <= j < |ms| && ms[j].version !in applied && (faults[j].BeginFails? || faults[j].CommitFails?)
    ensures RunFrom(namespace, ms, faults, applied, i, t)
         == (false, RunFrom(namespace, ms[..j], faults[..j], applied, i, t).1)
    decreases j - i
  {
    if i < j {
      if ms[i].version in applied {
        LoopStopsAtFault(namespace, ms, faults, applied, i + 1, j, t);
      } else {
        LoopStopsAtFault(namespace, ms, faults, applied, i + 1, j, Transact(namespace, ms[i], faults[i], t).1);
      }
    }
  }

  /**
   Wherever the infrastructure fails on an entry the run has still to apply, the run reports failure
   and does exactly what running the entries before it would do: nothing, if that is the first.
   */
  lemma FaultStopsRun<S>(namespace: string, ms: seq<Migration<S>>, faults: seq<Fault>, j: nat, t: Tables<S>)
    requires |faults| == |ms| && j < |ms| && Row(namespace, ms[j].version) !in t.rows
    requires faults[j].BeginFails? || faults[j].CommitFails?
    ensures RunAll(namespace, ms, faults, t) == (false, RunAll(namespace, ms[..j], faults[..j], t).1)
    ensures (forall i :: 0 <= i < j ==> Row(namespace, ms[i].version) in t.rows) ==> RunAll(namespace, ms, faults, t) == (false, t)
  {
    var applied := SetOf(VersionsOf(t.rows, namespace));
    RecordedMeansRow(t.rows, namespace, ms[j].version);
    LoopStopsAtFault(namespace, ms, faults, applied, 0, j, t);
    if forall i :: 0 <= i < j ==> Row(namespace, ms[i].version) in t.rows {
      forall i | 0 <= i < j ensures ms[..j][i].version in applied {
        RecordedMeansRow(t.rows, namespace, ms[i].version);
      }
      LoopSkipsAll(namespace, ms[..j], faults[..j], applied, 0, t);
    }
  }

  lemma {:induction false} LoopSkipsAll<S>(namespace: string, ms: seq<Migration<S>>, faults: seq<Fault>, applied: set<int>,
                                           i: nat, t: Tables<S>)
    requires |faults| == |ms| && i <= |ms| && forall k :: i <= k < |ms| ==> ms[k].version in applied
    ensures RunFrom(namespace, ms, faults, applied, i, t) == (true, t)
    decreases |ms| - i
  {
    if i < |ms| {
      LoopSkipsAll(namespace, ms, faults, applied, i + 1, t);
    }
  }

  // ---------------------------------------------------------------------------------------------
  // Versions listed twice
  // ---------------------------------------------------------------------------------------------

  lemma {:induction false} SuccessMeansNewVersions<S>(namespace: string, ms: seq<Migration<S>>, faults: seq<Fault>, i: nat, t: Tables<S>)
    requires i <= |ms| == |faults|
    requires RunFrom(namespace, ms, faults, {}, i, t).0
    ensures forall j :: i <= j < |ms| ==> Row(namespace, ms[j].version) !in t.rows
    ensures forall j, k :: i <= j < k < |ms| ==> ms[j].version != ms[k].version
    decreases |ms| - i
  {
    if i < |ms| {
      var t1 := Transact(namespace, ms[i], faults[i], t).1;
      SuccessMeansNewVersions(namespace, ms, faults, i + 1, t1);
      assert Row(namespace, ms[i].version) in t1.rows;
    }
  }

  /** On a fresh namespace, a run without failures completes exactly when no version is listed twice. */
  lemma FreshRunCompletesIffDistinct<S>(namespace: string, ms: seq<Migration<S>>, faults: seq<Fault>, t: Tables<S>)
    requires |faults| == |ms| && NoFaults(faults)
    requires VersionsOf(t.rows, namespace) == [] && Fold(ms, t.schema).Some?
    ensures RunAll(namespace, ms, faults, t).0 <==> Distinct(Versions(ms))
  {
    assert SetOf([]) == {};
    if Distinct(Versions(ms)) {
      assert ms[..0] == [] && ms[0..] == ms;
      var n := RunFromPrefix(namespace, ms, faults, 0, t);
    } else if RunAll(namespace, ms, faults, t).0 {
      SuccessMeansNewVersions(namespace, ms, faults, 0, t);
    }
  }

  /** Every recorded version is listed, and recorded once: what the table's key and one list of migrations give. */
  ghost predicate Orderly(vs: seq<int>, listed: seq<int>) {
    Distinct(vs) && forall v :: v in vs ==> v in listed
  }

  lemma CommitKeepsOrder<S>(namespace: string, ms: seq<Migration<S>>, i: nat, rows: seq<Row>)
    requires i < |ms| && Orderly(VersionsOf(rows, namespace), Versions(ms)) && Row(namespace, ms[i].version) !in rows
    ensures var after := VersionsOf(rows + [Row(namespace, ms[i].version)], namespace);
            Orderly(after, Versions(ms)) && after == VersionsOf(rows, namespace) + [ms[i].version]
  {
    VersionRowAdded(rows, Row(namespace, ms[i].version), namespace);
    RecordedMeansRow(rows, namespace, ms[i].version);
    assert Versions(ms)[i] == ms[i].version;
  }

  /** Nothing recorded is lost, the record stays orderly, and after success it has every entry from `i` on. */
  ghost predicate RecordGrows<S>(namespace: string, ms: seq<Migration<S>>, i: nat, t: Tables<S>, r: (bool, Tables<S>)) {
    var before, after := VersionsOf(t.rows, namespace), VersionsOf(r.1.rows, namespace);
    && Orderly(after, Versions(ms))
    && (forall v :: v in before ==> v in after)
    && (r.0 ==> forall j :: i <= j < |ms| ==> ms[j].version in after)
  }

  lemma GrowsFromHere<S>(namespace: string, ms: seq<Migration<S>>, i: nat, t: Tables<S>, t1: Tables<S>, r: (bool, Tables<S>))
    requires i < |ms| && RecordGrows(namespace, ms, i + 1, t1, r)
    requires VersionsOf(t1.rows, namespace) == VersionsOf(t.rows, namespace) + [ms[i].version]
    ensures RecordGrows(namespace, ms, i, t, r)
  {
    assert ms[i].version in VersionsOf(t1.rows, namespace);
  }

  lemma {:induction false} RunKeepsOrder<S>(namespace: string, ms: seq<Migration<S>>, faults: seq<Fault>, applied: set<int>,
                                            i: nat, t: Tables<S>)
    requires i <= |ms| == |faults| && Orderly(VersionsOf(t.rows, namespace), Versions(ms))
    requires forall v :: v in applied ==> v in VersionsOf(t.rows, namespace)
    ensures RecordGrows(namespace, ms, i, t, RunFrom(namespace, ms, faults, applied, i, t))
    decreases |ms| - i
  {
    if i < |ms| {
      if ms[i].version in applied {
        RunKeepsOrder(namespace, ms, faults, applied, i + 1, t);
      } else {
        var (ok, t1) := Transact(namespace, ms[i], faults[i], t);
        if ok {
          CommitKeepsOrder(namespace, ms, i, t.rows);
          RunKeepsOrder(namespace, ms, faults, applied, i + 1, t1);
          GrowsFromHere(namespace, ms, i, t, t1, RunFrom(namespace, ms, faults, applied, i + 1, t1));
        }
      }
    }
  }

  lemma OneMoreValue(vs: seq<int>, v: int)
    ensures |SetOf(vs + [v])| == |SetOf(vs)| + (if v in vs then 0 else 1)
  {
    assert SetOf(vs + [v]) == SetOf(vs) + {v};
  }

  lemma {:induction false} DistinctIffAsManyValues(vs: seq<int>)
    ensures |SetOf(vs)| <= |vs|
    ensures |SetOf(vs)| == |vs| <==> Distinct(vs)
  {
    if vs != [] {
      var n := |vs| - 1;
      DistinctIffAsManyValues(vs[..n]);
      DistinctAppend(vs[..n], vs[n]);
      assert vs[..n] + [vs[n]] == vs;
      OneMoreValue(vs[..n], vs[n]);
    }
  }

  /**
   When success can be trusted: a run that reports success, whatever happened before and during it,
   has as many migrations on record as are listed exactly when no version is listed twice. If one
   is, success means that a listed migration was left out, silently.
   */
  lemma SuccessMeansAllAppliedExactlyWhen<S>(namespace: string, ms: seq<Migration<S>>, faults: seq<Fault>, t: Tables<S>)
    requires |faults| == |ms| && Orderly(VersionsOf(t.rows, namespace), Versions(ms))
    requires RunAll(namespace, ms, faults, t).0
    ensures var recorded := VersionsOf(RunAll(namespace, ms, faults, t).1.rows, namespace);
            && SetOf(recorded) == SetOf(Versions(ms)) && Distinct(recorded)
            && (|recorded| == |ms| <==> Distinct(Versions(ms)))
            && (|recorded| < |ms| <==> !Distinct(Versions(ms)))
  {
    RunKeepsOrder(namespace, ms, faults, SetOf(VersionsOf(t.rows, namespace)), 0, t);
    var recorded := VersionsOf(RunAll(namespace, ms, faults, t).1.rows, namespace);
    assert forall j :: 0 <= j < |ms| ==> Versions(ms)[j] == ms[j].version;
    DistinctIffAsManyValues(recorded);
    DistinctIffAsManyValues(Versions(ms));
  }

  /** Up to `runs` runs without failures, the last of them the first to report success. */
  function Reruns<S>(namespace: string, ms: seq<Migration<S>>, runs: nat, t: Tables<S>): (bool, Tables<S>) {
    if runs == 0 then (false, t)
    else
      var (ok, after) := RunAll(namespace, ms, Clean(|ms|), t);
      if ok then (true, after) else Reruns(namespace, ms, runs - 1, after)
  }

  lemma {:induction false} FoldSplits<S>(ms: seq<Migration<S>>, n: nat, n': nat, s: S, mid: S)
    requires n <= n' <= |ms| && Fold(ms[n..n'], s) == Some(mid)
    ensures Fold(ms[n..], s) == Fold(ms[n'..], mid)
    decreases n' - n
  {
    if n < n' {
      FoldNext(ms, n, s);
      FoldFront(ms[n..n'], s);
      assert ms[n..n'][1..] == ms[n + 1..n'];
      FoldSplits(ms, n + 1, n', ms[n].apply(s).value, mid);
    }
  }

  /** One run without failures: it succeeds, or applies at least one first occurrence more. */
  lemma CleanRun<S>(namespace: string, ms: seq<Migration<S>>, n: nat, t: Tables<S>) returns (n': nat)
    requires n <= |Firsts(ms)| && VersionsOf(t.rows, namespace) == Versions(Firsts(ms)[..n])
    requires Fold(Firsts(ms)[n..], t.schema).Some?
    ensures var (ok, after) := RunAll(namespace, ms, Clean(|ms|), t);
            && n <= n' <= |Firsts(ms)| && (if ok then n' == |Firsts(ms)| else n' > n)
            && VersionsOf(after.rows, namespace) == Versions(Firsts(ms)[..n'])
            && Fold(Firsts(ms)[n..], t.schema) == Fold(Firsts(ms)[n'..], after.schema)
  {
    var faults := Clean(|ms|);
    n' := RunFromFirsts(namespace, ms, faults, n, t);
    FoldSplits(Firsts(ms), n, n', t.schema, RunAll(namespace, ms, faults, t).1.schema);
  }

  /** Success, with exactly the first occurrences on record and, from the `n`th on, their in-order effect. */
  ghost predicate FirstsApplied<S>(namespace: string, ms: seq<Migration<S>>, n: nat, t: Tables<S>, r: (bool, Tables<S>))
    requires n <= |Firsts(ms)|
  {
    r.0 && VersionsOf(r.1.rows, namespace) == Versions(Firsts(ms)) && Fold(Firsts(ms)[n..], t.schema) == Some(r.1.schema)
  }

  lemma AppliedAtLast<S>(namespace: string, ms: seq<Migration<S>>, n: nat, t: Tables<S>, after: Tables<S>)
    requires n <= |Firsts(ms)| && VersionsOf(after.rows, namespace) == Versions(Firsts(ms)[..|Firsts(ms)|])
    requires Fold(Firsts(ms)[n..], t.schema) == Fold(Firsts(ms)[|Firsts(ms)|..], after.schema)
    ensures FirstsApplied(namespace, ms, n, t, (true, after))
  {
    var firsts := Firsts(ms);
    assert firsts[..|firsts|] == firsts && firsts[|firsts|..] == [];
  }

  lemma AppliedFromHere<S>(namespace: string, ms: seq<Migration<S>>, n: nat, t: Tables<S>, n': nat, t': Tables<S>, r: (bool, Tables<S>))
    requires n <= n' <= |Firsts(ms)| && FirstsApplied(namespace, ms, n', t', r)
    requires Fold(Firsts(ms)[n..], t.schema) == Fold(Firsts(ms)[n'..], t'.schema)
    ensures FirstsApplied(namespace, ms, n, t, r)
  {
  }

  /**
   Rerunning any list, repeated versions or not, comes to success after at most one run for each
   entry still to apply and one more, and leaves exactly the in-order effect of each version's
   first occurrence.
   */
  lemma {:induction false} RerunsApplyFirsts<S>(namespace: string, ms: seq<Migration<S>>, n: nat, t: Tables<S>, runs: nat)
    requires n <= |Firsts(ms)| && VersionsOf(t.rows, namespace) == Versions(Firsts(ms)[..n])
    requires Fold(Firsts(ms)[n..], t.schema).Some? && runs > |Firsts(ms)| - n
    ensures FirstsApplied(namespace, ms, n, t, Reruns(namespace, ms, runs, t))
    decreases runs
  {
    var (ok, after) := RunAll(namespace, ms, Clean(|ms|), t);
    var n' := CleanRun(namespace, ms, n, t);
    if ok {
      AppliedAtLast(namespace, ms, n, t, after);
      assert Reruns(namespace, ms, runs, t) == (true, after);
    } else {
      RerunsApplyFirsts(namespace, ms, n', after, runs - 1);
      AppliedFromHere(namespace, ms, n, t, n', after, Reruns(namespace, ms, runs - 1, after));
      assert Reruns(namespace, ms, runs, t) == Reruns(namespace, ms, runs - 1, after);
    }
  }

  /**
   A version listed twice is lost, not repeated: the first run stops at the second entry, and the
   next run reports success without ever applying it.
   */
  lemma RepeatedVersionIsLost()
    ensures var add1 := Migration(1, "first", (x: int) => Some(x + 1));
            var add10 := Migration(1, "second", (x: int) => Some(x + 10));
            var faults := [NoFault, NoFault];
            var first := RunAll("cost", [add1, add10], faults, Tables([], 0));
            var second := RunAll("cost", [add1, add10], faults, first.1);
            !first.0 && second == (true, Tables([Row("cost", 1)], 1))
  {
    var add1 := Migration(1, "first", (x: int) => Some(x + 1));
    var add10 := Migration(1, "second", (x: int) => Some(x + 10));
    var ms, faults := [add1, add10], [NoFault, NoFault];
    var row := Row("cost", 1);
    assert SetOf(VersionsOf([], "cost")) == {};
    var t1 := Tables([] + [row], 1);
    assert [] + [row] == [row];
    assert Transact("cost", add1, NoFault, Tables([], 0)) == (true, t1);
    assert RunFrom("cost", ms, faults, {}, 1, t1) == (false, t1);
    RecordedMeansRow([row], "cost", 1);
    assert RunFrom("cost", ms, faults, SetOf(VersionsOf([row], "cost")), 1, t1) == (true, t1);
  }

  // ---------------------------------------------------------------------------------------------
  // One run as a behaviour of the protocol
  // ---------------------------------------------------------------------------------------------

  /** What the protocol sees of the tables: one namespace's versions, and the schema. */
  function View<S>(namespace: string, t: Tables<S>): Db<S> {
    Db(VersionsOf(t.rows, namespace), t.schema)
  }

  lemma StepInFront<S>(ms: seq<Migration<S>>, s: State<S>, e: Event, states: seq<State<S>>, events: seq<Event>)
    requires Enabled(ms, s, e) && Steps(ms, states, events) && states[0] == Next(ms, s, e)
    ensures Steps(ms, [s] + states, [e] + events)
  {
    var ss, es := [s] + states, [e] + events;
    forall i | 0 <= i < |es| ensures Enabled(ms, ss[i], es[i]) && ss[i + 1] == Next(ms, ss[i], es[i]) {
      if i > 0 {
        assert ss[i] == states[i - 1] && es[i] == events[i - 1] && ss[i + 1] == states[i];
      }
    }
  }

  lemma OneStep<S>(ms: seq<Migration<S>>, s: State<S>, e: Event) returns (states: seq<State<S>>, events: seq<Event>)
    requires Enabled(ms, s, e)
    ensures Steps(ms, states, events) && |events| == 1 && states[0] == s && states[1] == Next(ms, s, e)
  {
    states, events := [s, Next(ms, s, e)], [e];
  }

  /** A transaction that commits is a commit of the protocol. */
  lemma CommitIsStep<S>(namespace: string, ms: seq<Migration<S>>, fault: Fault, applied: set<int>, i: nat, t: Tables<S>)
    requires i < |ms| && ms[i].version !in applied && Transact(namespace, ms[i], fault, t).0
    ensures var s := State(View(namespace, t), [Running(applied, i)]);
            var t1 := Transact(namespace, ms[i], fault, t).1;
            Enabled(ms, s, Commit(0)) && Next(ms, s, Commit(0)) == State(View(namespace, t1), [Running(applied, i + 1)])
  {
    RecordedMeansRow(t.rows, namespace, ms[i].version);
    VersionRowAdded(t.rows, Row(namespace, ms[i].version), namespace);
  }

  /** The loop from entry `i` on, step by step. */
  lemma {:induction false} LoopIsSteps<S>(namespace: string, ms: seq<Migration<S>>, faults: seq<Fault>, applied: set<int>,
                                          i: nat, t: Tables<S>) returns (states: seq<State<S>>, events: seq<Event>)
    requires i <= |ms| == |faults|
    ensures Steps(ms, states, events)
    ensures states[0] == State(View(namespace, t), [Running(applied, i)])
    ensures var (ok, t') := RunFrom(namespace, ms, faults, applied, i, t);
            states[|events|] == State(View(namespace, t'), [if ok then Finished else Stopped])
    decreases |ms| - i
  {
    var s := State(View(namespace, t), [Running(applied, i)]);
    if i == |ms| {
      states, events := OneStep(ms, s, Finish(0));
    } else if ms[i].version in applied {
      states, events := LoopIsSteps(namespace, ms, faults, applied, i + 1, t);
      StepInFront(ms, s, Skip(0), states, events);
      states, events := [s] + states, [Skip(0)] + events;
      assert RunFrom(namespace, ms, faults, applied, i, t) == RunFrom(namespace, ms, faults, applied, i + 1, t);
    } else {
      var (ok, t1) := Transact(namespace, ms[i], faults[i], t);
      if ok {
        CommitIsStep(namespace, ms, faults[i], applied, i, t);
        states, events := LoopIsSteps(namespace, ms, faults, applied, i + 1, t1);
        StepInFront(ms, s, Commit(0), states, events);
        states, events := [s] + states, [Commit(0)] + events;
        assert RunFrom(namespace, ms, faults, applied, i, t) == RunFrom(namespace, ms, faults, applied, i + 1, t1);
      } else {
        states, events := OneStep(ms, s, Crash(0));
      }
    }
  }

  /**
   Every run of the migrator, whatever fails in it, is a behaviour of the protocol with one runner:
   it ends with the same versions and schema, and finishes exactly when the run reports success.
   */
  lemma RunIsBehaviour<S>(namespace: string, ms: seq<Migration<S>>, faults: seq<Fault>, t: Tables<S>)
    returns (states: seq<State<S>>, events: seq<Event>)
    requires |ms| == |faults|
    ensures Behaviour(ms, states, events)
    ensures states[0] == State(View(namespace, t), [Stopped])
    ensures var (ok, t') := RunAll(namespace, ms, faults, t);
            states[|events|] == State(View(namespace, t'), [if ok then Finished else Stopped])
  {
    var s := State(View(namespace, t), [Stopped]);
    states, events := LoopIsSteps(namespace, ms, faults, SetOf(VersionsOf(t.rows, namespace)), 0, t);
    StepInFront(ms, s, Start(0), states, events);
    states, events := [s] + states, [Start(0)] + events;
  }

  class Database<S(0)> {
    var rows: seq<Row>
    var schema: S

    ghost function Contents(): Tables<S>
      reads this
    {
      Tables(rows, schema)
    }

    constructor (schema: S)
      ensures Contents() == Tables([], schema)
    {
      this.rows := [];
      this.schema := schema;
    }

    method AppliedVersions(namespace: string) returns (applied: set<int>)
      ensures applied == SetOf(VersionsOf(rows, namespace))
    {
      applied := {};
      for i := 0 to |rows|
        invariant applied == SetOf(VersionsOf(rows[..i], namespace))
      {
        if rows[i].namespace == namespace {
          applied := applied + {rows[i].version};
        }
        assert rows[..i + 1][..i] == rows[..i];
      }
      assert rows[..|rows|] == rows;
    }

    /** Effect and version row commit together or not at all. */
    method RunMigration(namespace: string, m: Migration<S>, fault: Fault) returns (ok: bool)
      modifies this
      ensures (ok, Contents()) == Transact(namespace, m, fault, old(Contents()))
      ensures ok <==> fault == NoFault && m.apply(old(schema)).Some? && Row(namespace, m.version) !in old(rows)
      ensures !ok ==> rows == old(rows) && schema == old(schema)
      ensures ok ==> rows == old(rows) + [Row(namespace, m.version)] && Some(schema) == m.apply(old(schema))
    {
      if fault.BeginFails? {
        return false;
      }
      var savedRows, savedSchema := rows, schema;
      var applied := m.apply(schema);
      if applied.None? {
        return false;
      }
      schema := applied.value;
      if Row(namespace, m.version) in rows {
        rows, schema := savedRows, savedSchema;
        return false;
      }
      rows := rows + [Row(namespace, m.version)];
      if fault.CommitFails? {
        rows, schema := savedRows, savedSchema;
        return false;
      }
      return true;
    }

    /** Brings one namespace up to date, stopping at the first migration that does not commit. */
    method Run(namespace: string, ms: seq<Migration<S>>, faults: seq<Fault>) returns (ok: bool)
      requires |faults| == |ms|
      modifies this
      ensures (ok, Contents()) == RunAll(namespace, ms, faults, old(Contents()))
    {
      var applied := AppliedVersions(namespace);
      for i := 0 to |ms|
        invariant RunFrom(namespace, ms, faults, applied, i, Contents())
               == RunFrom(namespace, ms, faults, applied, 0, old(Contents()))
      {
        if ms[i].version in applied {
          continue;
        }
        var committed := RunMigration(namespace, ms[i], faults[i]);
        if !committed {
          return false;
        }
      }
      return true;
    }
  }
}
