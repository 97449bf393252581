/**
 Versioned schema migrations: one transaction per migration, guarded by a table of applied
 versions whose key is (namespace, version).
 */
module Migrations {
  import opened Wrappers

  /** `apply` is the effect on the schema; `None` when the statement fails. */
  datatype Migration<!S> = Migration(version: int, name: string, apply: S -> Option<S>)

  function Versions<S>(ms: seq<Migration<S>>): (vs: seq<int>)
    ensures |vs| == |ms| && forall i :: 0 <= i < |ms| ==> vs[i] == ms[i].version
  {
    seq(|ms|, i requires 0 <= i < |ms| => ms[i].version)
  }

  ghost predicate Distinct(vs: seq<int>) {
    forall i, j :: 0 <= i < j < |vs| ==> vs[i] != vs[j]
  }

  /** Applying the migrations in order, each to the result of the one before. */
  function Fold<S>(ms: seq<Migration<S>>, s: S): Option<S> {
    if ms == [] then Some(s)
    else
      match Fold(ms[..|ms| - 1], s)
      case None => None
      case Some(mid) => ms[|ms| - 1].apply(mid)
  }

  // ---------------------------------------------------------------------------------------------
  // Several runners on one database
  // ---------------------------------------------------------------------------------------------

  /** One namespace's view of the database: versions in the order they were committed, and the schema. */
  datatype Db<S> = Db(recorded: seq<int>, schema: S)

  /** A runner works from the versions it saw at its start, which may have become stale. */
  datatype Runner = Stopped | Running(seen: set<int>, next: nat) | Finished

  datatype State<S> = State(db: Db<S>, runners: seq<Runner>)

  datatype Event =
    | Start(r: nat)
    | Skip(r: nat)
    /** The whole transaction: effect, version row, commit. */
    | Commit(r: nat)
    /** Any failure or crash, at any point: an open transaction is rolled back. */
    | Crash(r: nat)
    | Finish(r: nat)

  ghost predicate Enabled<S>(ms: seq<Migration<S>>, s: State<S>, e: Event) {
    && e.r < |s.runners|
    && var runner := s.runners[e.r];
       match e
       case Start(_) => !runner.Running?
       case Skip(_) => runner.Running? && runner.next < |ms| && ms[runner.next].version in runner.seen
       case Commit(_) =>
         && runner.Running? && runner.next < |ms| && ms[runner.next].version !in runner.seen
         && ms[runner.next].apply(s.db.schema).Some?
         && ms[runner.next].version !in s.db.recorded
       case Crash(_) => true
       case Finish(_) => runner.Running? && runner.next == |ms|
  }

  function SetOf(vs: seq<int>): set<int> {
    set v | v in vs
  }

  ghost function Next<S>(ms: seq<Migration<S>>, s: State<S>, e: Event): State<S>
    requires Enabled(ms, s, e)
  {
    var runner := s.runners[e.r];
    match e
    case Start(r) => s.(runners := s.runners[r := Running(SetOf(s.db.recorded), 0)])
    case Skip(r) => s.(runners := s.runners[r := runner.(next := runner.next + 1)])
    case Commit(r) =>
      var m := ms[runner.next];
      State(Db(s.db.recorded + [m.version], m.apply(s.db.schema).value),
            s.runners[r := runner.(next := runner.next + 1)])
    case Crash(r) => s.(runners := s.runners[r := Stopped])
    case Finish(r) => s.(runners := s.runners[r := Finished])
  }

  /** The database holds exactly the effects of the first `n` migrations, each once and in order. */
  ghost predicate AtPrefix<S>(ms: seq<Migration<S>>, initial: S, db: Db<S>, n: nat) {
    n <= |ms| && db.recorded == Versions(ms[..n]) && Fold(ms[..n], initial) == Some(db.schema)
  }

  /** Everything a runner has passed is recorded, and so is everything it saw. */
  ghost predicate RunnerBehind<S>(ms: seq<Migration<S>>, runner: Runner, n: nat)
    requires n <= |ms|
  {
    match runner
    case Stopped => true
    case Running(seen, next) => next <= n && forall v :: v in seen ==> v in Versions(ms[..n])
    case Finished => n == |ms|
  }

  ghost predicate Inv<S>(ms: seq<Migration<S>>, initial: S, s: State<S>, n: nat) {
    && n <= |ms|
    && AtPrefix(ms, initial, s.db, n)
    && forall r :: 0 <= r < |s.runners| ==> RunnerBehind(ms, s.runners[r], n)
  }

  lemma SeenMeansPassed<S>(ms: seq<Migration<S>>, n: nat, k: nat)
    requires n <= |ms| && k < |ms| && Distinct(Versions(ms))
    ensures ms[k].version in Versions(ms[..n]) <==> k < n
  {
    var vs := Versions(ms[..n]);
    if k < n {
      assert vs[k] == ms[k].version;
    } else {
      forall i | 0 <= i < n ensures vs[i] != ms[k].version {
        assert Versions(ms)[i] != Versions(ms)[k];
      }
    }
  }

  lemma VersionsGrow<S>(ms: seq<Migration<S>>, n: nat)
    requires n < |ms|
    ensures Versions(ms[..n + 1]) == Versions(ms[..n]) + [ms[n].version]
  {
  }

  lemma FoldExtends<S>(ms: seq<Migration<S>>, initial: S, n: nat, schema: S)
    requires n < |ms| && Fold(ms[..n], initial) == Some(schema)
    ensures Fold(ms[..n + 1], initial) == ms[n].apply(schema)
  {
    assert ms[..n + 1][..n] == ms[..n];
  }

  lemma StillBehind<S>(ms: seq<Migration<S>>, runner: Runner, n: nat)
    requires n < |ms| && RunnerBehind(ms, runner, n)
    ensures RunnerBehind(ms, runner, n + 1)
  {
    VersionsGrow(ms, n);
  }

  /** One step of any runner keeps the prefix, and extends it by at most the next migration. */
  lemma StepKeepsPrefix<S>(ms: seq<Migration<S>>, initial: S, s: State<S>, e: Event, n: nat) returns (n': nat)
    requires Distinct(Versions(ms)) && Inv(ms, initial, s, n) && Enabled(ms, s, e)
    ensures n <= n' <= n + 1 && Inv(ms, initial, Next(ms, s, e), n')
    ensures n' == n + 1 <==> e.Commit?
  {
    var runner := s.runners[e.r];
    assert RunnerBehind(ms, runner, n);
    n' := n;
    if e.Commit? {
      SeenMeansPassed(ms, n, runner.next);
      assert runner.next == n;
      FoldExtends(ms, initial, n, s.db.schema);
      VersionsGrow(ms, n);
      n' := n + 1;
      forall r | 0 <= r < |s.runners| ensures RunnerBehind(ms, Next(ms, s, e).runners[r], n') {
        StillBehind(ms, s.runners[r], n);
      }
    } else if e.Skip? {
      SeenMeansPassed(ms, n, runner.next);
    }
  }

  ghost predicate Steps<S>(ms: seq<Migration<S>>, states: seq<State<S>>, events: seq<Event>) {
    && |states| == |events| + 1
    && forall i {:trigger events[i]} :: 0 <= i < |events| ==>
         Enabled(ms, states[i], events[i]) && states[i + 1] == Next(ms, states[i], events[i])
  }

  /** A behaviour of any number of runners, none of which has started. */
  ghost predicate Behaviour<S>(ms: seq<Migration<S>>, states: seq<State<S>>, events: seq<Event>) {
    && Steps(ms, states, events)
    && forall r :: 0 <= r < |states[0].runners| ==> states[0].runners[r].Stopped?
  }

  function Commits(events: seq<Event>): nat {
    if events == [] then 0 else Commits(events[..|events| - 1]) + (if events[|events| - 1].Commit? then 1 else 0)
  }

  lemma NoneStarted<S>(ms: seq<Migration<S>>, initial: S, n: nat, s: State<S>)
    requires AtPrefix(ms, initial, s.db, n)
    requires forall r :: 0 <= r < |s.runners| ==> s.runners[r].Stopped?
    ensures Inv(ms, initial, s, n)
  {
  }

  lemma CommitsGrow(events: seq<Event>, k: nat)
    requires k < |events|
    ensures Commits(events[..k + 1]) == Commits(events[..k]) + (if events[k].Commit? then 1 else 0)
  {
    assert events[..k + 1][..k] == events[..k];
  }

  lemma OneMoreStep<S>(ms: seq<Migration<S>>, initial: S, n0: nat, states: seq<State<S>>, events: seq<Event>, k: nat)
    requires Distinct(Versions(ms)) && Steps(ms, states, events) && k < |events|
    requires Inv(ms, initial, states[k], n0 + Commits(events[..k]))
    ensures Inv(ms, initial, states[k + 1], n0 + Commits(events[..k + 1]))
  {
    CommitsGrow(events, k);
    assert Enabled(ms, states[k], events[k]);
    var n := StepKeepsPrefix(ms, initial, states[k], events[k], n0 + Commits(events[..k]));
  }

  /**
   Exactly once, under crashes and concurrent runners: at every moment the recorded versions are a
   prefix of the list and the schema is the in-order effect of exactly that prefix. Each commit
   extends the prefix by one, so no version's effect is ever committed twice.
   */
  lemma {:induction false} ExactlyOnce<S>(ms: seq<Migration<S>>, initial: S, n0: nat,
                                          states: seq<State<S>>, events: seq<Event>, i: nat)
    requires Distinct(Versions(ms)) && Behaviour(ms, states, events) && i <= |events|
    requires AtPrefix(ms, initial, states[0].db, n0)
    ensures Inv(ms, initial, states[i], n0 + Commits(events[..i]))
  {
    if i == 0 {
      assert events[..0] == [];
      NoneStarted(ms, initial, n0, states[0]);
    } else {
      var k := i - 1;
      ExactlyOnce(ms, initial, n0, states, events, k);
      OneMoreStep(ms, initial, n0, states, events, k);
      assert k + 1 == i && events[..k + 1] == events[..i];
    }
  }

  /** Whoever finishes without an error has seen the whole list applied, whoever applied it. */
  lemma FinishedMeansComplete<S>(ms: seq<Migration<S>>, initial: S, n0: nat,
                                 states: seq<State<S>>, events: seq<Event>, i: nat, r: nat)
    requires Distinct(Versions(ms)) && Behaviour(ms, states, events) && i <= |events|
    requires AtPrefix(ms, initial, states[0].db, n0)
    requires r < |states[i].runners| && states[i].runners[r].Finished?
    ensures AtPrefix(ms, initial, states[i].db, |ms|)
  {
    ExactlyOnce(ms, initial, n0, states, events, i);
    assert RunnerBehind(ms, states[i].runners[r], n0 + Commits(events[..i]));
  }
}
