/** The schema migration runner: each migration in its own transaction, recorded under a primary key,
    with any number of servers starting, failing and restarting against one database. */
module Migrations {
  import opened Basics

  datatype Migration = Migration(version: string, body: string)

  /** The schema_migrations rows, in insertion order, and the schema itself. */
  datatype Database<S> = Database(applied: seq<string>, schema: S)

  /** Running a script against a schema; None when it fails. */
  type Script<!S> = (S, string) -> Option<S>

  ghost predicate DistinctVersions(ms: seq<Migration>) {
    forall i, j :: 0 <= i < j < |ms| ==> ms[i].version != ms[j].version
  }

  function Versions(ms: seq<Migration>): (vs: seq<string>) {
    seq(|ms|, i requires 0 <= i < |ms| => ms[i].version)
  }

  /** The scripts of a list run one after the other. */
  function Fold<S>(exec: Script<S>, initial: S, ms: seq<Migration>): (r: Option<S>) {
    if ms == [] then Some(initial)
    else
      match Fold(exec, initial, ms[..|ms| - 1])
      case None => None
      case Some(s) => exec(s, ms[|ms| - 1].body)
  }

  /** The applied versions are a prefix of the list, and the schema is the fold of that prefix. */
  ghost predicate DatabaseOk<S(!new)>(exec: Script<S>, initial: S, ms: seq<Migration>, db: Database<S>) {
    && |db.applied| <= |ms|
    && db.applied == Versions(ms)[..|db.applied|]
    && Fold(exec, initial, ms[..|db.applied|]) == Some(db.schema)
  }

  lemma AppliedIsPrefix(ms: seq<Migration>, k: nat, p: nat)
    requires DistinctVersions(ms) && k <= |ms| && p < |ms|
    ensures ms[p].version in Versions(ms)[..k] <==> p < k
  {
    if p < k { assert Versions(ms)[..k][p] == ms[p].version; }
  }

  /** Committing the next migration extends the prefix by one. */
  lemma CommitExtends<S(!new)>(exec: Script<S>, initial: S, ms: seq<Migration>, db: Database<S>, s': S)
    requires DatabaseOk(exec, initial, ms, db) && |db.applied| < |ms|
    requires exec(db.schema, ms[|db.applied|].body) == Some(s')
    ensures DatabaseOk(exec, initial, ms, Database(db.applied + [ms[|db.applied|].version], s'))
  {
    var k := |db.applied|;
    assert ms[..k + 1][..k] == ms[..k];
    assert Versions(ms)[..k + 1] == Versions(ms)[..k] + [ms[k].version];
  }

  // ---- which migrations, in which order ----

  const DIRECTORY := "migrations/"
  const SUFFIX := ".up.sql"

  function Path(version: string): (p: string) {
    DIRECTORY + version + SUFFIX
  }

  /** The paths the embedded directory is searched for. */
  predicate GlobMatch(path: string) {
    && |path| >= |DIRECTORY| + |SUFFIX|
    && path[..|DIRECTORY|] == DIRECTORY && path[|path| - |SUFFIX|..] == SUFFIX
  }

  function VersionOf(path: string): (v: string)
    requires GlobMatch(path)
    ensures Path(v) == path
  {
    path[|DIRECTORY|..|path| - |SUFFIX|]
  }

  /** Go's order on strings. */
  predicate Before(a: string, b: string) {
    b != "" && (a == "" || a[0] < b[0] || (a[0] == b[0] && Before(a[1..], b[1..])))
  }

  lemma {:induction false} BeforeIsTotal(a: string, b: string)
    ensures Before(a, b) || a == b || Before(b, a)
    ensures !(Before(a, b) && Before(b, a)) && !Before(a, a)
  {
    if a != "" { BeforeIsTotal(a[1..], a[1..]); }
    if a != "" && b != "" && a[0] == b[0] {
      BeforeIsTotal(a[1..], b[1..]);
      assert a == [a[0]] + a[1..] && b == [b[0]] + b[1..];
    }
  }

  lemma {:induction false} BeforeIsTransitive(a: string, b: string, c: string)
    requires Before(a, b) && Before(b, c)
    ensures Before(a, c)
  {
    if a != "" && a[0] == b[0] == c[0] { BeforeIsTransitive(a[1..], b[1..], c[1..]); }
  }

  ghost predicate Increasing(paths: seq<string>) {
    forall i, j :: 0 <= i < j < |paths| ==> Before(paths[i], paths[j])
  }

  /** `sort.Strings`, on the distinct names of a directory. */
  method SortPaths(entries: seq<string>) returns (sorted: seq<string>)
    requires Distinct(entries)
    ensures Increasing(sorted) && forall p :: p in sorted <==> p in entries
  {
    sorted := [];
    for k := 0 to |entries|
      invariant Increasing(sorted) && forall p :: p in sorted <==> p in entries[..k]
    {
      assert entries[k] !in entries[..k];
      assert entries[..k + 1] == entries[..k] + [entries[k]];
      sorted := InsertPath(sorted, entries[k]);
    }
    assert entries[..|entries|] == entries;
  }

  method InsertPath(sorted: seq<string>, p: string) returns (r: seq<string>)
    requires Increasing(sorted) && p !in sorted
    ensures Increasing(r) && forall q :: q in r <==> q in sorted || q == p
  {
    hide Before;
    var k := |sorted|;
    while k > 0 && Before(p, sorted[k - 1])
      invariant 0 <= k <= |sorted|
      invariant forall i :: k <= i < |sorted| ==> Before(p, sorted[i])
    {
      k := k - 1;
    }
    r := sorted[..k] + [p] + sorted[k..];
    assert sorted == sorted[..k] + sorted[k..];
    if k > 0 { BeforeIsTotal(p, sorted[k - 1]); }
    InsertedInOrder(sorted, p, k);
  }

  lemma InsertedInOrder(sorted: seq<string>, p: string, k: nat)
    requires k <= |sorted| && Increasing(sorted) && (k > 0 ==> Before(sorted[k - 1], p))
    requires forall i :: k <= i < |sorted| ==> Before(p, sorted[i])
    ensures Increasing(sorted[..k] + [p] + sorted[k..])
  {
    hide Before;
    forall i | 0 <= i < k ensures Before(sorted[i], p) {
      if i < k - 1 { BeforeIsTransitive(sorted[i], sorted[k - 1], p); }
    }
    var r := sorted[..k] + [p] + sorted[k..];
    assert forall i :: 0 <= i < |r| && i != k ==> r[i] == sorted[if i < k then i else i - 1];
  }

  /** The list is the files, each under its version, in path order. */
  ghost predicate IsPlan(files: map<string, string>, ms: seq<Migration>) {
    && Increasing(Paths(ms))
    && (forall p :: p in Paths(ms) <==> p in files)
    && (forall i :: 0 <= i < |ms| ==> Path(ms[i].version) in files && files[Path(ms[i].version)] == ms[i].body)
  }

  function Paths(ms: seq<Migration>): (ps: seq<string>) {
    seq(|ms|, i requires 0 <= i < |ms| => Path(ms[i].version))
  }

  /** Lists the embedded files in the order they are applied. */
  method ListMigrations(files: map<string, string>) returns (ms: seq<Migration>)
    requires forall p :: p in files ==> GlobMatch(p)
    ensures IsPlan(files, ms)
  {
    var found := IterationOrder(files);
    var sorted := SortPaths(found);
    ms := [];
    for k := 0 to |sorted|
      invariant Paths(ms) == sorted[..k]
      invariant forall i :: 0 <= i < |ms| ==> Path(ms[i].version) in files && files[Path(ms[i].version)] == ms[i].body
    {
      assert sorted[k] in found;
      ms := ms + [Migration(VersionOf(sorted[k]), files[sorted[k]])];
    }
    assert sorted[..|sorted|] == sorted;
  }

  lemma PlanHasDistinctVersions(files: map<string, string>, ms: seq<Migration>)
    requires IsPlan(files, ms)
    ensures DistinctVersions(ms)
  {
    forall i, j | 0 <= i < j < |ms| ensures ms[i].version != ms[j].version {
      assert Before(Paths(ms)[i], Paths(ms)[j]);
      BeforeIsTotal(Path(ms[i].version), Path(ms[i].version));
    }
  }

  lemma TailMembers(a: seq<string>, x: string)
    requires a != [] && Increasing(a)
    ensures x in a[1..] <==> x in a && x != a[0]
  {
    BeforeIsTotal(a[0], a[0]);
    if x in a[1..] {
      var i :| 0 <= i < |a[1..]| && a[1..][i] == x;
      assert Before(a[0], a[i + 1]);
    }
  }

  lemma SameFirst(a: seq<string>, b: seq<string>)
    requires a != [] && b != [] && Increasing(a) && Increasing(b) && forall x :: x in a <==> x in b
    ensures a[0] == b[0]
  {
    assert a[0] in b && b[0] in a;
    var i :| 0 <= i < |b| && b[i] == a[0];
    var j :| 0 <= j < |a| && a[j] == b[0];
    BeforeIsTotal(a[0], b[0]);
  }

  lemma {:induction false} IncreasingIsUnique(a: seq<string>, b: seq<string>)
    requires Increasing(a) && Increasing(b) && forall x :: x in a <==> x in b
    ensures a == b
  {
    assert a == [] <==> b == [] by {
      if a != [] { assert a[0] in a; }
      if b != [] { assert b[0] in b; }
    }
    if a != [] {
      SameFirst(a, b);
      forall x ensures x in a[1..] <==> x in b[1..] { TailMembers(a, x); TailMembers(b, x); }
      IncreasingIsUnique(a[1..], b[1..]);
      assert a == [a[0]] + a[1..] && b == [b[0]] + b[1..];
    }
  }

  /** Every server that starts with the same files plans the same migrations, each version once. */
  lemma PlanIsUnique(files: map<string, string>, a: seq<Migration>, b: seq<Migration>)
    requires IsPlan(files, a) && IsPlan(files, b)
    ensures a == b && DistinctVersions(a)
  {
    PlanHasDistinctVersions(files, a);
    IncreasingIsUnique(Paths(a), Paths(b));
    forall i | 0 <= i < |a| ensures a[i] == b[i] {
      assert Paths(a)[i] == Paths(b)[i];
      PathIdentifies(a[i].version, b[i].version);
    }
  }

  lemma PathIdentifies(v: string, w: string)
    requires Path(v) == Path(w)
    ensures v == w
  {
    var p := Path(v);
    assert p[|DIRECTORY|..|p| - |SUFFIX|] == v;
    assert p[|DIRECTORY|..|p| - |SUFFIX|] == w;
  }

  // ---- any number of runners ----

  type RunnerId = nat

  /** A runner is the index of the migration it looks at next; `completed` have returned without error. */
  datatype System<S> = System(db: Database<S>, runners: map<RunnerId, nat>, completed: set<RunnerId>)

  datatype Step =
    | Start(r: RunnerId)
    | Skip(r: RunnerId)             // the version is recorded
    | Commit(r: RunnerId)           // script and record committed together
    | CommitUnheard(r: RunnerId)    // committed, but the runner sees an error and gives up
    | Fail(r: RunnerId)             // any error before the commit: rolled back, the runner gives up
    | Return(r: RunnerId)

  /** The row's primary key refuses a version twice; a lookup error lets a runner try a migration that
      is already recorded, but not commit it. */
  predicate Legal<S>(exec: Script<S>, ms: seq<Migration>, sys: System<S>, s: Step) {
    match s
    case Start(r) => r !in sys.runners && r !in sys.completed
    case Skip(r) => r in sys.runners && sys.runners[r] < |ms| && ms[sys.runners[r]].version in sys.db.applied
    case Commit(r) => r in sys.runners && CanCommit(exec, ms, sys.db, sys.runners[r])
    case CommitUnheard(r) => r in sys.runners && CanCommit(exec, ms, sys.db, sys.runners[r])
    case Fail(r) => r in sys.runners
    case Return(r) => r in sys.runners && sys.runners[r] == |ms|
  }

  predicate CanCommit<S>(exec: Script<S>, ms: seq<Migration>, db: Database<S>, p: nat) {
    p < |ms| && ms[p].version !in db.applied && exec(db.schema, ms[p].body).Some?
  }

  function Committed<S>(exec: Script<S>, ms: seq<Migration>, db: Database<S>, p: nat): (db': Database<S>)
    requires CanCommit(exec, ms, db, p)
  {
    Database(db.applied + [ms[p].version], exec(db.schema, ms[p].body).value)
  }

  function Next<S>(exec: Script<S>, ms: seq<Migration>, sys: System<S>, s: Step): (sys': System<S>)
    requires Legal(exec, ms, sys, s)
  {
    match s
    case Start(r) => sys.(runners := sys.runners[r := 0])
    case Skip(r) => sys.(runners := sys.runners[r := sys.runners[r] + 1])
    case Commit(r) =>
      System(Committed(exec, ms, sys.db, sys.runners[r]), sys.runners[r := sys.runners[r] + 1], sys.completed)
    case CommitUnheard(r) => System(Committed(exec, ms, sys.db, sys.runners[r]), sys.runners - {r}, sys.completed)
    case Fail(r) => sys.(runners := sys.runners - {r})
    case Return(r) => sys.(runners := sys.runners - {r}, completed := sys.completed + {r})
  }

  predicate LegalRun<S>(exec: Script<S>, ms: seq<Migration>, sys: System<S>, run: seq<Step>)
    decreases |run|
  {
    run == [] || (Legal(exec, ms, sys, run[0]) && LegalRun(exec, ms, Next(exec, ms, sys, run[0]), run[1..]))
  }

  function After<S>(exec: Script<S>, ms: seq<Migration>, sys: System<S>, run: seq<Step>): (sys': System<S>)
    requires LegalRun(exec, ms, sys, run)
    decreases |run|
  {
    if run == [] then sys else After(exec, ms, Next(exec, ms, sys, run[0]), run[1..])
  }

  /** Runners never get ahead of the recorded prefix, and one that completed saw it all recorded. */
  ghost predicate SystemOk<S(!new)>(exec: Script<S>, initial: S, ms: seq<Migration>, sys: System<S>) {
    && DatabaseOk(exec, initial, ms, sys.db)
    && (forall r :: r in sys.runners ==> sys.runners[r] <= |sys.db.applied|)
    && (sys.completed != {} ==> |sys.db.applied| == |ms|)
  }

  lemma NextKeeps<S(!new)>(exec: Script<S>, initial: S, ms: seq<Migration>, sys: System<S>, s: Step)
    requires DistinctVersions(ms) && SystemOk(exec, initial, ms, sys) && Legal(exec, ms, sys, s)
    ensures SystemOk(exec, initial, ms, Next(exec, ms, sys, s))
    ensures sys.db.applied <= Next(exec, ms, sys, s).db.applied
    ensures |sys.db.applied| == |ms| ==> Next(exec, ms, sys, s).db == sys.db
  {
    hide Fold;
    if !s.Start? && sys.runners[s.r] < |ms| {
      var p := sys.runners[s.r];
      AppliedIsPrefix(ms, |sys.db.applied|, p);
      if CanCommit(exec, ms, sys.db, p) {
        CommitExtends(exec, initial, ms, sys.db, exec(sys.db.schema, ms[p].body).value);
      }
    }
  }

  lemma {:induction false} RunKeeps<S(!new)>(exec: Script<S>, initial: S, ms: seq<Migration>, sys: System<S>, run: seq<Step>)
    requires DistinctVersions(ms) && SystemOk(exec, initial, ms, sys) && LegalRun(exec, ms, sys, run)
    ensures SystemOk(exec, initial, ms, After(exec, ms, sys, run))
    ensures sys.db.applied <= After(exec, ms, sys, run).db.applied
    ensures |sys.db.applied| == |ms| ==> After(exec, ms, sys, run).db == sys.db
    decreases |run|
  {
    hide SystemOk, Next;
    if run != [] {
      NextKeeps(exec, initial, ms, sys, run[0]);
      RunKeeps(exec, initial, ms, Next(exec, ms, sys, run[0]), run[1..]);
    }
  }

  /** From an empty database, through any history of concurrent starts, crashes and restarts: the
      applied versions are a prefix of the list and the schema is the fold of that prefix; once some
      runner has returned, each migration has been applied exactly once, in order; and from then on
      nothing changes. */
  lemma MigrationsConverge<S(!new)>(exec: Script<S>, initial: S, ms: seq<Migration>, before: seq<Step>, after: seq<Step>)
    requires DistinctVersions(ms)
    requires var start := System(Database([], initial), map[], {});
             LegalRun(exec, ms, start, before) && LegalRun(exec, ms, After(exec, ms, start, before), after)
    ensures var sys := After(exec, ms, System(Database([], initial), map[], {}), before);
            var sys' := After(exec, ms, sys, after);
            && sys.db.applied <= Versions(ms)
            && Fold(exec, initial, ms[..|sys.db.applied|]) == Some(sys.db.schema)
            && sys.db.applied <= sys'.db.applied
            && (sys.completed != {} ==> sys.db.applied == Versions(ms) && Fold(exec, initial, ms) == Some(sys.db.schema) && sys'.db == sys.db)
  {
    var start := System(Database([], initial), map[], {});
    assert ms[..0] == [];
    RunKeeps(exec, initial, ms, start, before);
    var sys := After(exec, ms, start, before);
    RunKeeps(exec, initial, ms, sys, after);
    assert ms[..|ms|] == ms && Versions(ms)[..|ms|] == Versions(ms);
  }

  /** A runner that gives up leaves the database as its last commit left it, and is gone. */
  lemma GivingUp<S(!new)>(exec: Script<S>, ms: seq<Migration>, sys: System<S>, s: Step)
    requires Legal(exec, ms, sys, s) && (s.Fail? || s.CommitUnheard?)
    ensures var sys' := Next(exec, ms, sys, s);
            && s.r !in sys'.runners && sys'.completed == sys.completed
            && (s.Fail? ==> sys'.db == sys.db)
            && (s.CommitUnheard? ==> |sys'.db.applied| == |sys.db.applied| + 1)
  {
  }

  /** One more step in front of a run. */
  lemma Prepended<S(!new)>(exec: Script<S>, ms: seq<Migration>, sys: System<S>, s: Step, rest: seq<Step>)
    requires Legal(exec, ms, sys, s) && LegalRun(exec, ms, Next(exec, ms, sys, s), rest)
    ensures LegalRun(exec, ms, sys, [s] + rest) && After(exec, ms, sys, [s] + rest) == After(exec, ms, Next(exec, ms, sys, s), rest)
  {
    hide Legal, Next;
    assert ([s] + rest)[1..] == rest;
  }

  /** If the scripts run, a runner left to itself comes to its end from wherever it is, and the others stay
      where they are. */
  lemma {:induction false} RunnerFinishes<S(!new)>(exec: Script<S>, initial: S, ms: seq<Migration>, sys: System<S>, r: RunnerId) returns (run: seq<Step>)
    requires DistinctVersions(ms) && Fold(exec, initial, ms).Some? && SystemOk(exec, initial, ms, sys) && r in sys.runners
    ensures LegalRun(exec, ms, sys, run)
    ensures var sys' := After(exec, ms, sys, run); sys'.completed == sys.completed + {r} && sys'.runners == sys.runners - {r}
    decreases |ms| - sys.runners[r]
  {
    hide Fold;
    var p := sys.runners[r];
    var s := Return(r);
    if p < |ms| {
      AppliedIsPrefix(ms, |sys.db.applied|, p);
      s := Skip(r);
      if p == |sys.db.applied| {
        NextScriptRuns(exec, initial, ms, sys.db);
        s := Commit(r);
      }
      NextKeeps(exec, initial, ms, sys, s);
      var next := Next(exec, ms, sys, s);
      assert next.runners - {r} == sys.runners - {r} && next.completed == sys.completed;
      hide Next, SystemOk;
      run := RunnerFinishes(exec, initial, ms, next, r);
    } else {
      run := [];
    }
    Prepended(exec, ms, sys, s, run);
    run := [s] + run;
  }

  /** So a server that starts against a database left by any history can complete it. */
  lemma RestartCompletes<S(!new)>(exec: Script<S>, initial: S, ms: seq<Migration>, before: seq<Step>, r: RunnerId) returns (run: seq<Step>)
    requires DistinctVersions(ms) && Fold(exec, initial, ms).Some?
    requires var start := System(Database([], initial), map[], {});
             LegalRun(exec, ms, start, before) && r !in After(exec, ms, start, before).runners && r !in After(exec, ms, start, before).completed
    ensures var sys := After(exec, ms, System(Database([], initial), map[], {}), before);
            LegalRun(exec, ms, sys, run) && r in After(exec, ms, sys, run).completed
  {
    var start := System(Database([], initial), map[], {});
    assert ms[..0] == [];
    RunKeeps(exec, initial, ms, start, before);
    var sys := After(exec, ms, start, before);
    NextKeeps(exec, initial, ms, sys, Start(r));
    var next := Next(exec, ms, sys, Start(r));
    assert r in next.runners;
    hide SystemOk, Next, LegalRun, After;
    run := RunnerFinishes(exec, initial, ms, next, r);
    Prepended(exec, ms, sys, Start(r), run);
    run := [Start(r)] + run;
  }

  // ---- one runner, as written ----

  /** What goes wrong at one migration. */
  datatype Fault = NoFault | QueryError | BeginError | CommitError(landed: bool)

  class Store<S> {
    var db: Database<S>

    constructor (db: Database<S>)
      ensures this.db == db
    {
      this.db := db;
    }
  }

  /** `applyMigrations` on the embedded files: it leaves a prefix of the one plan those files have,
      and all of it when it succeeds. */
  method ApplyMigrations<S(!new)>(exec: Script<S>, ghost initial: S, files: map<string, string>, store: Store<S>, faults: nat -> Fault)
      returns (ok: bool, ghost ms: seq<Migration>)
    requires forall p :: p in files ==> GlobMatch(p)
    requires forall plan :: IsPlan(files, plan) ==> DatabaseOk(exec, initial, plan, store.db)
    modifies store
    ensures IsPlan(files, ms)
    ensures DatabaseOk(exec, initial, ms, store.db) && old(store.db.applied) <= store.db.applied
    ensures ok ==> store.db.applied == Versions(ms) && Fold(exec, initial, ms) == Some(store.db.schema)
    ensures |old(store.db.applied)| == |ms| ==> store.db == old(store.db)
    ensures (forall i: nat :: faults(i) == NoFault) && Fold(exec, initial, ms).Some? ==> ok
  {
    hide IsPlan, DatabaseOk, Fold;
    var plan := ListMigrations(files);
    ms := plan;
    PlanHasDistinctVersions(files, ms);
    ok := ApplyInOrder(exec, initial, plan, store, faults);
  }

  /** The loop over the sorted list: a lookup that fails is taken for "not applied", and the primary key then stops
      the duplicate.  Whatever fails, the database stays a prefix; success means all of it; and on a
      complete database nothing changes. */
  method ApplyInOrder<S(!new)>(exec: Script<S>, ghost initial: S, ms: seq<Migration>, store: Store<S>, faults: nat -> Fault) returns (ok: bool)
    requires DistinctVersions(ms) && DatabaseOk(exec, initial, ms, store.db)
    modifies store
    ensures DatabaseOk(exec, initial, ms, store.db) && old(store.db.applied) <= store.db.applied
    ensures ok ==> store.db.applied == Versions(ms) && Fold(exec, initial, ms) == Some(store.db.schema)
    ensures |old(store.db.applied)| == |ms| ==> store.db == old(store.db)
    ensures (forall i: nat :: faults(i) == NoFault) && Fold(exec, initial, ms).Some? ==> ok
  {
    for k := 0 to |ms|
      invariant DatabaseOk(exec, initial, ms, store.db) && old(store.db.applied) <= store.db.applied
      invariant k <= |store.db.applied|
      invariant |old(store.db.applied)| == |ms| ==> store.db == old(store.db)
    {
      hide Fold;
      var m, fault := ms[k], faults(k);
      AppliedIsPrefix(ms, |store.db.applied|, k);
      if fault != QueryError && m.version in store.db.applied { continue; }
      if fault == BeginError { return false; }
      var ran := exec(store.db.schema, m.body);
      if ran.None? {
        if |store.db.applied| == k { NextScriptRuns(exec, initial, ms, store.db); }
        return false;
      }
      if m.version in store.db.applied { return false; }
      CommitExtends(exec, initial, ms, store.db, ran.value);
      if fault == CommitError(false) { return false; }
      store.db := Database(store.db.applied + [m.version], ran.value);
      if fault == CommitError(true) { return false; }
    }
    assert ms[..|ms|] == ms && Versions(ms)[..|ms|] == Versions(ms);
    return true;
  }

  /** If the whole list folds, so does every prefix, and the next script runs. */
  lemma {:induction false} PrefixFolds<S(!new)>(exec: Script<S>, initial: S, ms: seq<Migration>, k: nat)
    requires Fold(exec, initial, ms).Some? && k <= |ms|
    ensures Fold(exec, initial, ms[..k]).Some?
    decreases |ms|
  {
    if k == |ms| {
      assert ms[..k] == ms;
    } else {
      PrefixFolds(exec, initial, ms[..|ms| - 1], k);
      assert ms[..|ms| - 1][..k] == ms[..k];
    }
  }

  lemma NextScriptRuns<S(!new)>(exec: Script<S>, initial: S, ms: seq<Migration>, db: Database<S>)
    requires DatabaseOk(exec, initial, ms, db) && |db.applied| < |ms|
    ensures Fold(exec, initial, ms).Some? ==> exec(db.schema, ms[|db.applied|].body).Some?
  {
    if Fold(exec, initial, ms).Some? {
      var k := |db.applied|;
      PrefixFolds(exec, initial, ms, k + 1);
      assert ms[..k + 1][..k] == ms[..k];
    }
  }
}
