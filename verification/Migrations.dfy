/** The migration runner, alone and raced by others. */
module Migrations {
  import opened Jobs

  /** `log` lists the bodies whose transaction committed, in commit order; `recorded` is schema_migrations. */
  datatype Database = Database(recorded: set<string>, log: seq<string>)

  /** A runner holds the versions it read at the start and its place in the sorted file list. */
  datatype Runner = Runner(applied: set<string>, next: nat)

  datatype World = World(db: Database, runners: map<nat, Runner>)

  /**
   Begin reads schema_migrations. Skip passes a version the runner read as applied. Apply runs a body and
   records it in one transaction; the primary key makes that fail on a recorded version. Stop is a
   runner's end, by an error, a crash, or having reached the end of the list.
   */
  datatype Step = Begin(runner: nat) | Skip(runner: nat) | Apply(runner: nat) | Stop(runner: nat)

  predicate NoDuplicates(files: seq<string>) {
    forall i, j :: 0 <= i < j < |files| ==> files[i] != files[j]
  }

  function Recorded(db: Database, version: string): Database {
    Database(db.recorded + {version}, db.log + [version])
  }

  predicate Enabled(files: seq<string>, w: World, step: Step) {
    match step
    case Begin(r) => r !in w.runners
    case Skip(r) =>
      && r in w.runners && w.runners[r].next < |files|
      && files[w.runners[r].next] in w.runners[r].applied
    case Apply(r) =>
      && r in w.runners && w.runners[r].next < |files|
      && var version := files[w.runners[r].next];
         version !in w.runners[r].applied && version !in w.db.recorded
    case Stop(r) => r in w.runners
  }

  function After(files: seq<string>, w: World, step: Step): World
    requires Enabled(files, w, step)
  {
    match step
    case Begin(r) => w.(runners := w.runners[r := Runner(w.db.recorded, 0)])
    case Skip(r) => w.(runners := w.runners[r := w.runners[r].(next := w.runners[r].next + 1)])
    case Apply(r) =>
      World(Recorded(w.db, files[w.runners[r].next]),
            w.runners[r := w.runners[r].(next := w.runners[r].next + 1)])
    case Stop(r) => w.(runners := w.runners - {r})
  }

  ghost predicate Reaches(files: seq<string>, w: World, steps: seq<Step>, v: World)
    decreases steps
  {
    if steps == [] then v == w
    else Enabled(files, w, steps[0]) && Reaches(files, After(files, w, steps[0]), steps[1..], v)
  }

  const FRESH := World(Database({}, []), map[])

  /** The log is a prefix of the file list, and schema_migrations names exactly the bodies in it. */
  predicate IsPrefix(files: seq<string>, db: Database) {
    db.log <= files && db.recorded == set version | version in db.log
  }

  /** Everything a runner has passed is recorded, and so is everything it read. */
  ghost predicate RunnerOk(files: seq<string>, db: Database, r: Runner) {
    && r.applied <= db.recorded
    && r.next <= |files|
    && r.next <= |db.log|
  }

  ghost predicate Inv(files: seq<string>, w: World) {
    && IsPrefix(files, w.db)
    && forall r :: r in w.runners ==> RunnerOk(files, w.db, w.runners[r])
  }

  /** In a list without duplicates, a recorded version lies within the log, any other at or past its end. */
  lemma Position(files: seq<string>, db: Database, i: nat)
    requires NoDuplicates(files) && IsPrefix(files, db) && i < |files|
    ensures files[i] in db.recorded <==> i < |db.log|
  {
    if i < |db.log| {
      assert db.log[i] == files[i];
    } else {
      forall j | 0 <= j < |db.log| ensures db.log[j] != files[i] {
        assert db.log[j] == files[j];
      }
    }
  }

  lemma StepKeeps(files: seq<string>, w: World, step: Step)
    requires NoDuplicates(files) && Inv(files, w) && Enabled(files, w, step)
    ensures Inv(files, After(files, w, step))
  {
    var v := After(files, w, step);
    match step
    case Begin(r) =>
    case Skip(r) => Position(files, w.db, w.runners[r].next);
    case Apply(r) =>
      assert RunnerOk(files, w.db, w.runners[r]);
      Position(files, w.db, w.runners[r].next);
      assert w.runners[r].next == |w.db.log|;
      assert v.db.log == files[..|w.db.log| + 1];
      forall q | q in v.runners ensures RunnerOk(files, v.db, v.runners[q]) {
        if q != r { assert RunnerOk(files, w.db, w.runners[q]); }
      }
    case Stop(r) =>
  }

  lemma {:induction false} RunKeeps(files: seq<string>, w: World, steps: seq<Step>, v: World)
    requires NoDuplicates(files) && Inv(files, w) && Reaches(files, w, steps, v)
    ensures Inv(files, v) && w.db.log <= v.db.log
    decreases steps
  {
    if steps != [] {
      StepKeeps(files, w, steps[0]);
      RunKeeps(files, After(files, w, steps[0]), steps[1..], v);
    }
  }

  /**
   For a fixed file list, any number of runners and any crashes: what is recorded is always a prefix of
   the sorted list, and the body of each recorded version, and of no other, was committed exactly once.
   */
  lemma RecordedVersionsArePrefix(files: seq<string>, steps: seq<Step>, w: World, version: string)
    requires NoDuplicates(files) && Reaches(files, FRESH, steps, w)
    ensures w.db.log <= files
    ensures multiset(w.db.log)[version] == if version in w.db.recorded then 1 else 0
  {
    RunKeeps(files, FRESH, steps, w);
    PrefixCounts(files, w.db.log, version);
  }

  lemma {:induction false} PrefixCounts(files: seq<string>, log: seq<string>, version: string)
    requires NoDuplicates(files) && log <= files
    ensures multiset(log)[version] == if version in log then 1 else 0
  {
    if log != [] {
      var n := |log| - 1;
      PrefixCounts(files, log[..n], version);
      assert log == log[..n] + [log[n]];
      assert forall j :: 0 <= j < n ==> log[j] == files[j] && log[n] == files[n];
    }
  }

  datatype Result = Ok | Failed

  class Pool {
    var db: Database

    /** One migration in its own transaction; `commit` tells what became of it, a crash included. */
    method ApplyMigration(version: string, commit: Reply) returns (r: Result)
      modifies this
      ensures db == if version in old(db).recorded || commit == Refused then old(db) else Recorded(old(db), version)
      ensures r == Ok <==> version !in old(db).recorded && commit == Acked
    {
      if version in db.recorded || commit == Refused {
        return Failed;
      }
      db := Recorded(db, version);
      return if commit == Acked then Ok else Failed;
    }

    /**
     A whole run with nobody racing it; `commits(i)` is the fate of the i-th file's transaction. It applies
     files in order up to the first that fails, and reports success only once every file is recorded.
     */
    method RunMigrations(files: seq<string>, commits: nat -> Reply) returns (r: Result)
      requires NoDuplicates(files) && IsPrefix(files, db)
      modifies this
      ensures IsPrefix(files, db) && old(db).log <= db.log
      ensures r == Ok ==> db.log == files
      ensures r == Ok <==> forall i :: |old(db).log| <= i < |files| ==> commits(i) == Acked
      ensures r == Failed ==>
                exists k :: |old(db).log| <= k < |files| && commits(k) != Acked
                            && (forall i :: |old(db).log| <= i < k ==> commits(i) == Acked)
                            && db.log == files[..if commits(k) == Refused then k else k + 1]
      ensures old(db).log == files ==> r == Ok && db == old(db)
    {
      var applied := db.recorded;
      for i := 0 to |files|
        invariant IsPrefix(files, db) && old(db).log <= db.log
        invariant applied == old(db).recorded
        invariant |db.log| == if i <= |old(db).log| then |old(db).log| else i
        invariant forall j :: |old(db).log| <= j < i ==> commits(j) == Acked
      {
        Position(files, old(db), i);
        Position(files, db, i);
        if files[i] in applied {
          continue;
        }
        label before:
        r := ApplyMigration(files[i], commits(i));
        if db != old@before(db) {
          assert old@before(db).log + [files[i]] == files[..i + 1];
        }
        if r == Failed {
          return;
        }
      }
      return Ok;
    }
  }
}
