/**
 * The schema-migration runner of migrations.go. The `schema_version` table is
 * a map from version to recorded outcome; a migration's effect on the
 * database is abstract, known only by whether it fails and with what error.
 */
module Migrations {
  import opened Wrappers
  import opened Sequences

  /** A named step; `failure` is the error its migration function returns, if any. */
  datatype Migration = Migration(version: string, failure: Option<string>)

  type VersionTable = map<string, bool>

  /** The result of a whole run: its error, the table afterwards, and the log lines. */
  datatype RunResult = RunResult(err: Option<string>, table: VersionTable, log: seq<string>)

  function FailedBefore(version: string): string {
    "Migration " + version + " failed before. Manual cleanup required"
  }

  function RunningLine(version: string): string {
    "Running migration: " + version
  }

  /**
   * `hasRun`: no row means not run yet; a row recorded false is an error
   * that demands manual cleanup.
   */
  function HasRun(m: Migration, table: VersionTable): (r: (Option<string>, bool))
    ensures m.version !in table ==> r == (None, false)
    ensures m.version in table && table[m.version] ==> r == (None, true)
    ensures m.version in table && !table[m.version] ==> r == (Some(FailedBefore(m.version)), false)
  {
    if m.version !in table then (None, false)
    else if table[m.version] then (None, true)
    else (Some(FailedBefore(m.version)), false)
  }

  /**
   * `setStatus`: inserts the row for this migration. The version is the
   * table's primary key, and `Run` inserts only after `hasRun` found no row.
   */
  function SetStatus(m: Migration, table: VersionTable, status: bool): (t: VersionTable)
    requires m.version !in table
    ensures t.Keys == table.Keys + {m.version} && t[m.version] == status
    ensures forall v :: v in table && v != m.version ==> t[v] == table[v]
  {
    table[m.version := status]
  }

  /** What `Run` does from migration `ms[0]` on, once the version table exists. */
  function RunFrom(ms: seq<Migration>, table: VersionTable): (r: RunResult)
    ensures |r.log| <= |ms|
  {
    if ms == [] then RunResult(None, table, [])
    else
      var m := ms[0];
      match HasRun(m, table)
      case (Some(e), _) => RunResult(Some(e), table, [])
      case (None, true) => RunFrom(ms[1..], table)
      case (None, false) =>
        match m.failure
        case Some(e) => RunResult(Some(e), SetStatus(m, table, false), [RunningLine(m.version)])
        case None =>
          var rest := RunFrom(ms[1..], SetStatus(m, table, true));
          RunResult(rest.err, rest.table, [RunningLine(m.version)] + rest.log)
  }

  /** `Run`: `createErr` is the outcome of creating the version table if it is missing. */
  function RunAll(ms: seq<Migration>, createErr: Option<string>, table: VersionTable): (r: RunResult)
    ensures createErr.Some? ==> r == RunResult(createErr, table, [])
    ensures createErr.None? ==> r == RunFrom(ms, table)
  {
    if createErr.Some? then RunResult(createErr, table, []) else RunFrom(ms, table)
  }

  /** The log a run would print if it executed every migration of `ms`. */
  function Lines(ms: seq<Migration>): seq<string> {
    if ms == [] then [] else [RunningLine(ms[0].version)] + Lines(ms[1..])
  }

  class Migrations {
    var migrations: seq<Migration>

    /** `NewMigrations`: nothing registered yet. */
    constructor ()
      ensures migrations == []
    {
      migrations := [];
    }

    /** Appends in call order. */
    method Register(version: string, failure: Option<string>)
      modifies this
      ensures migrations == old(migrations) + [Migration(version, failure)]
    {
      migrations := migrations + [Migration(version, failure)];
    }

    /**
     * Visits the migrations in order: skips those recorded true, stops at one
     * recorded false, runs the rest and records each outcome, stopping at the
     * first that fails.
     */
    method Run(createErr: Option<string>, table: VersionTable)
      returns (err: Option<string>, table': VersionTable, log: seq<string>)
      ensures RunResult(err, table', log) == RunAll(migrations, createErr, table)
    {
      if createErr.Some? {
        return createErr, table, [];
      }
      table', log := table, [];
      var i := 0;
      while i < |migrations|
        invariant 0 <= i <= |migrations|
        invariant var rest := RunFrom(migrations[i..], table');
                  RunFrom(migrations, table) == RunResult(rest.err, rest.table, log + rest.log)
      {
        var m := migrations[i];
        assert migrations[i..][1..] == migrations[i + 1..];
        var (mErr, ok) := HasRun(m, table');
        if mErr.Some? {
          return mErr, table', log;
        }
        if !ok {
          log := log + [RunningLine(m.version)];
          if m.failure.Some? {
            table' := SetStatus(m, table', false);
            return m.failure, table', log;
          }
          table' := SetStatus(m, table', true);
        }
        i := i + 1;
      }
      err := None;
    }
  }

  /** A run never rewrites a recorded outcome: it only adds rows. */
  lemma {:induction false} RunKeepsRecords(ms: seq<Migration>, table: VersionTable)
    ensures var r := RunFrom(ms, table);
            table.Keys <= r.table.Keys && forall v :: v in table ==> r.table[v] == table[v]
  {
    if ms != [] {
      var m := ms[0];
      if m.version !in table && m.failure.None? {
        RunKeepsRecords(ms[1..], SetStatus(m, table, true));
      } else if m.version in table && table[m.version] {
        RunKeepsRecords(ms[1..], table);
      }
    }
  }

  /**
   * Every migration executed in a run is recorded in the table it leaves,
   * and the log shows executions in registration order.
   */
  lemma {:induction false} RunLogsRecorded(ms: seq<Migration>, table: VersionTable)
    ensures var r := RunFrom(ms, table);
            && IsSubsequence(r.log, Lines(ms))
            && forall m :: m in ms && RunningLine(m.version) in r.log ==> m.version in r.table
  {
    if ms != [] {
      var m := ms[0];
      var r := RunFrom(ms, table);
      if m.version !in table && m.failure.None? {
        var t := SetStatus(m, table, true);
        RunLogsRecorded(ms[1..], t);
        RunKeepsRecords(ms[1..], t);
        assert r.log == [RunningLine(m.version)] + RunFrom(ms[1..], t).log;
        forall m' | m' in ms && RunningLine(m'.version) in r.log
          ensures m'.version in r.table
        {
          LineInjective(m'.version, m.version);
          assert m' == m || m' in ms[1..];
        }
      } else if m.version !in table {
        forall m' | m' in ms && RunningLine(m'.version) in r.log
          ensures m'.version in r.table
        {
          LineInjective(m'.version, m.version);
        }
      } else if table[m.version] {
        RunLogsRecorded(ms[1..], table);
        RunKeepsRecords(ms[1..], table);
        assert r == RunFrom(ms[1..], table);
        SkipKeepsSubsequence(r.log, RunningLine(m.version), Lines(ms[1..]));
        assert forall m' :: m' in ms ==> m' == m || m' in ms[1..];
      }
    }
  }

  lemma {:induction false} SkipKeepsSubsequence(a: seq<string>, x: string, b: seq<string>)
    requires IsSubsequence(a, b)
    ensures IsSubsequence(a, [x] + b)
    decreases |b|, 1
  {
    assert ([x] + b)[1..] == b;
    if a != [] && a[0] == x {
      DropHeadKeepsSubsequence(a, b);
    }
  }

  lemma {:induction false} DropHeadKeepsSubsequence(a: seq<string>, b: seq<string>)
    requires a != [] && IsSubsequence(a, b)
    ensures IsSubsequence(a[1..], b)
    decreases |b|, 0
  {
    if a[0] != b[0] {
      DropHeadKeepsSubsequence(a, b[1..]);
      SkipKeepsSubsequence(a[1..], b[0], b[1..]);
      assert [b[0]] + b[1..] == b;
    } else {
      SkipKeepsSubsequence(a[1..], b[0], b[1..]);
      assert [b[0]] + b[1..] == b;
    }
  }

  /** A successful run leaves every registered migration recorded as succeeded. */
  lemma {:induction false} SuccessRecordsAll(ms: seq<Migration>, table: VersionTable)
    requires RunFrom(ms, table).err.None?
    ensures forall m :: m in ms ==> m.version in RunFrom(ms, table).table && RunFrom(ms, table).table[m.version]
  {
    if ms != [] {
      var m := ms[0];
      var t := if m.version in table then table else SetStatus(m, table, true);
      RunKeepsRecords(ms[1..], t);
      SuccessRecordsAll(ms[1..], t);
      assert forall m' :: m' in ms ==> m' == m || m' in ms[1..];
    }
  }

  /** Running again after a successful run executes nothing and changes nothing. */
  lemma {:induction false} RunIdempotent(ms: seq<Migration>, table: VersionTable)
    requires RunFrom(ms, table).err.None?
    ensures var again := RunFrom(ms, RunFrom(ms, table).table);
            again == RunResult(None, RunFrom(ms, table).table, [])
  {
    SuccessRecordsAll(ms, table);
    AllRecordedRunsNothing(ms, RunFrom(ms, table).table);
  }

  lemma {:induction false} AllRecordedRunsNothing(ms: seq<Migration>, table: VersionTable)
    requires forall m :: m in ms ==> m.version in table && table[m.version]
    ensures RunFrom(ms, table) == RunResult(None, table, [])
  {
    if ms != [] {
      assert ms[0] in ms;
      assert forall m :: m in ms[1..] ==> m in ms;
      AllRecordedRunsNothing(ms[1..], table);
    }
  }

  /**
   * A version recorded as failed blocks the run: it fails, and only
   * migrations before that version can have executed.
   */
  lemma {:induction false} RecordedFailureBlocks(ms: seq<Migration>, table: VersionTable, k: nat)
    requires k < |ms| && ms[k].version in table && !table[ms[k].version]
    ensures RunFrom(ms, table).err.Some?
    ensures IsSubsequence(RunFrom(ms, table).log, Lines(ms[..k]))
  {
    var m := ms[0];
    var r := RunFrom(ms, table);
    if k == 0 {
      assert r.log == [];
    } else {
      assert ms[..k][1..] == ms[1..][..k - 1];
      assert Lines(ms[..k]) == [RunningLine(m.version)] + Lines(ms[1..][..k - 1]);
      if m.version in table && table[m.version] {
        RecordedFailureBlocks(ms[1..], table, k - 1);
        assert r == RunFrom(ms[1..], table);
        SkipKeepsSubsequence(r.log, RunningLine(m.version), Lines(ms[1..][..k - 1]));
      } else if m.version !in table && m.failure.None? {
        var t := SetStatus(m, table, true);
        assert ms[k].version != m.version;
        RecordedFailureBlocks(ms[1..], t, k - 1);
        assert r.log == [RunningLine(m.version)] + RunFrom(ms[1..], t).log;
        assert r.log[1..] == RunFrom(ms[1..], t).log;
      } else if m.version !in table {
        assert r.log == [RunningLine(m.version)];
        assert r.log[1..] == [];
      } else {
        assert r.log == [];
      }
    }
  }

  /**
   * When every migration before a version recorded as failed is recorded as
   * succeeded, the run fails with "Migration <v> failed before. Manual cleanup
   * required", executes nothing and changes nothing.
   */
  lemma {:induction false} RecordedFailureMessage(ms: seq<Migration>, table: VersionTable, k: nat)
    requires k < |ms| && ms[k].version in table && !table[ms[k].version]
    requires forall i :: 0 <= i < k ==> ms[i].version in table && table[ms[i].version]
    ensures RunFrom(ms, table) == RunResult(Some(FailedBefore(ms[k].version)), table, [])
  {
    if k > 0 {
      RecordedFailureMessage(ms[1..], table, k - 1);
    }
  }

  /**
   * A successful run executes every migration that had no row: "apply each
   * pending step" as well as "skip each recorded one".
   */
  lemma {:induction false} SuccessExecutesPending(ms: seq<Migration>, table: VersionTable)
    requires RunFrom(ms, table).err.None?
    ensures forall m :: m in ms && m.version !in table ==> RunningLine(m.version) in RunFrom(ms, table).log
  {
    if ms != [] {
      var m := ms[0];
      var r := RunFrom(ms, table);
      assert forall m' :: m' in ms ==> m' == m || m' in ms[1..];
      if m.version in table {
        SuccessExecutesPending(ms[1..], table);
        assert r == RunFrom(ms[1..], table);
      } else {
        var t := SetStatus(m, table, true);
        SuccessExecutesPending(ms[1..], t);
        assert r.log == [RunningLine(m.version)] + RunFrom(ms[1..], t).log;
        assert forall m' :: m' in ms[1..] && m'.version !in table && m'.version != m.version ==> m'.version !in t;
      }
    }
  }

  /**
   * A run splits at any point the prefix gets past: the whole run is the
   * prefix's run followed by the rest run on the table the prefix left.
   */
  lemma {:induction false} RunSplits(ms: seq<Migration>, table: VersionTable, k: nat)
    requires k <= |ms| && RunFrom(ms[..k], table).err.None?
    ensures var p := RunFrom(ms[..k], table);
            var q := RunFrom(ms[k..], p.table);
            RunFrom(ms, table) == RunResult(q.err, q.table, p.log + q.log)
  {
    if k == 0 {
      assert ms[..0] == [] && ms[0..] == ms;
    } else {
      var m := ms[0];
      var prefix := ms[..k];
      assert prefix[0] == m && prefix[1..] == ms[1..][..k - 1];
      assert ms[1..][k - 1..] == ms[k..];
      if m.version in table && table[m.version] {
        SkipStep(prefix, table);
        SkipStep(ms, table);
        RunSplits(ms[1..], table, k - 1);
      } else {
        HeadPasses(prefix, table);
        var t := SetStatus(m, table, true);
        ExecuteStep(prefix, table);
        ExecuteStep(ms, table);
        RunSplits(ms[1..], t, k - 1);
        var p' := RunFrom(ms[1..][..k - 1], t);
        var q := RunFrom(ms[k..], p'.table);
        assert [RunningLine(m.version)] + (p'.log + q.log) == ([RunningLine(m.version)] + p'.log) + q.log;
      }
    }
  }

  /** In a run that does not fail, a head not recorded as succeeded has no row and succeeds. */
  lemma HeadPasses(ms: seq<Migration>, table: VersionTable)
    requires ms != [] && RunFrom(ms, table).err.None?
    requires !(ms[0].version in table && table[ms[0].version])
    ensures ms[0].version !in table && ms[0].failure.None?
  {
  }

  /** A head recorded as succeeded is skipped. */
  lemma SkipStep(ms: seq<Migration>, table: VersionTable)
    requires ms != [] && ms[0].version in table && table[ms[0].version]
    ensures RunFrom(ms, table) == RunFrom(ms[1..], table)
  {
  }

  /** A head with no row that succeeds is logged, recorded true, and the run goes on. */
  lemma ExecuteStep(ms: seq<Migration>, table: VersionTable)
    requires ms != [] && ms[0].version !in table && ms[0].failure.None?
    ensures var rest := RunFrom(ms[1..], SetStatus(ms[0], table, true));
            RunFrom(ms, table) == RunResult(rest.err, rest.table, [RunningLine(ms[0].version)] + rest.log)
  {
  }

  /**
   * Within one run each version executes at most once, whether or not the
   * registered versions are distinct; and nothing logged was already recorded.
   */
  lemma {:induction false} RunExecutesOnce(ms: seq<Migration>, table: VersionTable)
    ensures var log := RunFrom(ms, table).log;
            && (forall i, k :: 0 <= i < k < |log| ==> log[i] != log[k])
            && (forall v :: v in table ==> RunningLine(v) !in log)
  {
    if ms != [] {
      var m := ms[0];
      if m.version !in table && m.failure.None? {
        var t := SetStatus(m, table, true);
        RunExecutesOnce(ms[1..], t);
        var log := RunFrom(ms, table).log;
        assert log == [RunningLine(m.version)] + RunFrom(ms[1..], t).log;
        forall v | v in table
          ensures RunningLine(v) !in log
        {
          LineInjective(v, m.version);
        }
      } else if m.version in table && table[m.version] {
        RunExecutesOnce(ms[1..], table);
        assert RunFrom(ms, table) == RunFrom(ms[1..], table);
      } else if m.version !in table {
        forall v | v in table
          ensures RunningLine(v) != RunningLine(m.version)
        {
          LineInjective(v, m.version);
        }
      }
    }
  }

  lemma LineInjective(v: string, w: string)
    ensures RunningLine(v) == RunningLine(w) ==> v == w
  {
    var p := "Running migration: ";
    if RunningLine(v) == RunningLine(w) {
      assert v == RunningLine(v)[|p|..];
      assert w == RunningLine(w)[|p|..];
    }
  }

  /**
   * Across a run and any later one, successful or not, no version executes
   * twice: in particular a migration that failed is never silently retried.
   */
  lemma AtMostOnceOverall(ms: seq<Migration>, table: VersionTable, later: seq<Migration>)
    ensures var first := RunFrom(ms, table);
            forall m :: m in ms && RunningLine(m.version) in first.log ==>
              RunningLine(m.version) !in RunFrom(later, first.table).log
  {
    var first := RunFrom(ms, table);
    RunLogsRecorded(ms, table);
    RunExecutesOnce(later, first.table);
  }

  /**
   * When a migration with no row fails after the migrations before it got
   * through, whether they executed in this run or were recorded already, that
   * is the end of the run: it is recorded as failed, its error is returned,
   * and nothing after it is attempted.
   */
  lemma {:induction false} ExecutionFailureStops(ms: seq<Migration>, table: VersionTable, k: nat)
    requires k < |ms| && RunFrom(ms[..k], table).err.None?
    requires ms[k].version !in RunFrom(ms[..k], table).table && ms[k].failure.Some?
    ensures var p := RunFrom(ms[..k], table);
            RunFrom(ms, table) ==
            RunResult(ms[k].failure, p.table[ms[k].version := false], p.log + [RunningLine(ms[k].version)])
  {
    RunSplits(ms, table, k);
    assert ms[k..][0] == ms[k];
  }
}
