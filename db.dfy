/**
 * The run ledger: two tables, `runs` keyed by run id and `iterations` keyed by
 * (run id, iteration), held as maps. Each mutating call is also described by an `Op`
 * value, so that callers can state the order of ledger updates.
 */
module Db {

  datatype RunRow = RunRow(goal: string, status: string, createdAt: string, updatedAt: string)

  datatype IterationRow = IterationRow(status: string, createdAt: string)

  /** Whether the tables exist, and their rows. */
  datatype Tables = Tables(initialized: bool, runs: map<string, RunRow>, iterations: map<(string, int), IterationRow>)

  /** One ledger call: `initDb`, `upsertRun` or `addIteration`, with the clock reading it stores. */
  datatype Op =
    | CreateTables
    | UpsertRunOp(runId: string, goal: string, status: string, now: string)
    | AddIterationOp(runId: string, iteration: int, status: string, now: string)

  /** The iteration numbers recorded for one run. */
  function IterationsOf(iterations: map<(string, int), IterationRow>, runId: string): set<int> {
    set k | k in iterations && k.0 == runId :: k.1
  }

  /** A finite set of integers holding `y` has a largest element. */
  lemma {:induction false} MaxExists(s: set<int>, y: int)
    requires y in s
    ensures exists m :: m in s && forall x :: x in s ==> x <= m
    decreases |s|
  {
    var rest := s - {y};
    if z :| z in rest {
      MaxExists(rest, z);
      var m :| m in rest && forall x :: x in rest ==> x <= m;
      var top := if y > m then y else m;
      forall x | x in s
        ensures x <= top
      {
        if x != y {
          assert x in rest;
        }
      }
      assert top in s;
    } else {
      assert forall x :: x in s ==> x == y || x in rest;
    }
  }

  /** Some row of the iterations table belongs to `runId`. */
  predicate HasIterations(iterations: map<(string, int), IterationRow>, runId: string) {
    exists k :: k in iterations && k.0 == runId
  }

  /**
   * `SELECT MAX(iteration) FROM iterations WHERE run_id = ?`, with -1 for no rows:
   * the largest iteration recorded for the run, rows of other runs ignored.
   */
  function Latest(iterations: map<(string, int), IterationRow>, runId: string): (r: int)
    ensures !HasIterations(iterations, runId) ==> r == -1
    ensures HasIterations(iterations, runId) ==>
              (runId, r) in iterations && forall k :: k in iterations && k.0 == runId ==> k.1 <= r
  {
    if k :| k in iterations && k.0 == runId then
      var its := set k | k in iterations && k.0 == runId :: k.1;
      MaxExists(its, k.1);
      var m :| m in its && forall x :: x in its ==> x <= m;
      assert forall k :: k in iterations && k.0 == runId ==> k.1 in its;
      m
    else
      -1
  }

  /** Recording an iteration of another run does not move a run's latest iteration. */
  lemma LatestIgnoresOtherRuns(iterations: map<(string, int), IterationRow>, runId: string, other: string, i: int, row: IterationRow)
    requires other != runId
    ensures Latest(iterations[(other, i) := row], runId) == Latest(iterations, runId)
  {
    var m := iterations[(other, i) := row];
    assert forall k :: k in m && k.0 == runId <==> k in iterations && k.0 == runId;
    if HasIterations(iterations, runId) {
      var a, b := Latest(m, runId), Latest(iterations, runId);
      assert (runId, a) in iterations && (runId, b) in m;
    }
  }

  /** Recording an iteration at or above a run's latest makes it the run's latest. */
  lemma LatestAfterAdd(iterations: map<(string, int), IterationRow>, runId: string, i: int, row: IterationRow)
    requires i >= Latest(iterations, runId)
    ensures Latest(iterations[(runId, i) := row], runId) == i
  {
    var m := iterations[(runId, i) := row];
    assert (runId, i) in m;
  }

  /**
   * The effect of one ledger call on the tables. Creating the tables keeps existing rows;
   * an upsert keeps `created_at` of an existing run; an iteration row is inserted or replaced.
   */
  function Apply(t: Tables, op: Op): (r: Tables)
    ensures r.initialized == (t.initialized || op == CreateTables)
    ensures op.CreateTables? ==> r.runs == t.runs && r.iterations == t.iterations
    ensures op.UpsertRunOp? ==>
              && r.iterations == t.iterations
              && r.runs.Keys == t.runs.Keys + {op.runId}
              && (forall id :: id in t.runs && id != op.runId ==> r.runs[id] == t.runs[id])
              && r.runs[op.runId].goal == op.goal && r.runs[op.runId].status == op.status
              && r.runs[op.runId].updatedAt == op.now
              && r.runs[op.runId].createdAt == (if op.runId in t.runs then t.runs[op.runId].createdAt else op.now)
    ensures op.AddIterationOp? ==>
              && r.runs == t.runs
              && r.iterations.Keys == t.iterations.Keys + {(op.runId, op.iteration)}
              && (forall k :: k in t.iterations && k != (op.runId, op.iteration) ==> r.iterations[k] == t.iterations[k])
              && r.iterations[(op.runId, op.iteration)] == IterationRow(op.status, op.now)
  {
    match op
    case CreateTables =>
      t.(initialized := true)
    case UpsertRunOp(runId, goal, status, now) =>
      var row := if runId in t.runs then t.runs[runId].(goal := goal, status := status, updatedAt := now)
                 else RunRow(goal, status, now, now);
      t.(runs := t.runs[runId := row])
    case AddIterationOp(runId, iteration, status, now) =>
      t.(iterations := t.iterations[(runId, iteration) := IterationRow(status, now)])
  }

  /** Creating the tables twice is the same as creating them once. */
  lemma InitIdempotent(t: Tables)
    ensures Apply(Apply(t, CreateTables), CreateTables) == Apply(t, CreateTables)
  {
  }

  /** Upserting a run twice keeps the first `created_at` and the last goal, status and `updated_at`. */
  lemma UpsertKeepsCreatedAt(t: Tables, runId: string, g1: string, s1: string, n1: string, g2: string, s2: string, n2: string)
    ensures var r := Apply(Apply(t, UpsertRunOp(runId, g1, s1, n1)), UpsertRunOp(runId, g2, s2, n2)).runs[runId];
      r == RunRow(g2, s2, if runId in t.runs then t.runs[runId].createdAt else n1, n2)
  {
  }

  /** Adding the same iteration twice leaves the row of the second call. */
  lemma AddIterationReplaces(t: Tables, runId: string, i: int, s1: string, n1: string, s2: string, n2: string)
    ensures Apply(Apply(t, AddIterationOp(runId, i, s1, n1)), AddIterationOp(runId, i, s2, n2))
         == Apply(t, AddIterationOp(runId, i, s2, n2))
  {
  }

  class Ledger {
    var initialized: bool
    var runs: map<string, RunRow>
    var iterations: map<(string, int), IterationRow>

    function State(): Tables
      reads this
    {
      Tables(initialized, runs, iterations)
    }

    /** Before the tables are created they hold nothing. */
    ghost predicate Valid()
      reads this
    {
      !initialized ==> runs == map[] && iterations == map[]
    }

    constructor ()
      ensures Valid() && State() == Tables(false, map[], map[])
    {
      initialized := false;
      runs := map[];
      iterations := map[];
    }

    /** `initDb`: creates both tables if they do not exist; existing rows are untouched. */
    method InitDb()
      requires Valid()
      modifies this
      ensures Valid() && State() == Apply(old(State()), CreateTables)
    {
      if !initialized {
        runs := map[];
        iterations := map[];
        initialized := true;
      }
    }

    /**
     * `upsertRun`: inserts a new run with `created_at == updated_at == now`, or on an
     * existing id updates goal, status and `updated_at`, keeping `created_at`.
     */
    method UpsertRun(runId: string, goal: string, status: string, now: string)
      requires initialized
      modifies this
      ensures Valid() && State() == Apply(old(State()), UpsertRunOp(runId, goal, status, now))
    {
      if runId in runs {
        runs := runs[runId := runs[runId].(goal := goal, status := status, updatedAt := now)];
      } else {
        runs := runs[runId := RunRow(goal, status, now, now)];
      }
    }

    /** `addIteration`: INSERT OR REPLACE, so a second row for the same key replaces the first. */
    method AddIteration(runId: string, iteration: int, status: string, now: string)
      requires initialized
      modifies this
      ensures Valid() && State() == Apply(old(State()), AddIterationOp(runId, iteration, status, now))
    {
      iterations := iterations[(runId, iteration) := IterationRow(status, now)];
    }

    /** `getLatestIteration`: the largest iteration recorded for the run, or -1. */
    method LatestIteration(runId: string) returns (latest: int)
      ensures latest == Latest(iterations, runId)
    {
      latest := Latest(iterations, runId);
    }
  }
}
