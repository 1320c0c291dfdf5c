/**
 * The agent loop: for each iteration from the ledger's next one, plan with the stub
 * planner, run the plan with the worker, evaluate, write the three artifacts and record
 * the iteration and the run status; stop on a terminal verdict, an interrupt, a dry run
 * or the iteration budget. Artifacts are documents in a store keyed by run, iteration and
 * file name; ledger calls and artifact writes form one ordered list of effects.
 */
module Agent {
  import opened Wrappers
  import opened Strings
  import opened Artifacts
  import opened Evaluator
  import Planner
  import W = Worker
  import L = Db

  /** The options of one invocation; `shouldStop` is polled once per iteration, by iteration number. */
  datatype RunOptions = RunOptions(goal: string, maxIterations: int, dryRun: bool, runId: string, shouldStop: int -> bool)

  datatype Doc = PlanDoc(plan: Plan) | ResultsDoc(results: Results) | VerdictDoc(verdict: Verdict)

  /** The artifact path `<runId>/<iteration>/<name>`. */
  datatype Key = Key(runId: string, iteration: int, name: string)

  /** One observable effect, in program order. */
  datatype Event = Wrote(key: Key, doc: Doc) | Called(op: L.Op)

  /** The artifact documents and the ledger tables. */
  datatype Effects = Effects(docs: map<Key, Doc>, tables: L.Tables)

  /**
   * How an invocation ends: with the last verdict it recorded, or by throwing when a
   * schema rejects the `schema` document of iteration `iteration`.
   */
  datatype Exit = Recorded(verdict: Verdict) | Rejected(iteration: int, schema: string)

  /** The exit, the effects in order, and the worker's world afterwards. */
  datatype Run = Run(exit: Exit, events: seq<Event>, world: W.World)

  function Step(e: Effects, ev: Event): Effects {
    match ev
    case Wrote(k, d) => e.(docs := e.docs[k := d])
    case Called(op) => e.(tables := L.Apply(e.tables, op))
  }

  function Replay(e: Effects, events: seq<Event>): Effects
    decreases |events|
  {
    if events == [] then e else Replay(Step(e, events[0]), events[1..])
  }

  /** Replaying a concatenation replays its halves in turn. */
  lemma {:induction false} ReplayConcat(e: Effects, a: seq<Event>, b: seq<Event>)
    ensures Replay(e, a + b) == Replay(Replay(e, a), b)
    decreases |a|
  {
    if a == [] {
      assert a + b == b;
    } else {
      assert (a + b)[0] == a[0] && (a + b)[1..] == a[1..] + b;
      ReplayConcat(Step(e, a[0]), a[1..], b);
    }
  }

  /** Writing a verdict, then `addIteration` and `upsertRun` with its status. */
  function Closing(opts: RunOptions, v: Verdict, now: string): seq<Event> {
    [ Wrote(Key(opts.runId, v.iteration, "verdict.json"), VerdictDoc(v)),
      Called(L.AddIterationOp(opts.runId, v.iteration, StatusName(v.status), now)),
      Called(L.UpsertRunOp(opts.runId, opts.goal, StatusName(v.status), now)) ]
  }

  /** Recording a verdict stores its document, then its iteration row, then the run's status. */
  lemma ReplayClosing(e: Effects, opts: RunOptions, v: Verdict, now: string)
    ensures var r := Replay(e, Closing(opts, v, now));
      && r.docs == e.docs[Key(opts.runId, v.iteration, "verdict.json") := VerdictDoc(v)]
      && r.tables == L.Apply(L.Apply(e.tables, L.AddIterationOp(opts.runId, v.iteration, StatusName(v.status), now)),
                             L.UpsertRunOp(opts.runId, opts.goal, StatusName(v.status), now))
  {
    var evs := Closing(opts, v, now);
    calc {
      Replay(e, evs);
      Replay(Step(e, evs[0]), evs[1..]);
      { assert evs[1..][0] == evs[1] && evs[1..][1..] == evs[2..]; }
      Replay(Step(Step(e, evs[0]), evs[1]), evs[2..]);
      { assert evs[2..][0] == evs[2] && evs[2..][1..] == []; }
      Step(Step(Step(e, evs[0]), evs[1]), evs[2]);
    }
  }

  /** Artifact writes leave the ledger as it was. */
  lemma {:induction false} ReplayWritesKeepTables(e: Effects, evs: seq<Event>)
    requires forall i :: 0 <= i < |evs| ==> evs[i].Wrote?
    ensures Replay(e, evs).tables == e.tables
    decreases |evs|
  {
    if evs != [] {
      ReplayWritesKeepTables(Step(e, evs[0]), evs[1..]);
    }
  }

  /** The stopped verdict written on an interrupt, a dry run or an exhausted budget. */
  function StopVerdict(opts: RunOptions, iteration: int, now: string, rationale: string, reason: string): Verdict {
    Verdict(opts.runId, iteration, now, Stopped, rationale, Some(Next(None, Some(reason))))
  }

  /** `verdictSchema.parse` of a stop verdict: the verdict to record, if it passes, and how `runAgent` returns. */
  function Conclusion(v: Verdict): (Option<Verdict>, Exit) {
    if ValidVerdict(v) then (Some(v), Recorded(v)) else (None, Rejected(v.iteration, "verdict"))
  }

  function BudgetRationale(maxIterations: int): string {
    "Reached max iterations for this invocation (" + IntToString(maxIterations) + ")"
  }

  /** The stopped verdict recorded for iteration `end - 1` when the budget runs out. */
  function BudgetVerdict(opts: RunOptions, end: int, now: string): Verdict {
    StopVerdict(opts, end - 1, now, BudgetRationale(opts.maxIterations), "max-iterations")
  }

  /**
   * The budget verdict is a stopped verdict for iteration `end - 1`; it passes the schema
   * exactly when the clock reading is a timestamp and that iteration is not negative.
   */
  lemma BudgetVerdictFacts(opts: RunOptions, end: int, now: string)
    ensures var v := BudgetVerdict(opts, end, now);
      v.iteration == end - 1 && v.status == Stopped && (ValidVerdict(v) <==> IsIsoDate(now) && end >= 1)
  {
  }

  /** The plan the stub planner makes for an iteration. */
  function PlanFor(opts: RunOptions, it: int, now: string): Plan {
    Planner.Plan(Planner.Context(opts.runId, it, opts.goal), now)
  }

  /**
   * One pass of the loop body: the artifacts it writes before any verdict, the verdict it
   * records (document, iteration row and run status), how `runAgent` returns if it does,
   * and the worker's world afterwards.
   */
  datatype Pass = Pass(writes: seq<Event>, recorded: Option<Verdict>, exit: Option<Exit>, world: W.World)

  /** The effects of recording `recorded`, if there is one. */
  function Recording(opts: RunOptions, recorded: Option<Verdict>, now: string): seq<Event> {
    if recorded.Some? then Closing(opts, recorded.value, now) else []
  }

  /** The effects of a pass, in order. */
  function PassEvents(opts: RunOptions, p: Pass, now: string): seq<Event> {
    p.writes + Recording(opts, p.recorded, now)
  }

  /** After `writes`, parse a stop verdict, record it and return. */
  function Stop(v: Verdict, writes: seq<Event>, w: W.World): Pass {
    var (recorded, x) := Conclusion(v);
    Pass(writes, recorded, Some(x), w)
  }

  /** The loop body for iteration `it`. */
  function Round(opts: RunOptions, it: int, w: W.World, env: W.Env): Pass {
    var now := env.clock;
    if opts.shouldStop(it) then Stop(StopVerdict(opts, it, now, "Interrupted by user", "user-interrupt"), [], w)
    else
      var plan := PlanFor(opts, it, now);
      if !ValidPlan(plan) then Pass([], None, Some(Rejected(it, "plan")), w)
      else
        var planned := [Wrote(Key(opts.runId, it, "plan.json"), PlanDoc(plan))];
        if opts.dryRun then Stop(StopVerdict(opts, it, now, "Dry-run requested", "dry-run"), planned, w)
        else Proceed(opts, it, plan, planned, w, env)
  }

  /** The rest of a pass once plan.json is written: execute the tasks, write results.json, evaluate and record. */
  function Proceed(opts: RunOptions, it: int, plan: Plan, planned: seq<Event>, w: W.World, env: W.Env): Pass {
    var now := env.clock;
    var (rs, w1) := W.RunAllSpec(plan.tasks, w, env);
    var results := Results(opts.runId, it, now, rs);
    var verdict := Evaluate(opts.goal, plan, results, now);
    var written := planned + [Wrote(Key(opts.runId, it, "results.json"), ResultsDoc(results))];
    Pass(written, Some(verdict), if verdict.status.IsTerminal() then Some(Recorded(verdict)) else None, w1)
  }

  /** The loop body as a function of the iteration number and the world. */
  function Body(opts: RunOptions, env: W.Env): (int, W.World) -> Pass {
    (it: int, w: W.World) => Round(opts, it, w, env)
  }

  /**
   * A `for` loop from iteration `it` to `end` exclusive over a loop body: a pass that
   * returns ends the loop, and when none does the budget verdict is recorded.
   */
  function Drive(opts: RunOptions, body: (int, W.World) -> Pass, it: int, end: int, w: W.World, budget: Verdict, now: string): Run
    decreases end - it
  {
    if it >= end then
      var (recorded, x) := Conclusion(budget);
      Run(x, Recording(opts, recorded, now), w)
    else
      var p := body(it, w);
      match p.exit
      case Some(x) => Run(x, PassEvents(opts, p, now), p.world)
      case None =>
        var rest := Drive(opts, body, it + 1, end, p.world, budget, now);
        Run(rest.exit, PassEvents(opts, p, now) + rest.events, rest.world)
  }

  /** The iterations of `runAgent`'s loop from `it`, with `end` exclusive, then the budget verdict. */
  function Loop(opts: RunOptions, it: int, end: int, w: W.World, env: W.Env): Run {
    Drive(opts, Body(opts, env), it, end, w, Budget(opts, env.clock)(end), env.clock)
  }

  /** The effects of `initDb` and `upsertRun(runId, goal, "running")`. */
  function Opening(opts: RunOptions, now: string): seq<Event> {
    [Called(L.CreateTables), Called(L.UpsertRunOp(opts.runId, opts.goal, "running", now))]
  }

  /** The first iteration of this invocation: one past the latest recorded. */
  function StartIteration(opts: RunOptions, e: Effects, now: string): int {
    L.Latest(Replay(e, Opening(opts, now)).tables.iterations, opts.runId) + 1
  }

  /** The budget verdict for each end of the loop, at clock reading `now`. */
  function Budget(opts: RunOptions, now: string): int -> Verdict {
    end => BudgetVerdict(opts, end, now)
  }

  /**
   * `runAgent` over a loop body and a budget verdict: open the ledger, then loop from one
   * past the run's latest iteration.
   */
  function Agent(opts: RunOptions, body: (int, W.World) -> Pass, budgetOf: int -> Verdict, e: Effects, w: W.World, now: string): Run {
    var start := StartIteration(opts, e, now);
    var end := start + opts.maxIterations;
    var loop := Drive(opts, body, start, end, w, budgetOf(end), now);
    Run(loop.exit, Opening(opts, now) + loop.events, loop.world)
  }

  /** `runAgent`, from the effects and world it starts with. */
  function AgentSpec(opts: RunOptions, e: Effects, w: W.World, env: W.Env): Run {
    Agent(opts, Body(opts, env), Budget(opts, env.clock), e, w, env.clock)
  }

  /**
   * What a pass of iteration `it` from world `w` satisfies: it writes only artifacts of
   * iteration `it` and records only a verdict of iteration `it`; it records a verdict
   * whenever the loop goes on; a pass that returns a verdict recorded it; a pass that
   * throws has had no effect.
   */
  predicate PassShape(p: Pass, it: int, w: W.World) {
    && (forall i :: 0 <= i < |p.writes| ==> p.writes[i].Wrote? && p.writes[i].key.iteration == it)
    && (p.recorded.Some? ==> p.recorded.value.iteration == it)
    && (p.exit.None? ==> p.recorded.Some?)
    && (p.exit.Some? && p.exit.value.Recorded? ==> p.recorded == Some(p.exit.value.verdict))
    && (p.exit.Some? && p.exit.value.Rejected? ==> p.writes == [] && p.recorded.None? && p.world == w)
  }

  /** Every pass of `body` is well shaped. */
  ghost predicate Shaped(body: (int, W.World) -> Pass) {
    forall it, w :: PassShape(body(it, w), it, w)
  }

  /**
   * The results and the evaluator's verdict of an iteration whose plan passed its schema
   * pass theirs too, so `resultsSchema.parse` and the evaluator's `verdictSchema.parse`
   * never throw.
   */
  lemma RoundArtifactsValid(opts: RunOptions, it: int, w: W.World, env: W.Env)
    requires ValidPlan(PlanFor(opts, it, env.clock))
    ensures var plan := PlanFor(opts, it, env.clock);
      var results := Results(opts.runId, it, env.clock, W.RunAllSpec(plan.tasks, w, env).0);
      ValidResults(results) && ValidVerdict(Evaluate(opts.goal, plan, results, env.clock))
  {
    var plan := PlanFor(opts, it, env.clock);
    Planner.PlanValid(Planner.Context(opts.runId, it, opts.goal), env.clock);
    W.RunAllShape(plan.tasks, w, env);
    EvaluateValid(opts.goal, plan, Results(opts.runId, it, env.clock, W.RunAllSpec(plan.tasks, w, env).0), env.clock);
  }

  /**
   * Each pass of `runAgent`'s loop body is well shaped: in particular it writes plan.json
   * and results.json of its own iteration only, records the evaluator's verdict of that
   * iteration before the loop goes on, and throws only before writing anything.
   */
  lemma RoundShape(opts: RunOptions, it: int, w: W.World, env: W.Env)
    ensures PassShape(Round(opts, it, w, env), it, w)
  {
    var plan := PlanFor(opts, it, env.clock);
    Planner.PlanValid(Planner.Context(opts.runId, it, opts.goal), env.clock);
    if !opts.shouldStop(it) && ValidPlan(plan) && !opts.dryRun {
      ProceedShape(opts, it, plan, [Wrote(Key(opts.runId, it, "plan.json"), PlanDoc(plan))], w, env);
    }
  }

  lemma ProceedShape(opts: RunOptions, it: int, plan: Plan, planned: seq<Event>, w: W.World, env: W.Env)
    requires plan.iteration == it && |planned| == 1 && planned[0].Wrote? && planned[0].key.iteration == it
    ensures PassShape(Proceed(opts, it, plan, planned, w, env), it, w)
  {
    var (rs, w1) := W.RunAllSpec(plan.tasks, w, env);
    var results := Results(opts.runId, it, env.clock, rs);
    var verdict := Evaluate(opts.goal, plan, results, env.clock);
    var p := Proceed(opts, it, plan, planned, w, env);
    assert p.recorded == Some(verdict) && verdict.iteration == it;
    assert p.writes == planned + [Wrote(Key(opts.runId, it, "results.json"), ResultsDoc(results))];
  }

  lemma BodyShaped(opts: RunOptions, env: W.Env)
    ensures Shaped(Body(opts, env))
  {
    forall it, w
      ensures PassShape(Body(opts, env)(it, w), it, w)
    {
      RoundShape(opts, it, w, env);
    }
  }

  /**
   * A pass throws exactly when the clock reading is not a timestamp or the iteration is
   * negative: then its plan, or its stop verdict, fails its schema.
   */
  lemma RoundRejectedIff(opts: RunOptions, it: int, w: W.World, env: W.Env)
    ensures var x := Round(opts, it, w, env).exit;
      x.Some? && x.value.Rejected? <==> !IsIsoDate(env.clock) || it < 0
  {
    Planner.PlanValid(Planner.Context(opts.runId, it, opts.goal), env.clock);
  }

  /**
   * Over well-shaped passes that throw exactly when `ok` fails or the iteration is negative,
   * the loop throws exactly when `ok` fails or the first verdict it would write (the pass
   * of iteration `it`, or the budget verdict of iteration `end - 1`) has a negative
   * iteration; a loop that throws has had no effect.
   */
  lemma {:induction false} DriveRejectedIff(opts: RunOptions, body: (int, W.World) -> Pass, it: int, end: int, w: W.World,
                                            budget: Verdict, now: string, ok: bool)
    requires Shaped(body)
    requires forall i, x :: body(i, x).exit.Some? && body(i, x).exit.value.Rejected? <==> !ok || i < 0
    requires budget.iteration == end - 1 && (ValidVerdict(budget) <==> ok && end - 1 >= 0)
    ensures var r := Drive(opts, body, it, end, w, budget, now);
      && (r.exit.Rejected? <==> !ok || (it < end && it < 0) || (it >= end && end < 1))
      && (r.exit.Rejected? ==> r.events == [] && r.world == w)
    decreases end - it
  {
    if it < end {
      var p := body(it, w);
      assert PassShape(p, it, w);
      if p.exit.None? {
        DriveRejectedIff(opts, body, it + 1, end, p.world, budget, now, ok);
      } else if p.exit.value.Rejected? {
        assert PassEvents(opts, p, now) == [] + [];
      }
    }
  }

  /**
   * The loop throws exactly when the clock reading is not a timestamp, or the first verdict
   * it would write (the plan and stop verdict of iteration `it`, or the budget verdict of
   * iteration `end - 1`) has a negative iteration; then it has had no effect.
   */
  lemma LoopRejectedIff(opts: RunOptions, it: int, end: int, w: W.World, env: W.Env)
    ensures var r := Loop(opts, it, end, w, env);
      && (r.exit.Rejected? <==> !IsIsoDate(env.clock) || (it < end && it < 0) || (it >= end && end < 1))
      && (r.exit.Rejected? ==> r.events == [] && r.world == w)
  {
    BodyShaped(opts, env);
    forall i, x
      ensures Body(opts, env)(i, x).exit.Some? && Body(opts, env)(i, x).exit.value.Rejected? <==> !IsIsoDate(env.clock) || i < 0
    {
      RoundRejectedIff(opts, i, x, env);
    }
    DriveRejectedIff(opts, Body(opts, env), it, end, w, Budget(opts, env.clock)(end), env.clock, IsIsoDate(env.clock));
  }

  lemma AgentRejectedIff(opts: RunOptions, body: (int, W.World) -> Pass, budgetOf: int -> Verdict, e: Effects, w: W.World, now: string)
    requires Shaped(body)
    requires forall i, x :: body(i, x).exit.Some? && body(i, x).exit.value.Rejected? <==> !IsIsoDate(now) || i < 0
    requires var end := StartIteration(opts, e, now) + opts.maxIterations;
      budgetOf(end).iteration == end - 1 && (ValidVerdict(budgetOf(end)) <==> IsIsoDate(now) && end >= 1)
    ensures var start := StartIteration(opts, e, now);
      var r := Agent(opts, body, budgetOf, e, w, now);
      && (r.exit.Rejected? <==> !(IsIsoDate(now) && start >= 0 && start + opts.maxIterations >= 1))
      && (r.exit.Rejected? ==> r.events == Opening(opts, now) && r.world == w)
  {
    var start := StartIteration(opts, e, now);
    var end := start + opts.maxIterations;
    DriveRejectedIff(opts, body, start, end, w, budgetOf(end), now, IsIsoDate(now));
    assert Opening(opts, now) + [] == Opening(opts, now);
  }

  /**
   * `runAgent` throws exactly when the clock reading is not a timestamp, the first iteration
   * is negative, or the budget verdict would be; a run that throws has only opened the
   * ledger: no artifact, no iteration row, no task run.
   */
  lemma AgentRejected(opts: RunOptions, e: Effects, w: W.World, env: W.Env)
    ensures var start := StartIteration(opts, e, env.clock);
      var r := AgentSpec(opts, e, w, env);
      && (r.exit.Rejected? <==> !(IsIsoDate(env.clock) && start >= 0 && start + opts.maxIterations >= 1))
      && (r.exit.Rejected? ==> r.events == Opening(opts, env.clock) && r.world == w)
  {
    BodyShaped(opts, env);
    forall i, x
      ensures Body(opts, env)(i, x).exit.Some? && Body(opts, env)(i, x).exit.value.Rejected? <==> !IsIsoDate(env.clock) || i < 0
    {
      RoundRejectedIff(opts, i, x, env);
    }
    BudgetVerdictFacts(opts, StartIteration(opts, e, env.clock) + opts.maxIterations, env.clock);
    AgentRejectedIff(opts, Body(opts, env), Budget(opts, env.clock), e, w, env.clock);
  }

  /** A pass of the stub planner's one-task plan can never collect the two failures a failed verdict needs. */
  lemma RoundNeverFails(opts: RunOptions, it: int, w: W.World, env: W.Env)
    ensures var x := Round(opts, it, w, env).exit;
      x.Some? && x.value.Recorded? ==> x.value.verdict.status != Failed
  {
    var plan := PlanFor(opts, it, env.clock);
    if !opts.shouldStop(it) && ValidPlan(plan) && !opts.dryRun {
      W.RunAllShape(plan.tasks, w, env);
    }
  }

  /** A loop whose passes never return a failed verdict does not, since the budget verdict is stopped. */
  lemma {:induction false} DriveNeverFails(opts: RunOptions, body: (int, W.World) -> Pass, it: int, end: int, w: W.World,
                                           budget: Verdict, now: string)
    requires forall i, x :: body(i, x).exit.Some? && body(i, x).exit.value.Recorded? ==> body(i, x).exit.value.verdict.status != Failed
    requires budget.status == Stopped
    ensures var x := Drive(opts, body, it, end, w, budget, now).exit;
      x.Recorded? ==> x.verdict.status != Failed
    decreases end - it
  {
    if it < end {
      var p := body(it, w);
      if p.exit.None? {
        DriveNeverFails(opts, body, it + 1, end, p.world, budget, now);
      }
    }
  }

  /** No invocation of the stub planner's loop records a failed verdict. */
  lemma StubNeverFails(opts: RunOptions, it: int, end: int, w: W.World, env: W.Env)
    ensures var x := Loop(opts, it, end, w, env).exit;
      x.Recorded? ==> x.verdict.status != Failed
  {
    forall i, x
      ensures var y := Body(opts, env)(i, x).exit; y.Some? && y.value.Recorded? ==> y.value.verdict.status != Failed
    {
      RoundNeverFails(opts, i, x, env);
    }
    DriveNeverFails(opts, Body(opts, env), it, end, w, Budget(opts, env.clock)(end), env.clock);
  }

  /**
   * A goal without "write" (in any ASCII letter case) plans a no-op, which succeeds, so the
   * first iteration that is neither interrupted nor a dry run ends the invocation as done.
   */
  lemma NoWriteGoalIsDone(opts: RunOptions, it: int, end: int, w: W.World, env: W.Env)
    requires !Contains(LowerAscii(opts.goal), "write")
    requires 0 <= it < end && IsIsoDate(env.clock) && !opts.shouldStop(it) && !opts.dryRun
    ensures var r := Loop(opts, it, end, w, env);
      && r.exit.Recorded? && r.exit.verdict.status == Done && r.exit.verdict.iteration == it
      && r.world == w.(calls := w.calls + 1)
  {
    var now := env.clock;
    var ctx := Planner.Context(opts.runId, it, opts.goal);
    var plan := PlanFor(opts, it, now);
    Planner.PlanValid(ctx, now);
    assert plan.tasks == [plan.tasks[0]] && plan.tasks[0].kind == Noop;
    W.NoopPlanSucceeds(plan.tasks[0], w, env);
    W.NoopSucceeds(plan.tasks[0], w, env);
    var (first, w1) := W.RetrySpec(plan.tasks[0], w, env, 0, None);
    W.RunAllStep(plan.tasks, w, env, first, w1);
    W.ReturnSettles(plan.tasks[0], w, env, 0, None);
    assert Body(opts, env)(it, w) == Round(opts, it, w, env);
  }

  /** A goal with "write" plans a write_file task, whose pass never ends the loop. */
  lemma WriteGoalContinues(opts: RunOptions, it: int, w: W.World, env: W.Env)
    requires Contains(LowerAscii(opts.goal), "write")
    requires 0 <= it && IsIsoDate(env.clock) && !opts.dryRun && !opts.shouldStop(it)
    ensures Round(opts, it, w, env).exit.None?
  {
    var now := env.clock;
    var ctx := Planner.Context(opts.runId, it, opts.goal);
    var plan := PlanFor(opts, it, now);
    Planner.PlanValid(ctx, now);
    assert plan.tasks[0].kind == WriteFile;
    W.RunAllShape(plan.tasks, w, env);
    assert !AllNoop(plan.tasks);
  }

  /** When no pass from `it` on returns, the loop ends with the budget verdict. */
  lemma {:induction false} DriveRunsToBudget(opts: RunOptions, body: (int, W.World) -> Pass, it: int, end: int, w: W.World,
                                             budget: Verdict, now: string)
    requires forall i, x :: it <= i < end ==> body(i, x).exit.None?
    ensures Drive(opts, body, it, end, w, budget, now).exit == Conclusion(budget).1
    decreases end - it
  {
    if it < end {
      DriveRunsToBudget(opts, body, it + 1, end, body(it, w).world, budget, now);
    }
  }

  /**
   * A goal with "write" never leaves a verdict of done or failed; without interrupts or a
   * dry run the invocation runs to its budget and records the max-iterations verdict for
   * `end - 1`.
   */
  lemma WriteGoalRunsToBudget(opts: RunOptions, it: int, end: int, w: W.World, env: W.Env)
    requires Contains(LowerAscii(opts.goal), "write")
    requires 0 <= it <= end && 1 <= end && IsIsoDate(env.clock) && !opts.dryRun
    requires forall i :: it <= i < end ==> !opts.shouldStop(i)
    ensures Loop(opts, it, end, w, env).exit == Recorded(BudgetVerdict(opts, end, env.clock))
  {
    forall i, x | it <= i < end
      ensures Body(opts, env)(i, x).exit.None?
    {
      WriteGoalContinues(opts, i, x, env);
    }
    DriveRunsToBudget(opts, Body(opts, env), it, end, w, Budget(opts, env.clock)(end), env.clock);
  }

  /** A loop whose passes leave the world as they found it leaves it too. */
  lemma {:induction false} DriveKeepsWorld(opts: RunOptions, body: (int, W.World) -> Pass, it: int, end: int, w: W.World,
                                           budget: Verdict, now: string)
    requires forall i, x :: body(i, x).world == x
    ensures Drive(opts, body, it, end, w, budget, now).world == w
    decreases end - it
  {
    if it < end {
      DriveKeepsWorld(opts, body, it + 1, end, w, budget, now);
    }
  }

  /** A dry run never executes a task: the worker's world is left as it was. */
  lemma DryRunRunsNoTask(opts: RunOptions, it: int, end: int, w: W.World, env: W.Env)
    requires opts.dryRun
    ensures Loop(opts, it, end, w, env).world == w
  {
    forall i, x
      ensures Body(opts, env)(i, x).world == x
    {
      assert Body(opts, env)(i, x) == Round(opts, i, x, env);
    }
    DriveKeepsWorld(opts, Body(opts, env), it, end, w, Budget(opts, env.clock)(end), env.clock);
  }

  /** The verdict document of `v`, its iteration row and the run's status, as `Closing` leaves them. */
  predicate VerdictStored(after: Effects, opts: RunOptions, v: Verdict, now: string) {
    && Key(opts.runId, v.iteration, "verdict.json") in after.docs
    && after.docs[Key(opts.runId, v.iteration, "verdict.json")] == VerdictDoc(v)
    && (opts.runId, v.iteration) in after.tables.iterations
    && after.tables.iterations[(opts.runId, v.iteration)] == L.IterationRow(StatusName(v.status), now)
    && opts.runId in after.tables.runs
    && after.tables.runs[opts.runId].status == StatusName(v.status)
    && after.tables.runs[opts.runId].updatedAt == now
  }

  /** Whatever came before, the effects of recording a verdict end with the verdict stored. */
  lemma ClosingStores(e: Effects, pre: seq<Event>, opts: RunOptions, v: Verdict, now: string)
    ensures VerdictStored(Replay(e, pre + Closing(opts, v, now)), opts, v, now)
  {
    ReplayConcat(e, pre, Closing(opts, v, now));
    ReplayClosing(Replay(e, pre), opts, v, now);
  }

  /** When a loop of well-shaped passes records a verdict, that verdict is what the store and the ledger end with. */
  lemma {:induction false} DriveStoresVerdict(opts: RunOptions, body: (int, W.World) -> Pass, it: int, end: int, w: W.World,
                                              budget: Verdict, now: string, e: Effects)
    requires Shaped(body)
    ensures var r := Drive(opts, body, it, end, w, budget, now);
      r.exit.Recorded? ==> VerdictStored(Replay(e, r.events), opts, r.exit.verdict, now)
    decreases end - it
  {
    if it >= end {
      if ValidVerdict(budget) {
        ClosingStores(e, [], opts, budget, now);
        assert [] + Closing(opts, budget, now) == Closing(opts, budget, now);
      }
    } else {
      var p := body(it, w);
      assert PassShape(p, it, w);
      var evs := PassEvents(opts, p, now);
      if p.exit.None? {
        DriveStoresVerdict(opts, body, it + 1, end, p.world, budget, now, Replay(e, evs));
        ReplayConcat(e, evs, Drive(opts, body, it + 1, end, p.world, budget, now).events);
      } else if p.exit.value.Recorded? {
        ClosingStores(e, p.writes, opts, p.exit.value.verdict, now);
      }
    }
  }

  lemma AgentStoresVerdict(opts: RunOptions, body: (int, W.World) -> Pass, budgetOf: int -> Verdict, e: Effects, w: W.World, now: string)
    requires Shaped(body)
    ensures var r := Agent(opts, body, budgetOf, e, w, now);
      r.exit.Recorded? ==> VerdictStored(Replay(e, r.events), opts, r.exit.verdict, now)
  {
    var start := StartIteration(opts, e, now);
    var end := start + opts.maxIterations;
    var opening := Opening(opts, now);
    var loop := Drive(opts, body, start, end, w, budgetOf(end), now);
    assert Agent(opts, body, budgetOf, e, w, now) == Run(loop.exit, opening + loop.events, loop.world);
    DriveStoresVerdict(opts, body, start, end, w, budgetOf(end), now, Replay(e, opening));
    ReplayConcat(e, opening, loop.events);
  }

  /**
   * When an invocation records a verdict, the artifact store holds it as the verdict of its
   * iteration, the ledger holds its status for that iteration, and the run's status is its
   * status.
   */
  lemma RecordedVerdictIsStored(opts: RunOptions, e: Effects, w: W.World, env: W.Env)
    ensures var r := AgentSpec(opts, e, w, env);
      r.exit.Recorded? ==> VerdictStored(Replay(e, r.events), opts, r.exit.verdict, env.clock)
  {
    BodyShaped(opts, env);
    AgentStoresVerdict(opts, Body(opts, env), Budget(opts, env.clock), e, w, env.clock);
  }

  /** Recording a verdict after artifact writes makes its iteration the run's latest, if none was later. */
  lemma ClosingLatest(e: Effects, pre: seq<Event>, opts: RunOptions, v: Verdict, now: string)
    requires forall i :: 0 <= i < |pre| ==> pre[i].Wrote?
    requires L.Latest(e.tables.iterations, opts.runId) <= v.iteration
    ensures L.Latest(Replay(e, pre + Closing(opts, v, now)).tables.iterations, opts.runId) == v.iteration
  {
    ReplayConcat(e, pre, Closing(opts, v, now));
    ReplayWritesKeepTables(e, pre);
    ReplayClosing(Replay(e, pre), opts, v, now);
    L.LatestAfterAdd(e.tables.iterations, opts.runId, v.iteration, L.IterationRow(StatusName(v.status), now));
  }

  /**
   * Starting above the run's latest iteration, a loop of well-shaped passes leaves the
   * recorded verdict's iteration as the latest.
   */
  lemma {:induction false} DriveAdvancesLatest(opts: RunOptions, body: (int, W.World) -> Pass, it: int, end: int, w: W.World,
                                               budget: Verdict, now: string, e: Effects)
    requires Shaped(body) && budget.iteration == end - 1
    requires L.Latest(e.tables.iterations, opts.runId) < it <= end
    ensures var r := Drive(opts, body, it, end, w, budget, now);
      r.exit.Recorded? ==> L.Latest(Replay(e, r.events).tables.iterations, opts.runId) == r.exit.verdict.iteration
    decreases end - it
  {
    if it >= end {
      if ValidVerdict(budget) {
        ClosingLatest(e, [], opts, budget, now);
        assert [] + Closing(opts, budget, now) == Closing(opts, budget, now);
      }
    } else {
      var p := body(it, w);
      assert PassShape(p, it, w);
      var evs := PassEvents(opts, p, now);
      if p.recorded.Some? {
        ClosingLatest(e, p.writes, opts, p.recorded.value, now);
      }
      if p.exit.None? {
        assert Drive(opts, body, it, end, w, budget, now).events == evs + Drive(opts, body, it + 1, end, p.world, budget, now).events;
        DriveAdvancesLatest(opts, body, it + 1, end, p.world, budget, now, Replay(e, evs));
        ReplayConcat(e, evs, Drive(opts, body, it + 1, end, p.world, budget, now).events);
      }
    }
  }

  lemma AgentAdvancesLatest(opts: RunOptions, body: (int, W.World) -> Pass, budgetOf: int -> Verdict, e: Effects, w: W.World, now: string)
    requires Shaped(body) && opts.maxIterations >= 0
    requires var end := StartIteration(opts, e, now) + opts.maxIterations; budgetOf(end).iteration == end - 1
    ensures var r := Agent(opts, body, budgetOf, e, w, now);
      r.exit.Recorded? ==> L.Latest(Replay(e, r.events).tables.iterations, opts.runId) == r.exit.verdict.iteration
  {
    var start := StartIteration(opts, e, now);
    var end := start + opts.maxIterations;
    var opening := Opening(opts, now);
    DriveAdvancesLatest(opts, body, start, end, w, budgetOf(end), now, Replay(e, opening));
    ReplayConcat(e, opening, Drive(opts, body, start, end, w, budgetOf(end), now).events);
  }

  /**
   * With a non-negative budget, the iteration of the verdict an invocation records is the
   * run's latest afterwards, so the next invocation starts one past it.
   */
  lemma LatestIsRecordedIteration(opts: RunOptions, e: Effects, w: W.World, env: W.Env)
    requires opts.maxIterations >= 0
    ensures var r := AgentSpec(opts, e, w, env);
      r.exit.Recorded? ==> L.Latest(Replay(e, r.events).tables.iterations, opts.runId) == r.exit.verdict.iteration
  {
    BodyShaped(opts, env);
    BudgetVerdictFacts(opts, StartIteration(opts, e, env.clock) + opts.maxIterations, env.clock);
    AgentAdvancesLatest(opts, Body(opts, env), Budget(opts, env.clock), e, w, env.clock);
  }

  /** An interrupt before iteration `it` records the user-interrupt verdict for `it` and runs nothing. */
  lemma InterruptStops(opts: RunOptions, it: int, end: int, w: W.World, env: W.Env)
    requires it < end && opts.shouldStop(it) && it >= 0 && IsIsoDate(env.clock)
    ensures var v := StopVerdict(opts, it, env.clock, "Interrupted by user", "user-interrupt");
      Loop(opts, it, end, w, env) == Run(Recorded(v), Closing(opts, v, env.clock), w)
  {
    var v := StopVerdict(opts, it, env.clock, "Interrupted by user", "user-interrupt");
    assert Body(opts, env)(it, w) == Round(opts, it, w, env);
    assert [] + Closing(opts, v, env.clock) == Closing(opts, v, env.clock);
  }

  /** A dry run writes the plan of its first iteration, records the dry-run verdict and stops. */
  lemma DryRunStopsAfterPlan(opts: RunOptions, it: int, end: int, w: W.World, env: W.Env)
    requires opts.dryRun && it < end && !opts.shouldStop(it) && it >= 0 && IsIsoDate(env.clock)
    ensures var v := StopVerdict(opts, it, env.clock, "Dry-run requested", "dry-run");
      var plan := PlanFor(opts, it, env.clock);
      Loop(opts, it, end, w, env)
        == Run(Recorded(v), [Wrote(Key(opts.runId, it, "plan.json"), PlanDoc(plan))] + Closing(opts, v, env.clock), w)
  {
    Planner.PlanValid(Planner.Context(opts.runId, it, opts.goal), env.clock);
    assert Body(opts, env)(it, w) == Round(opts, it, w, env);
  }

  /** An artifact write or an iteration row for an iteration in `[lo, hi)`; run-level calls concern no iteration. */
  predicate EventInRange(ev: Event, lo: int, hi: int) {
    match ev
    case Wrote(k, _) => lo <= k.iteration < hi
    case Called(op) => op.AddIterationOp? ==> lo <= op.iteration < hi
  }

  predicate EventsInRange(evs: seq<Event>, lo: int, hi: int) {
    forall i :: 0 <= i < |evs| ==> EventInRange(evs[i], lo, hi)
  }

  lemma EventsInRangeConcat(a: seq<Event>, b: seq<Event>, lo: int, hi: int)
    requires EventsInRange(a, lo, hi) && EventsInRange(b, lo, hi)
    ensures EventsInRange(a + b, lo, hi)
  {
    forall i | 0 <= i < |a + b|
      ensures EventInRange((a + b)[i], lo, hi)
    {
      if i >= |a| {
        assert (a + b)[i] == b[i - |a|];
      }
    }
  }

  lemma EventsInRangeWiden(evs: seq<Event>, lo: int, hi: int, lo': int, hi': int)
    requires EventsInRange(evs, lo, hi) && lo' <= lo && hi <= hi'
    ensures EventsInRange(evs, lo', hi')
  {
    forall i | 0 <= i < |evs|
      ensures EventInRange(evs[i], lo', hi')
    {
      assert EventInRange(evs[i], lo, hi);
    }
  }

  /** Recording a verdict for an iteration in `[lo, hi)` stays in that range. */
  lemma ClosingInRange(opts: RunOptions, v: Verdict, now: string, pre: seq<Event>, lo: int, hi: int)
    requires lo <= v.iteration < hi && EventsInRange(pre, lo, hi)
    ensures EventsInRange(pre + Closing(opts, v, now), lo, hi)
  {
    var evs := Closing(opts, v, now);
    assert EventInRange(evs[0], lo, hi) && EventInRange(evs[1], lo, hi) && EventInRange(evs[2], lo, hi);
    EventsInRangeConcat(pre, evs, lo, hi);
  }

  /** Recording a verdict, if there is one, for an iteration in `[lo, hi)` stays in that range. */
  lemma RecordingInRange(opts: RunOptions, recorded: Option<Verdict>, now: string, lo: int, hi: int)
    requires recorded.Some? ==> lo <= recorded.value.iteration < hi
    ensures EventsInRange(Recording(opts, recorded, now), lo, hi)
  {
    if recorded.Some? {
      ClosingInRange(opts, recorded.value, now, [], lo, hi);
      assert [] + Closing(opts, recorded.value, now) == Closing(opts, recorded.value, now);
    }
  }

  /** Every artifact written and every iteration row recorded by a well-shaped pass of iteration `it` concerns `it`. */
  lemma PassInRange(opts: RunOptions, p: Pass, it: int, w: W.World, hi: int, now: string)
    requires PassShape(p, it, w) && it < hi
    ensures EventsInRange(PassEvents(opts, p, now), it, hi)
  {
    forall i | 0 <= i < |p.writes|
      ensures EventInRange(p.writes[i], it, hi)
    {
      assert p.writes[i].Wrote? && p.writes[i].key.iteration == it;
    }
    if p.recorded.Some? {
      ClosingInRange(opts, p.recorded.value, now, p.writes, it, hi);
    } else {
      assert PassEvents(opts, p, now) == p.writes + [];
    }
  }

  /**
   * Every artifact written and every iteration row recorded by a loop of well-shaped passes
   * from `it` (with `end` exclusive) concerns an iteration in `[it, end)`; the budget
   * verdict is for `end - 1`.
   */
  lemma {:induction false} DriveStaysInRange(opts: RunOptions, body: (int, W.World) -> Pass, it: int, end: int, w: W.World,
                                             budget: Verdict, now: string)
    requires Shaped(body) && budget.iteration == end - 1 && it < end
    ensures EventsInRange(Drive(opts, body, it, end, w, budget, now).events, it, end)
    decreases end - it
  {
    var p := body(it, w);
    assert PassShape(p, it, w);
    var evs := PassEvents(opts, p, now);
    PassInRange(opts, p, it, w, end, now);
    if p.exit.None? {
      var rest := Drive(opts, body, it + 1, end, p.world, budget, now);
      assert Drive(opts, body, it, end, w, budget, now).events == evs + rest.events;
      if it + 1 < end {
        DriveStaysInRange(opts, body, it + 1, end, p.world, budget, now);
        EventsInRangeWiden(rest.events, it + 1, end, it, end);
      } else {
        RecordingInRange(opts, Conclusion(budget).0, now, it, end);
      }
      EventsInRangeConcat(evs, rest.events, it, end);
    }
  }

  /** Creating the tables and marking the run running touches the ledger only. */
  lemma ReplayOpening(e: Effects, opts: RunOptions, now: string)
    ensures var r := Replay(e, Opening(opts, now));
      && r.docs == e.docs
      && r.tables == L.Apply(L.Apply(e.tables, L.CreateTables), L.UpsertRunOp(opts.runId, opts.goal, "running", now))
  {
    var evs := Opening(opts, now);
    calc {
      Replay(e, evs);
      Replay(Step(e, evs[0]), evs[1..]);
      { assert evs[1..][0] == evs[1] && evs[1..][1..] == []; }
      Step(Step(e, evs[0]), evs[1]);
    }
  }

  lemma AgentOpensThenInRange(opts: RunOptions, body: (int, W.World) -> Pass, budgetOf: int -> Verdict, e: Effects, w: W.World, now: string)
    requires Shaped(body)
    requires var end := StartIteration(opts, e, now) + opts.maxIterations; budgetOf(end).iteration == end - 1
    ensures var r := Agent(opts, body, budgetOf, e, w, now);
      var ready := Replay(e, Opening(opts, now)).tables;
      && r.events[..2] == Opening(opts, now)
      && ready.initialized && opts.runId in ready.runs && ready.runs[opts.runId].status == "running"
      && var start := StartIteration(opts, e, now);
         opts.maxIterations >= 1 ==> EventsInRange(r.events[2..], start, start + opts.maxIterations)
  {
    var start := StartIteration(opts, e, now);
    var end := start + opts.maxIterations;
    var loop := Drive(opts, body, start, end, w, budgetOf(end), now);
    var opening := Opening(opts, now);
    assert (opening + loop.events)[..2] == opening && (opening + loop.events)[2..] == loop.events;
    ReplayOpening(e, opts, now);
    if opts.maxIterations >= 1 {
      DriveStaysInRange(opts, body, start, end, w, budgetOf(end), now);
    }
  }

  /**
   * The invocation first creates the tables and marks the run running, before any iteration;
   * with a positive budget everything after that concerns an iteration in
   * `[start, start + maxIterations)`, where `start` is one past the run's latest iteration.
   */
  lemma RunningThenInRange(opts: RunOptions, e: Effects, w: W.World, env: W.Env)
    ensures var r := AgentSpec(opts, e, w, env);
      var ready := Replay(e, Opening(opts, env.clock)).tables;
      && r.events[..2] == Opening(opts, env.clock)
      && ready.initialized && opts.runId in ready.runs && ready.runs[opts.runId].status == "running"
      && var start := StartIteration(opts, e, env.clock);
         opts.maxIterations >= 1 ==> EventsInRange(r.events[2..], start, start + opts.maxIterations)
  {
    BodyShaped(opts, env);
    BudgetVerdictFacts(opts, StartIteration(opts, e, env.clock) + opts.maxIterations, env.clock);
    AgentOpensThenInRange(opts, Body(opts, env), Budget(opts, env.clock), e, w, env.clock);
  }

  /**
   * A normal pass writes plan.json, results.json and verdict.json in that order, then
   * records the iteration row and the run status, both with the verdict's status.
   */
  lemma NormalRoundOrder(opts: RunOptions, it: int, w: W.World, env: W.Env)
    requires 0 <= it && IsIsoDate(env.clock) && !opts.shouldStop(it) && !opts.dryRun
    ensures var evs := PassEvents(opts, Round(opts, it, w, env), env.clock);
      && |evs| == 5
      && evs[0].Wrote? && evs[0].key == Key(opts.runId, it, "plan.json")
      && evs[1].Wrote? && evs[1].key == Key(opts.runId, it, "results.json")
      && evs[2].Wrote? && evs[2].key == Key(opts.runId, it, "verdict.json") && evs[2].doc.VerdictDoc?
      && var status := StatusName(evs[2].doc.verdict.status);
         && evs[3] == Called(L.AddIterationOp(opts.runId, it, status, env.clock))
         && evs[4] == Called(L.UpsertRunOp(opts.runId, opts.goal, status, env.clock))
  {
    Planner.PlanValid(Planner.Context(opts.runId, it, opts.goal), env.clock);
    RoundShape(opts, it, w, env);
  }

  /** The artifact writer's output directory, as documents by path. */
  class ArtifactStore {
    var docs: map<Key, Doc>

    constructor ()
      ensures docs == map[]
    {
      docs := map[];
    }

    /** `writeArtifact`: writes, or overwrites, `<runId>/<iteration>/<name>`. */
    method Write(runId: string, iteration: int, name: string, doc: Doc)
      modifies this
      ensures docs == old(docs)[Key(runId, iteration, name) := doc]
    {
      docs := docs[Key(runId, iteration, name) := doc];
    }
  }

  function EffectsOf(store: ArtifactStore, ledger: L.Ledger): Effects
    reads store, ledger
  {
    Effects(store.docs, ledger.State())
  }

  /** Write a verdict, then record its iteration and the run status in the ledger. */
  method Record(opts: RunOptions, store: ArtifactStore, ledger: L.Ledger, v: Verdict, now: string)
    requires ledger.initialized
    modifies store, ledger
    ensures ledger.initialized
    ensures EffectsOf(store, ledger) == Replay(old(EffectsOf(store, ledger)), Closing(opts, v, now))
  {
    ghost var e := EffectsOf(store, ledger);
    store.Write(opts.runId, v.iteration, "verdict.json", VerdictDoc(v));
    ledger.AddIteration(opts.runId, v.iteration, StatusName(v.status), now);
    ledger.UpsertRun(opts.runId, opts.goal, StatusName(v.status), now);
    ReplayClosing(e, opts, v, now);
  }

  /** `verdictSchema.parse` of a stop verdict, then `Record` and return. */
  method Conclude(opts: RunOptions, store: ArtifactStore, ledger: L.Ledger, v: Verdict, now: string) returns (exit: Exit)
    requires ledger.initialized
    modifies store, ledger
    ensures ledger.initialized
    ensures exit == Conclusion(v).1
    ensures EffectsOf(store, ledger) == Replay(old(EffectsOf(store, ledger)), Recording(opts, Conclusion(v).0, now))
  {
    if !ValidVerdict(v) {
      return Rejected(v.iteration, "verdict");
    }
    Record(opts, store, ledger, v, now);
    exit := Recorded(v);
  }

  /** `body` runs each pass as `Round` does. */
  ghost predicate IsRound(opts: RunOptions, env: W.Env, body: (int, W.World) -> Pass) {
    forall it, w {:trigger Round(opts, it, w, env)} :: body(it, w) == Round(opts, it, w, env)
  }

  lemma BodyIsRound(opts: RunOptions, env: W.Env)
    ensures IsRound(opts, env, Body(opts, env))
  {
  }

  /** One pass of the loop body of `runAgent`; `None` means go on to the next iteration. */
  method Iterate(opts: RunOptions, it: int, store: ArtifactStore, ledger: L.Ledger, host: W.Host, worker: W.Worker,
                 ghost body: (int, W.World) -> Pass)
    returns (ended: Option<Exit>, ghost round: seq<Event>)
    requires ledger.initialized && IsRound(opts, host.env, body)
    modifies store, ledger, host
    ensures ledger.initialized
    ensures EffectsOf(store, ledger) == Replay(old(EffectsOf(store, ledger)), round)
    ensures var p := body(it, old(host.State()));
      round == PassEvents(opts, p, host.env.clock) && host.State() == p.world && ended == p.exit
  {
    assert body(it, host.State()) == Round(opts, it, host.State(), host.env);
    ghost var e := EffectsOf(store, ledger);
    var now := host.env.clock;
    if opts.shouldStop(it) {
      var v := StopVerdict(opts, it, now, "Interrupted by user", "user-interrupt");
      var x := Conclude(opts, store, ledger, v, now);
      assert [] + Recording(opts, Conclusion(v).0, now) == Recording(opts, Conclusion(v).0, now);
      return Some(x), Recording(opts, Conclusion(v).0, now);
    }
    var plan := PlanFor(opts, it, now);
    if !ValidPlan(plan) {
      assert [] + Recording(opts, None, now) == [];
      return Some(Rejected(it, "plan")), [];
    }
    store.Write(opts.runId, it, "plan.json", PlanDoc(plan));
    ghost var planned := [Wrote(Key(opts.runId, it, "plan.json"), PlanDoc(plan))];
    ghost var e1 := EffectsOf(store, ledger);
    assert e1 == Replay(e, planned) by {
      assert planned[1..] == [];
    }
    if opts.dryRun {
      var v := StopVerdict(opts, it, now, "Dry-run requested", "dry-run");
      var x := Conclude(opts, store, ledger, v, now);
      ReplayConcat(e, planned, Recording(opts, Conclusion(v).0, now));
      return Some(x), planned + Recording(opts, Conclusion(v).0, now);
    }
    var results := worker.Execute(host, opts.runId, it, plan.tasks);
    store.Write(opts.runId, it, "results.json", ResultsDoc(results));
    ghost var written := [Wrote(Key(opts.runId, it, "results.json"), ResultsDoc(results))];
    assert EffectsOf(store, ledger) == Replay(e1, written) by {
      assert written[1..] == [];
    }
    var verdict := Evaluate(opts.goal, plan, results, now);
    Record(opts, store, ledger, verdict, now);
    ReplayConcat(e, planned, written);
    ReplayConcat(e, planned + written, Closing(opts, verdict, now));
    round := (planned + written) + Closing(opts, verdict, now);
    if verdict.status.IsTerminal() {
      return Some(Recorded(verdict)), round;
    }
    ended := None;
  }

  /** What is left of a loop from `it` over world `w`, after `events`, completes `target`. */
  ghost predicate Pending(opts: RunOptions, body: (int, W.World) -> Pass, it: int, end: int, w: W.World, budget: Verdict,
                          now: string, events: seq<Event>, target: Run) {
    var r := Drive(opts, body, it, end, w, budget, now);
    r.exit == target.exit && r.world == target.world && events + r.events == target.events
  }

  /** A pass that does not return leaves the rest of the loop pending; one that returns completes it. */
  lemma {:induction false} DriveStep(opts: RunOptions, body: (int, W.World) -> Pass, it: int, end: int, w: W.World, budget: Verdict,
                                     now: string, events: seq<Event>, target: Run)
    requires it < end && Pending(opts, body, it, end, w, budget, now, events, target)
    ensures var p := body(it, w);
      var after := events + PassEvents(opts, p, now);
      if p.exit.Some? then p.exit.value == target.exit && p.world == target.world && after == target.events
      else Pending(opts, body, it + 1, end, p.world, budget, now, after, target)
  {
    var p := body(it, w);
    if p.exit.None? {
      var x, y := PassEvents(opts, p, now), Drive(opts, body, it + 1, end, p.world, budget, now).events;
      assert events + (x + y) == (events + x) + y;
    }
  }

  /** Past the budget, recording the budget verdict completes the loop. */
  lemma DriveEnd(opts: RunOptions, body: (int, W.World) -> Pass, it: int, end: int, w: W.World, budget: Verdict,
                 now: string, events: seq<Event>, target: Run)
    requires it >= end && Pending(opts, body, it, end, w, budget, now, events, target)
    ensures target.exit == Conclusion(budget).1 && target.world == w
    ensures events + Recording(opts, Conclusion(budget).0, now) == target.events
  {
  }

  /** `budgetOf(end)` is the verdict recorded when the loop runs up to `end` without returning. */
  ghost predicate IsBudget(opts: RunOptions, now: string, budgetOf: int -> Verdict) {
    forall end {:trigger BudgetVerdict(opts, end, now)} :: budgetOf(end) == BudgetVerdict(opts, end, now)
  }

  /** The `for` loop of `runAgent` from `start` to `end` exclusive, then the budget verdict. */
  method RunIterations(opts: RunOptions, start: int, end: int, store: ArtifactStore, ledger: L.Ledger, host: W.Host,
                       ghost body: (int, W.World) -> Pass, ghost budgetOf: int -> Verdict)
    returns (exit: Exit)
    requires ledger.initialized && IsRound(opts, host.env, body) && IsBudget(opts, host.env.clock, budgetOf)
    modifies store, ledger, host
    ensures var r := Drive(opts, body, start, end, old(host.State()), budgetOf(end), host.env.clock);
      exit == r.exit && host.State() == r.world && EffectsOf(store, ledger) == Replay(old(EffectsOf(store, ledger)), r.events)
  {
    ghost var e0 := EffectsOf(store, ledger);
    var now := host.env.clock;
    ghost var budget := budgetOf(end);
    ghost var target := Drive(opts, body, start, end, host.State(), budget, now);
    ghost var events: seq<Event> := [];
    assert events + target.events == target.events;
    var worker := new W.Worker();
    var it := start;
    while it < end
      invariant start <= it && (it <= end || it == start)
      invariant ledger.initialized
      invariant EffectsOf(store, ledger) == Replay(e0, events)
      invariant Pending(opts, body, it, end, host.State(), budget, now, events, target)
      decreases end - it
    {
      DriveStep(opts, body, it, end, host.State(), budget, now, events, target);
      var ended, round := Iterate(opts, it, store, ledger, host, worker, body);
      ReplayConcat(e0, events, round);
      events := events + round;
      if ended.Some? {
        return ended.value;
      }
      it := it + 1;
    }
    DriveEnd(opts, body, it, end, host.State(), budget, now, events, target);
    var v := BudgetVerdict(opts, end, now);
    exit := Conclude(opts, store, ledger, v, now);
    ReplayConcat(e0, events, Recording(opts, Conclusion(v).0, now));
  }

  /** `initDb`, `upsertRun(runId, goal, "running")` and `getLatestIteration`: the first iteration of this invocation. */
  method OpenRun(opts: RunOptions, store: ArtifactStore, ledger: L.Ledger, now: string) returns (start: int)
    requires ledger.Valid()
    modifies ledger
    ensures ledger.initialized
    ensures start == StartIteration(opts, old(EffectsOf(store, ledger)), now)
    ensures EffectsOf(store, ledger) == Replay(old(EffectsOf(store, ledger)), Opening(opts, now))
  {
    ghost var e0 := EffectsOf(store, ledger);
    ledger.InitDb();
    ledger.UpsertRun(opts.runId, opts.goal, "running", now);
    ReplayOpening(e0, opts, now);
    var latest := ledger.LatestIteration(opts.runId);
    start := latest + 1;
  }

  /**
   * `runAgent` over a loop body and a budget verdict: the effects, the world and the way
   * the invocation ends are those `Agent` describes.
   */
  method RunAgentOver(opts: RunOptions, store: ArtifactStore, ledger: L.Ledger, host: W.Host,
                      ghost body: (int, W.World) -> Pass, ghost budgetOf: int -> Verdict)
    returns (exit: Exit)
    requires ledger.Valid() && IsRound(opts, host.env, body) && IsBudget(opts, host.env.clock, budgetOf)
    modifies store, ledger, host
    ensures var r := Agent(opts, body, budgetOf, old(EffectsOf(store, ledger)), old(host.State()), host.env.clock);
      exit == r.exit && host.State() == r.world && EffectsOf(store, ledger) == Replay(old(EffectsOf(store, ledger)), r.events)
  {
    ghost var e0 := EffectsOf(store, ledger);
    var now := host.env.clock;
    var start := OpenRun(opts, store, ledger, now);
    exit := RunIterations(opts, start, start + opts.maxIterations, store, ledger, host, body, budgetOf);
    ReplayConcat(e0, Opening(opts, now), Drive(opts, body, start, start + opts.maxIterations, old(host.State()), budgetOf(start + opts.maxIterations), now).events);
  }

  /** `Budget` gives the budget verdict for every end of the loop. */
  lemma BudgetIsBudget(opts: RunOptions, now: string)
    ensures IsBudget(opts, now, Budget(opts, now))
  {
  }

  /**
   * `runAgent`: the effects on the artifact store and the ledger, the worker's effects on
   * the host, and the way the invocation ends are those `AgentSpec` describes.
   */
  method RunAgent(opts: RunOptions, store: ArtifactStore, ledger: L.Ledger, host: W.Host) returns (exit: Exit)
    requires ledger.Valid()
    modifies store, ledger, host
    ensures var r := AgentSpec(opts, old(EffectsOf(store, ledger)), old(host.State()), host.env);
      exit == r.exit && host.State() == r.world && EffectsOf(store, ledger) == Replay(old(EffectsOf(store, ledger)), r.events)
  {
    BodyIsRound(opts, host.env);
    BudgetIsBudget(opts, host.env.clock);
    exit := RunAgentOver(opts, store, ledger, host, Body(opts, host.env), Budget(opts, host.env.clock));
  }
}
