# nthmb iteration harness — Dafny model

This project models the decision logic of the nthmb iteration harness. Given a goal, the
harness repeats plan → execute → evaluate → persist, and keeps a run ledger so that a later
invocation resumes at the next iteration. The model covers seven pieces:

- **`Worker`** (`worker.dfy`): the task executor `runTask` and the retry coordinator
  `Worker.execute`.
  - `runTask` dispatches on the task type: noop, write_file, edit_file, and shell with the
    command-prefix allowlist.
  - `Worker.execute` makes at most three attempts per task, with a backoff of
    100·2^attempt ms between them.
  - A `Host` class holds the mutable environment: the file system as a map, the count of
    `runTask` calls, the log of commands handed to `exec`, and the log of requested sleeps.
  - The clock, injected file-system faults and the answers of `exec` are fixed oracles of
    the host (`Env`).
  - The imperative methods `RunTask`, `Worker.Execute` and `Worker.RunWithRetries` are
    proved equal to the pure specifications `RunTaskSpec`, `RunAllSpec` and `RetrySpec`.
    The properties are proved as lemmas about those specifications.
- **`Agent`** (`agent.dfy`): the iteration controller `runAgent`.
  - The artifact store is a class holding documents keyed by (run id, iteration, file name).
  - Every artifact write and ledger call is an `Event`. The specification `AgentSpec`
    gives the exit, the ordered list of events and the worker's final world. It is built
    from `Round` (one pass of the loop body) and `Drive` (the `for` loop over any pass
    function, ending with the budget verdict).
  - The loop's properties are proved once for any well-shaped pass function (the `Drive…`
    and `Agent…` lemmas), then applied to `Round`.
  - The imperative `RunAgent` is proved to produce exactly what `AgentSpec` describes.
    Its final store and ledger are the replay of those events.
- **`Evaluator`** (`evaluator.dfy`): the verdict rule of `BasicEvaluator.evaluate`.
- **`Planner`** (`planner.dfy`): the stub planner's one-task plan.
- **`Artifacts`** (`artifacts.dfy`): the zod schemas, as datatypes, closed enums and
  validity predicates.
- **`Db`** (`db.dfy`): the run ledger.
  - Its two tables are maps in a `Ledger` class.
  - `Apply` states the effect of each call; the methods are proved to implement it.
  - `Latest` is the `MAX(iteration)` query.
- **`Cli`** (`cli.dfy`): `parseArgs`. `ParseArgs` is a loop proved equal to the
  specification `ParseArgsSpec`.

`Strings` (`strings.dfy`) models the JavaScript string operations the core relies on:
- `startsWith`, `includes`/`indexOf`;
- `replace` with a string pattern, including `$` substitution patterns;
- `trim`, ASCII `toLowerCase`;
- decimal rendering of integers.

`Wrappers` holds `Option` and `Result`.

Behaviour of the code that the model follows and that is easy to misread:
- **Evaluator:** a run fails only on two or more failed results, with stop reason
  "repeated-failures" (src/evaluator.ts:23-31). A single failure continues. The verdict is
  `done` only for an all-ok, all-noop plan (src/evaluator.ts:13-20).
- **Task types:** the schema has exactly five task types: noop, write_file, edit_file,
  shell and db (src/schemas/artifacts.ts:7). There is no read, list-files, grep, verify or
  apply-patch task.
- **Planner:** there is no `tool:` prefix convention. "write" anywhere in the lower-cased
  goal selects write_file; anything else is a noop (src/planner.ts:9-27).
- **Missing file:** edit_file on a missing file throws from `readFile` (ENOENT,
  src/worker.ts:44), so it is retried three times. It is not an `ok:false` return.
- **Schema failures:** the Plan/Verdict schema checks throw out of `runAgent`. The model
  makes this the `Rejected` exit.

## Model

| member | source | states |
|---|---|---|
| Worker.RunTaskSpec | src/worker.ts:15-82 | each call counts once and never sleeps; only a write_file/edit_file returning ok changes files; a throw leaves files unchanged; an allowlisted shell command is logged to `exec` exactly once, and any other task leaves the exec log unchanged; a return carries the clock's timestamps and has an error exactly when not ok, and logs exactly when ok |
| Worker.AllowlistPrefixes | src/worker.ts:9-61 | a command is allowed iff it starts with "pnpm ", "node " or "tsc " |
| Worker.NoopSucceeds | src/worker.ts:19-21 | noop returns ok with logs ["noop"] and changes nothing but the call count |
| Worker.WriteFileOverwrites | src/worker.ts:23-29 | without a fault, write_file returns ok and the file at `path` becomes `content`, whatever was there |
| Worker.EditEmptyFindFails | src/worker.ts:36-43 | an empty find string fails with the fixed message, without touching any file, even a missing one |
| Worker.EditNoMatchFails | src/worker.ts:44-52 | a find string absent from the file fails and leaves the file unchanged |
| Worker.EditWritesReplacement | src/worker.ts:53-56 | a successful edit writes `replace(find, replace)` of the contents back to the same path, other files unchanged |
| Worker.EditReplacesFirstOccurrence | src/worker.ts:53-56 | the edit replaces the first occurrence only: the text before and after it is preserved (replacement without `$`) |
| Worker.ShellOutsideAllowlistFails | src/worker.ts:59-69 | a command outside the allowlist fails and `exec` is never invoked |
| Worker.ShellAllowedRuns | src/worker.ts:59-74 | an allowlisted command is handed to `exec` once and logged, files unchanged; a completed run returns ok with the trimmed non-empty stdout and stderr as logs; a rejected run throws its error |
| Worker.UnsupportedTypeFails | src/worker.ts:76-81 | any other type (db) fails with "Unsupported task type: db" and changes nothing |
| Worker.RetrySpec | src/worker.ts:88-113 | the result carries the task id and clock timestamps; the attempt loop makes between 1 and 3 − attempt calls and requests one backoff delay 100·2^k per call but the last |
| Worker.RunAllSpec | src/worker.ts:86-114 | the definition of the loop over tasks: each task's attempt loop runs from the world the previous one left, results appended in task order (its shape is `RunAllShape`) |
| Worker.RunAllShape | src/worker.ts:86-114 | exactly one result per task, in plan order, with `taskId == task.id`; between 1 and 3 calls per task |
| Worker.ReturnSettles | src/worker.ts:90-95 | on any attempt, a normal return, even ok:false, settles the task with its own outcome after exactly one more call and no delay |
| Worker.ThrowBacksOff | src/worker.ts:96-100 | a throw on any attempt k but the last keeps the files, adds exactly one delay 100·2^k and continues with attempt k + 1 carrying the error |
| Worker.LastThrowExhausts | src/worker.ts:96-113 | a throw on the last attempt requests no delay and ends in the synthesized ok:false result carrying that error |
| Worker.ThrowingTaskExhaustsRetries | src/worker.ts:90-113 | a task throwing on every attempt gets exactly 3 calls, delays [100, 200], and one ok:false result with the last error's message and stack |
| Worker.MissingFileExhaustsRetries | src/worker.ts:44-113 | edit_file on a missing path is attempted three times and then fails, files unchanged |
| Worker.NoopPlanSucceeds | src/worker.ts:86-114 | executing a one-noop plan gives one ok result |
| Worker.Host.constructor | src/worker.ts:1-13 | a fresh host holds the given files and empty logs |
| Worker.Host.BeginCall | src/worker.ts:15-16 | counts the call and reads whether its first file-system operation throws |
| Worker.Host.WriteFile | src/worker.ts:26-27 | overwrites the path unless the injected fault throws |
| Worker.Host.ReadFile | src/worker.ts:44 | the contents, the injected fault, or ENOENT for a missing path |
| Worker.Host.Exec | src/worker.ts:70 | logs the command and returns the oracle's answer for this exec call |
| Worker.Host.Sleep | src/worker.ts:11-13 | records the requested delay |
| Worker.RunTask | src/worker.ts:15-82 | the imperative `runTask` equals `RunTaskSpec` in result and new host state |
| Worker.Worker.Execute | src/worker.ts:85-121 | results carry the given runId and iteration and the clock; task results and new host state equal `RunAllSpec` |
| Worker.Worker.RunWithRetries | src/worker.ts:89-113 | the attempt loop for one task equals `RetrySpec` from attempt 0 |
| Evaluator.FailedCount | src/evaluator.ts:11 | the failed count is at most the number of results, 0 iff all are ok, and all of them iff none is ok |
| Evaluator.FailedCountConcat | src/evaluator.ts:11 | failures of concatenated results add up |
| Evaluator.Evaluate | src/evaluator.ts:8-42 | runId, iteration copied from the plan; done iff all ok and all noop; failed iff ≥2 failures; never stopped; `next` is none / "repeated-failures" / ["Refine next step"] by status |
| Evaluator.EmptyPlanDone | src/evaluator.ts:9-13 | an empty plan with no results is vacuously done |
| Evaluator.SingleFailureContinues | src/evaluator.ts:23-41 | exactly one failure yields continue |
| Evaluator.FailedIsMonotone | src/evaluator.ts:11-23 | adding results to a failed iteration keeps it failed |
| Evaluator.EvaluateValid | src/evaluator.ts:8-42 | the verdict passes the verdict schema iff the plan's iteration is non-negative and the clock reading is a timestamp |
| Planner.GoalTask | src/planner.ts:9-27 | the stub planner's only task is a write_file or a noop task (which one, and its id and inputs, is `PlanTaskByGoal`) |
| Planner.Plan | src/planner.ts:8-36 | exactly one task; runId, iteration and goal copied from the context, `createdAt` the clock reading |
| Planner.PlanTaskByGoal | src/planner.ts:9-27 | write_file iff the lower-cased goal contains "write", with id task-&lt;i&gt;-write, path workspace/&lt;runId&gt;/&lt;i&gt;/note.txt and the goal as content; otherwise noop with id task-&lt;i&gt;-noop and no inputs |
| Planner.LowerCaseWriteSelectsWrite | src/planner.ts:9-10 | "write" anywhere in the goal selects write_file |
| Planner.PlanValid | src/planner.ts:29-35 | the plan passes the plan schema iff the iteration is non-negative and the clock reading is a timestamp |
| Planner.TaskIdsDistinct | src/planner.ts:12-22 | different iterations never share a task id |
| Artifacts.IsIsoDate | src/schemas/artifacts.ts:3 | the definition of the timestamp check: `YYYY-MM-DDTHH:MM:SS`, optional fractional seconds, then `Z`, by shape only |
| Artifacts.ValidPlan | src/schemas/artifacts.ts:13-19 | the definition of the plan schema's checks: non-negative iteration, timestamp `createdAt` |
| Artifacts.ValidResults | src/schemas/artifacts.ts:21-36 | the definition of the results schema's checks: non-negative iteration, timestamp `createdAt`, every task result with timestamp `startedAt` and `finishedAt` |
| Artifacts.ValidVerdict | src/schemas/artifacts.ts:38-50 | the definition of the verdict schema's checks: non-negative iteration, timestamp `createdAt` |
| Artifacts.ParseTaskType | src/schemas/artifacts.ts:7 | accepts exactly noop, write_file, edit_file, shell, db, each to its own type |
| Artifacts.ParseStatus | src/schemas/artifacts.ts:42 | accepts exactly continue, done, failed, stopped, each to its own status |
| Db.Latest | src/db/index.ts:56-63 | -1 when the run has no iteration rows, otherwise the largest recorded iteration of that run |
| Db.MaxExists | src/db/index.ts:59 | a non-empty finite set of iterations has a maximum |
| Db.LatestIgnoresOtherRuns | src/db/index.ts:59 | rows of other runs do not move a run's latest iteration |
| Db.LatestAfterAdd | src/db/index.ts:47-59 | adding an iteration at or above the latest makes it the latest |
| Db.Apply | src/db/index.ts:12-54 | table creation keeps rows; upsert inserts with created_at == updated_at == now or updates goal, status, updated_at keeping created_at, other runs unchanged; addIteration inserts or replaces the one row for its key |
| Db.InitIdempotent | src/db/index.ts:14-31 | creating the tables twice is creating them once |
| Db.UpsertKeepsCreatedAt | src/db/index.ts:38-43 | two upserts keep the first created_at and the last goal, status, updated_at |
| Db.AddIterationReplaces | src/db/index.ts:28-52 | a second row for the same (run, iteration) replaces the first |
| Db.Ledger.constructor | src/db/index.ts:7-10 | a fresh ledger has no tables and no rows |
| Db.Ledger.InitDb | src/db/index.ts:12-33 | `initDb` is `Apply(CreateTables)` |
| Db.Ledger.UpsertRun | src/db/index.ts:35-45 | `upsertRun` is `Apply(UpsertRunOp)` |
| Db.Ledger.AddIteration | src/db/index.ts:47-54 | `addIteration` is `Apply(AddIterationOp)` |
| Db.Ledger.LatestIteration | src/db/index.ts:56-63 | `getLatestIteration` returns `Latest` of the iterations table |
| Agent.ReplayConcat | src/agent.ts:16-96 | replaying concatenated effects replays each half in turn |
| Agent.ReplayClosing | src/agent.ts:39-41 | recording a verdict writes verdict.json, then the iteration row, then the run status |
| Agent.ReplayWritesKeepTables | src/agent.ts:46-67 | artifact writes leave the ledger unchanged |
| Agent.ReplayOpening | src/agent.ts:17-18 | opening creates the tables and upserts the run as "running", touching no artifact |
| Agent.BudgetVerdictFacts | src/agent.ts:83-92 | the budget verdict is stopped, for iteration end − 1, and passes its schema iff the clock is a timestamp and end ≥ 1 |
| Agent.Round | src/agent.ts:29-80 | the definition of one pass of the loop body: stop check, plan, dry-run check, execute, evaluate, record; its exit, effects and new world (properties in `RoundShape`, `RoundRejectedIff`, `RoundNeverFails`) |
| Agent.Proceed | src/agent.ts:65-80 | the definition of the execute branch of a pass: results and verdict written, the verdict recorded, and the loop left unless the status is continue |
| Agent.Drive | src/agent.ts:28-95 | the definition of the `for` loop over any pass function, closed by the budget verdict when no pass returns (properties in the `Drive…` lemmas) |
| Agent.AgentSpec | src/agent.ts:16-96 | the definition of `runAgent`: the opening, then `Drive` over `Round` from one past the latest iteration for `maxIterations` iterations (properties in the `Agent…` lemmas) |
| Agent.RoundArtifactsValid | src/agent.ts:65-70 | once the plan passes its schema, results and evaluator verdict pass theirs, so those parses never throw |
| Agent.RoundShape | src/agent.ts:29-80 | a pass writes only its own iteration's artifacts, records only its own iteration's verdict, records one whenever the loop goes on, and throws only before any effect |
| Agent.RoundRejectedIff | src/agent.ts:38-58 | a pass throws iff the clock is not a timestamp or the iteration is negative |
| Agent.DriveRejectedIff | src/agent.ts:28-95 | for any well-shaped pass function, the loop throws iff its first verdict or plan would fail its schema, and then has no effect |
| Agent.LoopRejectedIff | src/agent.ts:28-95 | the loop throws iff the clock is not a timestamp, or the first iteration is negative, or the budget verdict's iteration is negative |
| Agent.AgentRejectedIff | src/agent.ts:16-95 | for any well-shaped pass function, `runAgent` throws iff the clock is not a timestamp or its start or its budget verdict's iteration is negative; then only the opening happened |
| Agent.AgentRejected | src/agent.ts:16-95 | `runAgent` throws iff its start is negative, its budget verdict iteration is negative, or the clock is not a timestamp; then only initDb and the "running" upsert happened |
| Agent.RoundNeverFails | src/agent.ts:65-80 | a pass over the stub's one-task plan never returns a failed verdict |
| Agent.DriveNeverFails | src/agent.ts:28-95 | a loop whose passes never return failed ends without a failed verdict, the budget verdict being stopped |
| Agent.StubNeverFails | src/agent.ts:65-80 | with one-task plans a recorded verdict is never failed |
| Agent.NoWriteGoalIsDone | src/agent.ts:44-80 | a goal without "write" ends in its first normal iteration as done, after one task call |
| Agent.WriteGoalContinues | src/agent.ts:65-80 | a normal pass of a goal with "write" never ends the loop |
| Agent.DriveRunsToBudget | src/agent.ts:28-95 | when no pass returns, the loop ends as the budget verdict's parse decides |
| Agent.WriteGoalRunsToBudget | src/agent.ts:28-95 | a goal with "write" and no interrupt runs to the budget and records the stopped/"max-iterations" verdict at end − 1 |
| Agent.DriveKeepsWorld | src/agent.ts:28-95 | passes that leave the worker's world unchanged make a loop that leaves it unchanged |
| Agent.DryRunRunsNoTask | src/agent.ts:49-63 | a dry run never calls the worker |
| Agent.ClosingStores | src/agent.ts:39-95 | after recording a verdict the store holds it, its iteration row and the run row carry its status |
| Agent.DriveStoresVerdict | src/agent.ts:28-95 | for any well-shaped pass function, the verdict a loop returns is the one its effects leave in the store and the ledger |
| Agent.AgentStoresVerdict | src/agent.ts:16-95 | the same for the opening followed by the loop |
| Agent.RecordedVerdictIsStored | src/agent.ts:16-96 | the same for `runAgent` as a whole |
| Agent.ClosingLatest | src/agent.ts:73 | recording a verdict at or above the latest makes its iteration the run's latest |
| Agent.DriveAdvancesLatest | src/agent.ts:28-95 | starting above the latest, the returned verdict's iteration is the latest afterwards |
| Agent.AgentAdvancesLatest | src/agent.ts:16-95 | the same for the opening followed by the loop from one past the latest |
| Agent.LatestIsRecordedIteration | src/agent.ts:24-26 | with a non-negative budget, the next invocation starts one past the recorded verdict's iteration |
| Agent.InterruptStops | src/agent.ts:29-43 | an interrupt records the stopped/"user-interrupt" verdict for that iteration, makes no plan and runs nothing |
| Agent.DryRunStopsAfterPlan | src/agent.ts:44-63 | a dry run writes plan.json, then the stopped/"dry-run" verdict, and returns without results.json |
| Agent.EventsInRangeConcat | src/agent.ts:28 | effects within an iteration range stay within it when concatenated |
| Agent.ClosingInRange | src/agent.ts:39-41 | recording a verdict touches only its own iteration |
| Agent.PassInRange | src/agent.ts:29-80 | a well-shaped pass touches only its own iteration |
| Agent.DriveStaysInRange | src/agent.ts:26-83 | every artifact and iteration row of the loop concerns an iteration in [start, end) |
| Agent.AgentOpensThenInRange | src/agent.ts:17-28 | for any well-shaped pass function, the opening comes first and everything after it stays in [start, start + maxIterations) |
| Agent.RunningThenInRange | src/agent.ts:17-28 | the run is created and marked running before any iteration; the first iteration is latest + 1; with a positive budget nothing reaches start + maxIterations |
| Agent.NormalRoundOrder | src/agent.ts:44-74 | a normal iteration writes plan.json, results.json, verdict.json in order, then records the iteration row and run status with the verdict's status |
| Agent.ArtifactStore.constructor | src/agent.ts:1 | the store starts empty |
| Agent.ArtifactStore.Write | src/agent.ts:39-71 | writing replaces the document at (runId, iteration, name) |
| Agent.Record | src/agent.ts:39-41 | writes the verdict and updates the ledger exactly as `Closing` replays |
| Agent.Conclude | src/agent.ts:38-42 | parses a stop verdict, then records it, as `Conclusion` decides |
| Agent.Iterate | src/agent.ts:29-80 | one loop body: its effects, exit and worker world are those of `Round` for that iteration |
| Agent.RunIterations | src/agent.ts:28-95 | the for loop and the budget verdict agree with `Drive` over `Round` |
| Agent.OpenRun | src/agent.ts:17-25 | initDb, the "running" upsert and the latest-iteration query: the start is one past the run's latest iteration |
| Agent.RunAgentOver | src/agent.ts:16-96 | opening then the loop: exit, worker world and effects agree with `Agent` |
| Agent.RunAgent | src/agent.ts:16-96 | exit, worker world and final store and ledger agree with `AgentSpec` |
| Cli.At | src/cli.ts:16-35 | `argv[i]`, undefined past the end |
| Cli.NumberOf | src/cli.ts:30 | undefined is not a number; a blank string is 0 |
| Cli.NumberOfRendering | src/cli.ts:30 | `Number` reads back the decimal rendering of every integer |
| Cli.ScanFlags | src/cli.ts:25-39 | the definition of the flag loop from position i: `--dry-run` sets dry run, `--max-iterations` and `--run-id` consume the next argument and fail on a missing, non-positive or empty value, anything else is skipped |
| Cli.ParseArgsSpec | src/cli.ts:11-42 | the definition of `parseArgs`: usage error unless the first argument is "run", "Goal is required" for a missing or empty goal, then the flag loop from position 2 with defaults 10, no dry run and the generated id |
| Cli.ParseArgs | src/cli.ts:11-42 | the imperative loop equals `ParseArgsSpec` |
| Cli.ParseArgsOutcome | src/cli.ts:11-42 | a first argument other than "run" is the usage error; a missing or empty goal is an error; success returns the goal, a positive budget, a non-empty run id |
| Cli.ScanKeepsWellFormed | src/cli.ts:29-37 | the scan only stores positive budgets and non-empty run ids |
| Cli.DefaultsWithoutFlags | src/cli.ts:21-41 | without flags: 10 iterations, no dry run, the generated id; other arguments are ignored |
| Cli.ScanIgnoresOthers | src/cli.ts:25-39 | unrecognised arguments change nothing |
| Cli.ScanShift | src/cli.ts:25-39 | the scan of a suffix does not depend on what precedes it |
| Cli.ScanAppend | src/cli.ts:25-39 | flags appended after a successful scan continue from its flags |
| Cli.RunIdLastWins | src/cli.ts:34-41 | the last `--run-id` wins and is returned verbatim |
| Cli.MaxIterationsLastWins | src/cli.ts:29-33 | the last `--max-iterations` wins if positive, and is an error otherwise |
| Cli.TrailingFlagFails | src/cli.ts:29-37 | a value-taking flag with no value after it is an error |
| Strings.IndexFrom | src/worker.ts:45-53 | the first occurrence at or after `from`, or none |
| Strings.ContainsIff | src/worker.ts:45 | `includes` iff the string occurs somewhere |
| Strings.Substitution | src/worker.ts:53 | the definition of `replace`'s substitution patterns for a string pattern: `$$`, `$&`, `` $` `` and `$'`, any other `$` kept literally |
| Strings.ReplaceFirst | src/worker.ts:53 | the definition of `replace` with a string pattern: the first occurrence is replaced by the substituted replacement, no occurrence leaves the string as it is (proved in `ReplaceFirstSplits`, `ReplaceFirstNoMatch`) |
| Strings.SubstitutionLiteral | src/worker.ts:53 | a replacement without `$` is inserted literally |
| Strings.ReplaceFirstSplits | src/worker.ts:53 | `replace` replaces the first occurrence, keeping prefix and suffix |
| Strings.ReplaceFirstNoMatch | src/worker.ts:53 | `replace` without a match is the identity |
| Strings.Trim | src/worker.ts:71-72 | the result has no surrounding white space and is the input minus leading white space, at its start |
| Strings.LowerAscii | src/planner.ts:9 | same length, each character lowered |
| Strings.LowerKeepsLowerWord | src/planner.ts:9-10 | a lower-case word in the goal survives lowering |
| Strings.DigitsRoundTrip | src/planner.ts:12 | decimal rendering reads back |
| Strings.IntToStringInjective | src/planner.ts:12-22 | distinct integers render differently |

## Left out

- The progress lines printed by `console.log` after each plan and each verdict (src/agent.ts:47, src/agent.ts:76) are not modelled; they affect no state.
- Strings: JavaScript strings are sequences of UTF-16 code units; every string operation here works on Dafny `char`s, so surrogate pairs are not distinguished from single characters.
- Time: every timestamp in one invocation is the same clock reading (`Env.clock`). The clock is never re-read between `startedAt` and `finishedAt`.
- The zod `datetime()` check is approximated by `IsIsoDate`: `YYYY-MM-DDTHH:MM:SS[.fraction]Z` by shape, with no range check on months, days or hours.
- `String(...)` coercion of task inputs: inputs are modelled as a map of strings; a missing key reads as "".
- A task result's `output` is never set by the worker; it is kept in the datatype as an optional field.
- Cli.NumberOf: models `Number()` only for blank strings and optionally signed decimal digit strings; hexadecimal, exponent and fractional forms ("5.0" is an integer to `Number`), "Infinity", and precision loss beyond 2^53 are not modelled, so those arguments are rejected.
- Strings.LowerAscii: ASCII lowering only, not Unicode-aware `toLowerCase`.
- `mkdir` of parent directories and directory structure: the file system is a flat map from path to contents.
- Worker.RunTaskSpec: an injected fault can hit only the first file-system operation of a call; a fault in `writeFile` after a successful `readFile` in edit_file is not modelled.
- Error stack traces are opaque strings chosen by the fault oracle. Non-Error throwables (`new Error(String(x))`) are not distinguished.
- `exec` is an oracle indexed by command and exec-call number; real subprocesses, exit codes and timeouts are not modelled.
- `sleep` only records the requested delay; no time passes.
- src/artifacts/writer.ts: file I/O and JSON serialisation are not part of this model; the store is a map from (runId, iteration, file name) to a document value.
- `shouldStop` is modelled as a function of the iteration number, standing for the SIGINT flag the CLI sets; the signal handler, `process.exit`, exit codes and console output of src/cli.ts:44-62 are left out.
- `makeRunId` is the `generatedId` parameter of `ParseArgs`.
- The sqlite connection lifecycle (open/close per call, the `state/` directory) is left out.
- Db.Ledger.UpsertRun and Db.Ledger.AddIteration require the tables to exist; calling them before `initDb` (which sqlite would reject) is not modelled, since `runAgent` always calls `initDb` first.
- The foreign key from `iterations.run_id` to `runs` is not enforced; `runAgent` always upserts the run first.
- Worker.Worker.RunWithRetries, Agent.OpenRun, Agent.Iterate and Agent.RunIterations split the source's functions into separate methods, to keep each proof small; their order of effects is that of the source. Agent.RunAgentOver takes the loop body and the budget verdict as ghost functions that `RunAgent` fixes to `Round` and to the budget verdict.
- `runAgent` with `maxIterations <= 0` (unreachable from the CLI, which demands a positive budget) writes the budget verdict at `start + maxIterations - 1`, which can overwrite an earlier iteration's verdict and row; the model follows this, and Agent.LatestIsRecordedIteration assumes a non-negative budget.
- `replace`'s `$` patterns are modelled (`Strings.Substitution`), but Worker.EditReplacesFirstOccurrence states the literal insertion only for replacements without `$`.
