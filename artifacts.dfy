/**
 * The artifact schemas: the records the harness writes for every iteration (plan,
 * results, verdict) and the validity each record must pass before it is persisted.
 */
module Artifacts {
  import opened Wrappers
  import opened Strings

  /** The closed set of task types a plan may contain. */
  datatype TaskType = Noop | WriteFile | EditFile | Shell | Db

  function TaskTypeName(t: TaskType): string {
    match t
    case Noop => "noop"
    case WriteFile => "write_file"
    case EditFile => "edit_file"
    case Shell => "shell"
    case Db => "db"
  }

  /** The enum check on a task's `type`: exactly the five names are accepted. */
  function ParseTaskType(s: string): (r: Option<TaskType>)
    ensures r.Some? <==> s in ["noop", "write_file", "edit_file", "shell", "db"]
    ensures r.Some? ==> TaskTypeName(r.value) == s
    ensures forall t :: TaskTypeName(t) == s ==> r == Some(t)
  {
    if s == "noop" then Some(Noop)
    else if s == "write_file" then Some(WriteFile)
    else if s == "edit_file" then Some(EditFile)
    else if s == "shell" then Some(Shell)
    else if s == "db" then Some(Db)
    else None
  }

  /** The closed set of verdict statuses. */
  datatype Status = Continue | Done | Failed | Stopped {
    /** done, failed and stopped end a run; continue does not. */
    predicate IsTerminal() {
      !Continue?
    }
  }

  function StatusName(s: Status): string {
    match s
    case Continue => "continue"
    case Done => "done"
    case Failed => "failed"
    case Stopped => "stopped"
  }

  /** The enum check on a verdict's `status`: exactly the four names are accepted. */
  function ParseStatus(s: string): (r: Option<Status>)
    ensures r.Some? <==> s in ["continue", "done", "failed", "stopped"]
    ensures r.Some? ==> StatusName(r.value) == s
    ensures forall t :: StatusName(t) == s ==> r == Some(t)
  {
    if s == "continue" then Some(Continue)
    else if s == "done" then Some(Done)
    else if s == "failed" then Some(Failed)
    else if s == "stopped" then Some(Stopped)
    else None
  }

  /**
   * The shape of an ISO-8601 UTC timestamp as the schema's datetime check accepts it:
   * `YYYY-MM-DDTHH:MM:SS`, optional fractional seconds, then `Z`.
   */
  predicate IsIsoDate(s: string) {
    && |s| >= 20
    && AllDigits(s[..4]) && AllDigits(s[5..7]) && AllDigits(s[8..10])
    && AllDigits(s[11..13]) && AllDigits(s[14..16]) && AllDigits(s[17..19])
    && s[4] == '-' && s[7] == '-' && s[10] == 'T' && s[13] == ':' && s[16] == ':'
    && s[|s| - 1] == 'Z'
    && (|s| == 20 || (|s| >= 22 && s[19] == '.' && AllDigits(s[20..|s| - 1])))
  }

  /** A task of a plan; `inputs` holds its string-valued parameters. */
  datatype Task = Task(id: string, kind: TaskType, title: string, rationale: string, inputs: map<string, string>)

  datatype Plan = Plan(runId: string, iteration: int, createdAt: string, goal: string, tasks: seq<Task>)

  /** The `error` of a task result: a message and an optional stack trace. */
  datatype ErrorInfo = ErrorInfo(message: string, stack: Option<string>)

  datatype TaskResult = TaskResult(
    taskId: string,
    ok: bool,
    startedAt: string,
    finishedAt: string,
    output: Option<string>,
    error: Option<ErrorInfo>,
    logs: Option<seq<string>>)

  datatype Results = Results(runId: string, iteration: int, createdAt: string, taskResults: seq<TaskResult>)

  /** The optional hint of a verdict; each of its two fields is optional on its own. */
  datatype Next = Next(suggestedTasks: Option<seq<string>>, stopReason: Option<string>)

  datatype Verdict = Verdict(runId: string, iteration: int, createdAt: string, status: Status, rationale: string, next: Option<Next>)

  predicate ValidPlan(p: Plan) {
    p.iteration >= 0 && IsIsoDate(p.createdAt)
  }

  predicate ValidTaskResult(r: TaskResult) {
    IsIsoDate(r.startedAt) && IsIsoDate(r.finishedAt)
  }

  predicate ValidResults(r: Results) {
    r.iteration >= 0 && IsIsoDate(r.createdAt) && forall i :: 0 <= i < |r.taskResults| ==> ValidTaskResult(r.taskResults[i])
  }

  predicate ValidVerdict(v: Verdict) {
    v.iteration >= 0 && IsIsoDate(v.createdAt)
  }
}
