/**
 * The task executor (`runTask`) and the retry coordinator (`Worker.execute`).
 *
 * The environment is a `Host`: a file system as a map from path to contents, a counter of
 * `runTask` calls, the log of commands handed to `exec` and the log of requested backoff
 * delays. Three oracles are fixed for a host: the clock reading used for every timestamp,
 * whether the first file-system operation of the k-th `runTask` call throws, and what
 * `exec` answers for a command on the k-th exec call.
 */
module Worker {
  import opened Wrappers
  import opened Strings
  import opened Artifacts

  const MaxRetries: nat := 3
  const ShellAllowlist: seq<string> := ["pnpm ", "node ", "tsc "]

  /** A thrown Error: its message and stack trace. */
  datatype Fault = Fault(message: string, stack: string)

  /** What `exec` answers: the captured output streams, or a rejection (non-zero exit, spawn failure). */
  datatype ExecResult = Completed(stdout: string, stderr: string) | Rejected(fault: Fault)

  /** The value `runTask` resolves to: a task result without `taskId` (and without `output`, which it never sets). */
  datatype Outcome = Outcome(ok: bool, startedAt: string, finishedAt: string, error: Option<ErrorInfo>, logs: Option<seq<string>>)

  /** One call of `runTask`: it either returns an outcome or throws. */
  datatype Attempt = Returned(outcome: Outcome) | Threw(fault: Fault)

  /** The oracles of an environment. */
  datatype Env = Env(clock: string, fsFault: nat -> Option<Fault>, exec: (string, nat) -> ExecResult)

  /** The mutable state of an environment, as a value. */
  datatype World = World(files: map<string, string>, calls: nat, execLog: seq<string>, sleeps: seq<nat>)

  /** `String(task.inputs[key] ?? "")`. */
  function Input(task: Task, key: string): string {
    if key in task.inputs then task.inputs[key] else ""
  }

  /** `SHELL_ALLOWLIST.some((prefix) => command.startsWith(prefix))`. */
  predicate IsAllowed(command: string) {
    exists i :: 0 <= i < |ShellAllowlist| && StartsWith(command, ShellAllowlist[i])
  }

  /** The allowlist admits exactly the commands that start with "pnpm ", "node " or "tsc ". */
  lemma AllowlistPrefixes(command: string)
    ensures IsAllowed(command) <==> StartsWith(command, "pnpm ") || StartsWith(command, "node ") || StartsWith(command, "tsc ")
  {
    if StartsWith(command, "pnpm ") {
      assert StartsWith(command, ShellAllowlist[0]);
    } else if StartsWith(command, "node ") {
      assert StartsWith(command, ShellAllowlist[1]);
    } else if StartsWith(command, "tsc ") {
      assert StartsWith(command, ShellAllowlist[2]);
    }
  }

  function Succeeded(now: string, logs: seq<string>): Outcome {
    Outcome(true, now, now, None, Some(logs))
  }

  function Failed(now: string, message: string): Outcome {
    Outcome(false, now, now, Some(ErrorInfo(message, None)), None)
  }

  /** What `readFile` throws for a path that does not exist. */
  function MissingFile(path: string): Fault {
    var message := "ENOENT: no such file or directory, open '" + path + "'";
    Fault(message, "Error: " + message)
  }

  /** The logs of a shell task: each non-empty stream, trimmed, stdout first. */
  function StreamLogs(stdout: string, stderr: string): seq<string> {
    (if stdout != "" then [Trim(stdout)] else []) + (if stderr != "" then [Trim(stderr)] else [])
  }

  /**
   * One call of `runTask` on a task, from world `w`. It counts one call and never sleeps;
   * only a write_file or edit_file task that returns ok changes the file system; a throw
   * leaves the file system as it was; only an allowlisted shell command reaches `exec`.
   */
  function RunTaskSpec(task: Task, w: World, env: Env): (r: (Attempt, World))
    ensures r.1.calls == w.calls + 1 && r.1.sleeps == w.sleeps
    ensures r.1.files != w.files ==> task.kind in {WriteFile, EditFile} && r.0.Returned? && r.0.outcome.ok
    ensures r.0.Threw? ==> task.kind in {WriteFile, EditFile, Shell} && r.1.files == w.files
    ensures task.kind == Shell && IsAllowed(Input(task, "command")) ==> r.1.execLog == w.execLog + [Input(task, "command")]
    ensures !(task.kind == Shell && IsAllowed(Input(task, "command"))) ==> r.1.execLog == w.execLog
    ensures r.0.Returned? ==> r.0.outcome.startedAt == env.clock && r.0.outcome.finishedAt == env.clock
    ensures r.0.Returned? ==> (r.0.outcome.ok <==> r.0.outcome.error.None?) && (r.0.outcome.ok <==> r.0.outcome.logs.Some?)
  {
    var fault := env.fsFault(w.calls);
    var w1 := w.(calls := w.calls + 1);
    var now := env.clock;
    match task.kind
    case Noop => (Returned(Succeeded(now, ["noop"])), w1)
    case WriteFile =>
      var path := Input(task, "path");
      if fault.Some? then (Threw(fault.value), w1)
      else (Returned(Succeeded(now, ["wrote " + path])), w1.(files := w.files[path := Input(task, "content")]))
    case EditFile =>
      var path, find, replacement := Input(task, "path"), Input(task, "find"), Input(task, "replace");
      if |find| == 0 then (Returned(Failed(now, "edit_file requires a non-empty find string")), w1)
      else if fault.Some? then (Threw(fault.value), w1)
      else if path !in w.files then (Threw(MissingFile(path)), w1)
      else if !Contains(w.files[path], find) then
        (Returned(Failed(now, "edit_file could not find match in " + path)), w1)
      else
        (Returned(Succeeded(now, ["edited " + path])),
         w1.(files := w.files[path := ReplaceFirst(w.files[path], find, replacement)]))
    case Shell =>
      var command := Input(task, "command");
      if !IsAllowed(command) then (Returned(Failed(now, "shell command is not allowlisted: " + command)), w1)
      else
        var w2 := w1.(execLog := w.execLog + [command]);
        (match env.exec(command, |w.execLog|)
         case Rejected(f) => (Threw(f), w2)
         case Completed(out, err) => (Returned(Succeeded(now, StreamLogs(out, err))), w2))
    case Db => (Returned(Failed(now, "Unsupported task type: " + TaskTypeName(task.kind))), w1)
  }

  /**
   * An allowlisted shell command is handed to `exec` exactly once and logged; the file
   * system is untouched; a completed run returns ok with the trimmed, non-empty streams
   * as its logs, and a rejected run throws.
   */
  lemma ShellAllowedRuns(task: Task, w: World, env: Env)
    requires task.kind == Shell && IsAllowed(Input(task, "command"))
    ensures var (a, w') := RunTaskSpec(task, w, env);
      var command := Input(task, "command");
      && w'.execLog == w.execLog + [command] && w'.files == w.files
      && (env.exec(command, |w.execLog|).Completed? ==>
            a == Returned(Succeeded(env.clock, StreamLogs(env.exec(command, |w.execLog|).stdout,
                                                          env.exec(command, |w.execLog|).stderr))))
      && (env.exec(command, |w.execLog|).Rejected? ==> a == Threw(env.exec(command, |w.execLog|).fault))
  {
  }

  /** A no-op task returns ok with the single log line "noop" and touches nothing. */
  lemma NoopSucceeds(task: Task, w: World, env: Env)
    requires task.kind == Noop
    ensures RunTaskSpec(task, w, env) == (Returned(Succeeded(env.clock, ["noop"])), w.(calls := w.calls + 1))
  {
  }

  /** write_file leaves the file at `path` equal to `content`, whatever was there before. */
  lemma WriteFileOverwrites(task: Task, w: World, env: Env)
    requires task.kind == WriteFile && env.fsFault(w.calls).None?
    ensures var (a, w') := RunTaskSpec(task, w, env);
      a.Returned? && a.outcome.ok && w'.files == w.files[Input(task, "path") := Input(task, "content")]
  {
  }

  /** edit_file with an empty find string fails without reading or writing any file, even a missing one. */
  lemma EditEmptyFindFails(task: Task, w: World, env: Env)
    requires task.kind == EditFile && Input(task, "find") == ""
    ensures var (a, w') := RunTaskSpec(task, w, env);
      a == Returned(Failed(env.clock, "edit_file requires a non-empty find string")) && w'.files == w.files
  {
  }

  /** edit_file whose find string does not occur in the file fails and leaves the file unchanged. */
  lemma EditNoMatchFails(task: Task, w: World, env: Env)
    requires task.kind == EditFile && Input(task, "find") != "" && env.fsFault(w.calls).None?
    requires Input(task, "path") in w.files && !Contains(w.files[Input(task, "path")], Input(task, "find"))
    ensures var (a, w') := RunTaskSpec(task, w, env);
      a.Returned? && !a.outcome.ok && w'.files == w.files
  {
  }

  /**
   * A successful edit_file writes `ReplaceFirst` of the file's contents back to the same
   * path and leaves every other file as it was.
   */
  lemma EditWritesReplacement(task: Task, w: World, env: Env)
    requires task.kind == EditFile && Input(task, "find") != "" && env.fsFault(w.calls).None?
    requires Input(task, "path") in w.files && Contains(w.files[Input(task, "path")], Input(task, "find"))
    ensures var (a, w') := RunTaskSpec(task, w, env);
      var path := Input(task, "path");
      && a.Returned? && a.outcome.ok
      && w'.files == w.files[path := ReplaceFirst(w.files[path], Input(task, "find"), Input(task, "replace"))]
  {
  }

  /**
   * A successful edit_file replaces only the first occurrence of the find string: the text
   * before it and the text after it are kept, and a replacement without `$` is inserted as is.
   */
  lemma EditReplacesFirstOccurrence(task: Task, w: World, env: Env)
    requires task.kind == EditFile && Input(task, "find") != "" && env.fsFault(w.calls).None?
    requires Input(task, "path") in w.files && Contains(w.files[Input(task, "path")], Input(task, "find"))
    requires '$' !in Input(task, "replace")
    ensures var w' := RunTaskSpec(task, w, env).1;
      var path, find := Input(task, "path"), Input(task, "find");
      var original := w.files[path];
      exists k :: && OccursAt(original, find, k)
                  && (forall j :: 0 <= j < k ==> !OccursAt(original, find, j))
                  && w'.files[path] == original[..k] + Input(task, "replace") + original[k + |find|..]
  {
    var path, find, replacement := Input(task, "path"), Input(task, "find"), Input(task, "replace");
    var original := w.files[path];
    EditWritesReplacement(task, w, env);
    var k := IndexOf(original, find).value;
    SubstitutionLiteral(replacement, find, original[..k], original[k + |find|..]);
    assert OccursAt(original, find, k);
  }

  /** A shell command outside the allowlist fails and `exec` is never invoked. */
  lemma ShellOutsideAllowlistFails(task: Task, w: World, env: Env)
    requires task.kind == Shell && !IsAllowed(Input(task, "command"))
    ensures var (a, w') := RunTaskSpec(task, w, env);
      a.Returned? && !a.outcome.ok && w'.execLog == w.execLog && w'.files == w.files
  {
  }

  /** A task of any other type, here `db`, fails with a message naming the type. */
  lemma UnsupportedTypeFails(task: Task, w: World, env: Env)
    requires task.kind !in {Noop, WriteFile, EditFile, Shell}
    ensures var (a, w') := RunTaskSpec(task, w, env);
      a == Returned(Failed(env.clock, "Unsupported task type: db")) && w' == w.(calls := w.calls + 1)
  {
    assert task.kind == Db;
    assert "Unsupported task type: " + TaskTypeName(task.kind) == "Unsupported task type: db";
  }

  function Pow2(n: nat): nat {
    if n == 0 then 1 else 2 * Pow2(n - 1)
  }

  /** The delay requested after a failed attempt: `100 * 2 ** attempt` milliseconds. */
  function Backoff(attempt: nat): nat {
    100 * Pow2(attempt)
  }

  /** The delays requested after attempts `from`, `from + 1`, ... (`count` of them). */
  function Delays(from: nat, count: nat): seq<nat>
    decreases count
  {
    if count == 0 then [] else [Backoff(from)] + Delays(from + 1, count - 1)
  }

  /** The task result recorded for an attempt that returned. */
  function WithId(id: string, o: Outcome): TaskResult {
    TaskResult(id, o.ok, o.startedAt, o.finishedAt, None, o.error, o.logs)
  }

  /** The task result synthesized after every attempt threw. */
  function Exhausted(id: string, f: Fault, now: string): TaskResult {
    TaskResult(id, false, now, now, None, Some(ErrorInfo(f.message, Some(f.stack))), None)
  }

  /**
   * The attempt loop for one task, from attempt number `attempt` with the error of the
   * previous attempt in `lastError`. The result always carries the task's id; between
   * one and `MaxRetries - attempt` calls are made, and one backoff delay is requested
   * for every call but the last.
   */
  function RetrySpec(task: Task, w: World, env: Env, attempt: nat, lastError: Option<Fault>): (r: (TaskResult, World))
    requires attempt <= MaxRetries
    requires attempt == 0 || lastError.Some?
    decreases MaxRetries - attempt
    ensures r.0.taskId == task.id
    ensures r.0.startedAt == env.clock && r.0.finishedAt == env.clock
    ensures w.calls <= r.1.calls <= w.calls + (MaxRetries - attempt)
    ensures attempt < MaxRetries ==> w.calls < r.1.calls && r.1.sleeps == w.sleeps + Delays(attempt, r.1.calls - w.calls - 1)
  {
    if attempt == MaxRetries then
      (Exhausted(task.id, lastError.value, env.clock), w)
    else
      var (a, w1) := RunTaskSpec(task, w, env);
      match a
      case Returned(o) => (WithId(task.id, o), w1)
      case Threw(f) =>
        var w2 := if attempt < MaxRetries - 1 then w1.(sleeps := w1.sleeps + [Backoff(attempt)]) else w1;
        RetrySpec(task, w2, env, attempt + 1, Some(f))
  }

  /** One step of the attempt loop: a return settles the task, a throw moves on to the next attempt. */
  lemma RetryStep(task: Task, w: World, env: Env, attempt: nat, lastError: Option<Fault>)
    requires attempt < MaxRetries
    requires attempt == 0 || lastError.Some?
    ensures var (a, w1) := RunTaskSpec(task, w, env);
      RetrySpec(task, w, env, attempt, lastError)
      == match a
         case Returned(o) => (WithId(task.id, o), w1)
         case Threw(f) =>
           RetrySpec(task, if attempt < MaxRetries - 1 then w1.(sleeps := w1.sleeps + [Backoff(attempt)]) else w1,
                     env, attempt + 1, Some(f))
  {
  }

  /** `Worker.execute` over a list of tasks: one retried run per task, in order. */
  function RunAllSpec(tasks: seq<Task>, w: World, env: Env): (seq<TaskResult>, World) {
    if tasks == [] then ([], w)
    else
      var (first, w1) := RetrySpec(tasks[0], w, env, 0, None);
      var (rest, w2) := RunAllSpec(tasks[1..], w1, env);
      ([first] + rest, w2)
  }

  /**
   * Execution emits exactly one result per task, in plan order, each carrying its task's
   * id and the clock reading; each task makes between one and `MaxRetries` calls.
   */
  lemma {:induction false} RunAllShape(tasks: seq<Task>, w: World, env: Env)
    ensures var (rs, w') := RunAllSpec(tasks, w, env);
      && |rs| == |tasks|
      && (forall i :: 0 <= i < |tasks| ==> rs[i].taskId == tasks[i].id)
      && (forall i :: 0 <= i < |tasks| ==> rs[i].startedAt == env.clock && rs[i].finishedAt == env.clock)
      && w.calls + |tasks| <= w'.calls <= w.calls + MaxRetries * |tasks|
  {
    if tasks != [] {
      var (first, w1) := RetrySpec(tasks[0], w, env, 0, None);
      RunAllShape(tasks[1..], w1, env);
    }
  }

  /** One step of `RunAllSpec`: the first task settles, then the rest run from the world it leaves. */
  lemma RunAllStep(tasks: seq<Task>, w: World, env: Env, first: TaskResult, w1: World)
    requires tasks != [] && (first, w1) == RetrySpec(tasks[0], w, env, 0, None)
    ensures RunAllSpec(tasks, w, env) == ([first] + RunAllSpec(tasks[1..], w1, env).0, RunAllSpec(tasks[1..], w1, env).1)
  {
  }

  /**
   * A normal return is never retried, even when it reports ok:false: whatever attempt it
   * comes on, it settles the task with its own outcome after exactly one more call and
   * no further delay.
   */
  lemma ReturnSettles(task: Task, w: World, env: Env, attempt: nat, lastError: Option<Fault>)
    requires attempt < MaxRetries && (attempt == 0 || lastError.Some?)
    requires RunTaskSpec(task, w, env).0.Returned?
    ensures var (a, w1) := RunTaskSpec(task, w, env);
      && RetrySpec(task, w, env, attempt, lastError) == (WithId(task.id, a.outcome), w1)
      && w1.calls == w.calls + 1 && w1.sleeps == w.sleeps
  {
  }

  /**
   * A throw on any attempt but the last leaves the files alone, requests exactly one
   * delay of `Backoff(attempt)` and goes on with the next attempt, carrying the error.
   */
  lemma ThrowBacksOff(task: Task, w: World, env: Env, attempt: nat, lastError: Option<Fault>)
    requires attempt < MaxRetries - 1 && (attempt == 0 || lastError.Some?)
    requires RunTaskSpec(task, w, env).0.Threw?
    ensures var (a, w1) := RunTaskSpec(task, w, env);
      && w1.files == w.files && w1.calls == w.calls + 1
      && RetrySpec(task, w, env, attempt, lastError)
         == RetrySpec(task, w1.(sleeps := w.sleeps + [Backoff(attempt)]), env, attempt + 1, Some(a.fault))
  {
  }

  /** A throw on the last attempt ends the task with the synthesized failure, without a delay. */
  lemma LastThrowExhausts(task: Task, w: World, env: Env, lastError: Option<Fault>)
    requires lastError.Some?
    requires RunTaskSpec(task, w, env).0.Threw?
    ensures var (a, w1) := RunTaskSpec(task, w, env);
      && RetrySpec(task, w, env, MaxRetries - 1, lastError) == (Exhausted(task.id, a.fault, env.clock), w1)
      && !Exhausted(task.id, a.fault, env.clock).ok && w1.sleeps == w.sleeps && w1.files == w.files
  {
    RetryStep(task, w, env, MaxRetries - 1, lastError);
  }

  /**
   * A task that throws on each of its three attempts gets exactly three calls, with delays
   * of 100 and 200 ms between them, and ends in one ok:false result carrying the last error.
   */
  lemma ThrowingTaskExhaustsRetries(task: Task, w: World, env: Env)
    requires RunTaskSpec(task, w, env).0.Threw?
    requires var w1 := RunTaskSpec(task, w, env).1;
      RunTaskSpec(task, w1.(sleeps := w1.sleeps + [100]), env).0.Threw?
    requires var w1 := RunTaskSpec(task, w, env).1;
      var w2 := RunTaskSpec(task, w1.(sleeps := w1.sleeps + [100]), env).1;
      RunTaskSpec(task, w2.(sleeps := w2.sleeps + [200]), env).0.Threw?
    ensures var w1 := RunTaskSpec(task, w, env).1;
      var w2 := RunTaskSpec(task, w1.(sleeps := w1.sleeps + [100]), env).1;
      var (a3, w3) := RunTaskSpec(task, w2.(sleeps := w2.sleeps + [200]), env);
      && RetrySpec(task, w, env, 0, None) == (Exhausted(task.id, a3.fault, env.clock), w3)
      && !RetrySpec(task, w, env, 0, None).0.ok
      && RetrySpec(task, w, env, 0, None).0.error.value.message == a3.fault.message
      && w3.calls == w.calls + 3 && w3.sleeps == w.sleeps + [100, 200] && w3.files == w.files
  {
    var (a1, w1) := RunTaskSpec(task, w, env);
    var v1 := w1.(sleeps := w1.sleeps + [Backoff(0)]);
    var (a2, w2) := RunTaskSpec(task, v1, env);
    var v2 := w2.(sleeps := w2.sleeps + [Backoff(1)]);
    var (a3, w3) := RunTaskSpec(task, v2, env);
    assert RetrySpec(task, v2, env, 2, Some(a2.fault)) == RetrySpec(task, w3, env, 3, Some(a3.fault));
    assert RetrySpec(task, v1, env, 1, Some(a1.fault)) == RetrySpec(task, v2, env, 2, Some(a2.fault));
  }

  /** edit_file on a missing file throws on every attempt, so it is attempted three times and then fails. */
  lemma MissingFileExhaustsRetries(task: Task, w: World, env: Env)
    requires task.kind == EditFile && Input(task, "find") != "" && Input(task, "path") !in w.files
    ensures var (r, w') := RetrySpec(task, w, env, 0, None);
      !r.ok && r.error.Some? && w'.calls == w.calls + 3 && w'.sleeps == w.sleeps + [100, 200] && w'.files == w.files
  {
    ThrowingTaskExhaustsRetries(task, w, env);
  }

  /** Executing a one-task no-op plan yields one ok result. */
  lemma NoopPlanSucceeds(task: Task, w: World, env: Env)
    requires task.kind == Noop
    ensures RunAllSpec([task], w, env).0 == [WithId(task.id, Succeeded(env.clock, ["noop"]))]
  {
    NoopSucceeds(task, w, env);
    assert [task][1..] == [];
    var (first, w1) := RetrySpec(task, w, env, 0, None);
    RunAllStep([task], w, env, first, w1);
  }

  /** The mutable environment the executor acts on. */
  class Host {
    var files: map<string, string>
    var calls: nat
    var execLog: seq<string>
    var sleeps: seq<nat>
    const env: Env

    function State(): World
      reads this
    {
      World(files, calls, execLog, sleeps)
    }

    constructor (env: Env, files: map<string, string>)
      ensures this.env == env && State() == World(files, 0, [], [])
    {
      this.env := env;
      this.files := files;
      calls := 0;
      execLog := [];
      sleeps := [];
    }

    /** Starts a `runTask` call: counts it and reads whether its first file-system operation throws. */
    method BeginCall() returns (fault: Option<Fault>)
      modifies this
      ensures fault == env.fsFault(old(calls))
      ensures State() == old(State()).(calls := old(calls) + 1)
    {
      fault := env.fsFault(calls);
      calls := calls + 1;
    }

    /** `mkdir(dirname(path))` then `writeFile(path, content)`; `fault` is the injected failure, if any. */
    method WriteFile(path: string, content: string, fault: Option<Fault>) returns (thrown: Option<Fault>)
      modifies this
      ensures thrown == fault
      ensures State() == if fault.Some? then old(State()) else old(State()).(files := old(files)[path := content])
    {
      thrown := fault;
      if fault.None? {
        files := files[path := content];
      }
    }

    /** `readFile(path)`: the contents, or the injected failure, or ENOENT for a missing path. */
    method ReadFile(path: string, fault: Option<Fault>) returns (r: Result<string, Fault>)
      ensures r == if fault.Some? then Err(fault.value) else if path !in files then Err(MissingFile(path)) else Ok(files[path])
    {
      if fault.Some? {
        r := Err(fault.value);
      } else if path !in files {
        r := Err(MissingFile(path));
      } else {
        r := Ok(files[path]);
      }
    }

    /** `exec(command)`: records the invocation and returns the oracle's answer. */
    method Exec(command: string) returns (r: ExecResult)
      modifies this
      ensures r == env.exec(command, |old(execLog)|)
      ensures State() == old(State()).(execLog := old(execLog) + [command])
    {
      r := env.exec(command, |execLog|);
      execLog := execLog + [command];
    }

    /** `sleep(ms)`: only the requested delay is recorded. */
    method Sleep(ms: nat)
      modifies this
      ensures State() == old(State()).(sleeps := old(sleeps) + [ms])
    {
      sleeps := sleeps + [ms];
    }
  }

  /** `runTask`: dispatches on the task type. */
  method RunTask(host: Host, task: Task) returns (a: Attempt)
    modifies host
    ensures (a, host.State()) == RunTaskSpec(task, old(host.State()), host.env)
  {
    var fault := host.BeginCall();
    var startedAt := host.env.clock;
    var logs: seq<string> := [];

    if task.kind == Noop {
      return Returned(Outcome(true, startedAt, host.env.clock, None, Some(["noop"])));
    }

    if task.kind == WriteFile {
      var path := Input(task, "path");
      var content := Input(task, "content");
      var thrown := host.WriteFile(path, content, fault);
      if thrown.Some? {
        return Threw(thrown.value);
      }
      logs := logs + ["wrote " + path];
      assert logs == ["wrote " + path];
      return Returned(Outcome(true, startedAt, host.env.clock, None, Some(logs)));
    }

    if task.kind == EditFile {
      var path := Input(task, "path");
      var find := Input(task, "find");
      var replacement := Input(task, "replace");
      if |find| == 0 {
        return Returned(Outcome(false, startedAt, host.env.clock, Some(ErrorInfo("edit_file requires a non-empty find string", None)), None));
      }
      var read := host.ReadFile(path, fault);
      if read.Err? {
        return Threw(read.error);
      }
      var original := read.value;
      if !Contains(original, find) {
        return Returned(Outcome(false, startedAt, host.env.clock, Some(ErrorInfo("edit_file could not find match in " + path, None)), None));
      }
      var updated := ReplaceFirst(original, find, replacement);
      var thrown := host.WriteFile(path, updated, None);
      logs := logs + ["edited " + path];
      assert logs == ["edited " + path];
      return Returned(Outcome(true, startedAt, host.env.clock, None, Some(logs)));
    }

    if task.kind == Shell {
      var command := Input(task, "command");
      var isAllowed := IsAllowed(command);
      if !isAllowed {
        return Returned(Outcome(false, startedAt, host.env.clock, Some(ErrorInfo("shell command is not allowlisted: " + command, None)), None));
      }
      var r := host.Exec(command);
      if r.Rejected? {
        return Threw(r.fault);
      }
      if r.stdout != "" {
        logs := logs + [Trim(r.stdout)];
      }
      if r.stderr != "" {
        logs := logs + [Trim(r.stderr)];
      }
      assert logs == StreamLogs(r.stdout, r.stderr);
      return Returned(Outcome(true, startedAt, host.env.clock, None, Some(logs)));
    }

    a := Returned(Outcome(false, startedAt, host.env.clock, Some(ErrorInfo("Unsupported task type: " + TaskTypeName(task.kind), None)), None));
  }

  class Worker {
    constructor () {}

    /**
     * `Worker.execute`: runs the tasks in order, each with at most `MaxRetries` attempts;
     * only a throw is retried, after a backoff of `100 * 2 ** attempt` ms (none after the
     * last attempt); after the last throw an ok:false result with that error is recorded.
     */
    method Execute(host: Host, runId: string, iteration: int, tasks: seq<Task>) returns (results: Results)
      modifies host
      ensures results.runId == runId && results.iteration == iteration && results.createdAt == host.env.clock
      ensures (results.taskResults, host.State()) == RunAllSpec(tasks, old(host.State()), host.env)
    {
      ghost var target := RunAllSpec(tasks, host.State(), host.env);
      var taskResults: seq<TaskResult> := [];
      assert tasks[0..] == tasks && taskResults + target.0 == target.0;
      var n := 0;
      while n < |tasks|
        invariant 0 <= n <= |tasks|
        invariant target.0 == taskResults + RunAllSpec(tasks[n..], host.State(), host.env).0
        invariant target.1 == RunAllSpec(tasks[n..], host.State(), host.env).1
      {
        var task := tasks[n];
        ghost var before := host.State();
        ghost var prev := taskResults;
        assert tasks[n..][0] == task && tasks[n..][1..] == tasks[n + 1..];
        var r := RunWithRetries(host, task);
        RunAllStep(tasks[n..], before, host.env, r, host.State());
        ghost var rest := RunAllSpec(tasks[n + 1..], host.State(), host.env);
        taskResults := taskResults + [r];
        assert prev + ([r] + rest.0) == taskResults + rest.0;
        n := n + 1;
      }
      assert tasks[n..] == [] && taskResults + [] == taskResults;
      results := Results(runId, iteration, host.env.clock, taskResults);
    }

    /** The attempt loop of `execute` for one task. */
    method RunWithRetries(host: Host, task: Task) returns (result: TaskResult)
      modifies host
      ensures (result, host.State()) == RetrySpec(task, old(host.State()), host.env, 0, None)
    {
      ghost var settled := RetrySpec(task, host.State(), host.env, 0, None);
      var lastError: Option<Fault> := None;
      var attempt := 0;
      while attempt < MaxRetries
        invariant 0 <= attempt <= MaxRetries
        invariant attempt == 0 || lastError.Some?
        invariant RetrySpec(task, host.State(), host.env, attempt, lastError) == settled
      {
        RetryStep(task, host.State(), host.env, attempt, lastError);
        var a := RunTask(host, task);
        if a.Returned? {
          return WithId(task.id, a.outcome);
        }
        lastError := Some(a.fault);
        if attempt < MaxRetries - 1 {
          host.Sleep(100 * Pow2(attempt));
        }
        attempt := attempt + 1;
      }
      result := Exhausted(task.id, lastError.value, host.env.clock);
    }
  }
}
