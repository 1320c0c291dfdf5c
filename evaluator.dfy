/** The basic evaluator: the verdict rule that closes every normal iteration. */
module Evaluator {
  import opened Wrappers
  import opened Artifacts

  predicate AllOk(rs: seq<TaskResult>) {
    forall i :: 0 <= i < |rs| ==> rs[i].ok
  }

  predicate AllNoop(tasks: seq<Task>) {
    forall i :: 0 <= i < |tasks| ==> tasks[i].kind == Noop
  }

  /** The number of failed results (`filter((t) => !t.ok).length`). */
  function FailedCount(rs: seq<TaskResult>): (n: nat)
    ensures n <= |rs|
    ensures n == 0 <==> AllOk(rs)
    ensures n == |rs| <==> forall i :: 0 <= i < |rs| ==> !rs[i].ok
  {
    if rs == [] then 0 else (if rs[0].ok then 0 else 1) + FailedCount(rs[1..])
  }

  /** Failures of a concatenation add up. */
  lemma {:induction false} FailedCountConcat(a: seq<TaskResult>, b: seq<TaskResult>)
    ensures FailedCount(a + b) == FailedCount(a) + FailedCount(b)
  {
    if a != [] {
      var ab := a + b;
      assert ab != [] && ab[0] == a[0] && ab[1..] == a[1..] + b;
      FailedCountConcat(a[1..], b);
    } else {
      assert a + b == b;
    }
  }

  /**
   * `BasicEvaluator.evaluate`: done when every result is ok and every task is a no-op,
   * otherwise failed on two or more failed results, otherwise continue. The goal is not
   * consulted; `now` is the clock reading used for `createdAt`.
   */
  function Evaluate(goal: string, plan: Plan, results: Results, now: string): (v: Verdict)
    ensures v.runId == plan.runId && v.iteration == plan.iteration && v.createdAt == now
    ensures v.status == Done <==> AllOk(results.taskResults) && AllNoop(plan.tasks)
    ensures v.status == Failed <==> FailedCount(results.taskResults) >= 2
    ensures v.status != Stopped
    ensures v.status == Done ==> v.next == None
    ensures v.status == Failed ==> v.next == Some(Next(None, Some("repeated-failures")))
    ensures v.status == Continue ==> v.next == Some(Next(Some(["Refine next step"]), None))
  {
    var allOk := AllOk(results.taskResults);
    var allNoop := AllNoop(plan.tasks);
    var failedCount := FailedCount(results.taskResults);
    if allOk && allNoop then
      Verdict(plan.runId, plan.iteration, now, Done, "Noop plan succeeded; work is complete", None)
    else if failedCount >= 2 then
      Verdict(plan.runId, plan.iteration, now, Failed, "Repeated task failures detected",
              Some(Next(None, Some("repeated-failures"))))
    else
      Verdict(plan.runId, plan.iteration, now, Continue, "Tasks completed but more iterations may be needed",
              Some(Next(Some(["Refine next step"]), None)))
  }

  /** An empty plan answered by no results is vacuously done. */
  lemma EmptyPlanDone(goal: string, plan: Plan, results: Results, now: string)
    requires plan.tasks == [] && results.taskResults == []
    ensures Evaluate(goal, plan, results, now).status == Done
  {
  }

  /** A single failed result is not enough to fail a run: the verdict is continue. */
  lemma SingleFailureContinues(goal: string, plan: Plan, results: Results, now: string)
    requires FailedCount(results.taskResults) == 1
    ensures Evaluate(goal, plan, results, now).status == Continue
  {
  }

  /** Adding more results to a failed iteration keeps it failed. */
  lemma FailedIsMonotone(goal: string, plan: Plan, results: Results, more: seq<TaskResult>, now: string)
    requires Evaluate(goal, plan, results, now).status == Failed
    ensures Evaluate(goal, plan, results.(taskResults := results.taskResults + more), now).status == Failed
  {
    FailedCountConcat(results.taskResults, more);
  }

  /** The verdict passes the verdict schema exactly when the plan's iteration is non-negative and `now` is a timestamp. */
  lemma EvaluateValid(goal: string, plan: Plan, results: Results, now: string)
    ensures ValidVerdict(Evaluate(goal, plan, results, now)) <==> plan.iteration >= 0 && IsIsoDate(now)
  {
  }
}
