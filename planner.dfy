/** The stub planner: turns a goal into a plan of exactly one task. */
module Planner {
  import opened Strings
  import opened Artifacts

  /** What the controller tells the planner about the iteration to plan. */
  datatype Context = Context(runId: string, iteration: int, goal: string)

  /** The single task the stub planner derives from a goal. */
  function GoalTask(ctx: Context): (t: Task)
    ensures t.kind == WriteFile || t.kind == Noop
  {
    if Contains(LowerAscii(ctx.goal), "write") then
      Task("task-" + IntToString(ctx.iteration) + "-write", WriteFile, "Write a goal note", "Goal requests writing",
           map["path" := "workspace/" + ctx.runId + "/" + IntToString(ctx.iteration) + "/note.txt",
               "content" := ctx.goal])
    else
      Task("task-" + IntToString(ctx.iteration) + "-noop", Noop, "No operation", "Default safe stub behavior", map[])
  }

  /**
   * `StubPlanner.plan`: `now` is the clock reading used for `createdAt`. The plan answers
   * the context it was asked about and always holds exactly one task.
   */
  function Plan(ctx: Context, now: string): (p: Artifacts.Plan)
    ensures |p.tasks| == 1
    ensures p.runId == ctx.runId && p.iteration == ctx.iteration && p.goal == ctx.goal && p.createdAt == now
  {
    Artifacts.Plan(ctx.runId, ctx.iteration, now, ctx.goal, [GoalTask(ctx)])
  }

  /**
   * A goal that mentions "write" in any ASCII letter case yields a write_file task that
   * writes the goal text under the run's and iteration's workspace directory; any other
   * goal yields a no-op task with no inputs.
   */
  lemma PlanTaskByGoal(ctx: Context, now: string)
    ensures var t := Plan(ctx, now).tasks[0];
      && (t.kind == WriteFile <==> exists k :: OccursAt(LowerAscii(ctx.goal), "write", k))
      && (t.kind == WriteFile ==>
            && t.id == "task-" + IntToString(ctx.iteration) + "-write"
            && t.inputs["content"] == ctx.goal
            && t.inputs["path"] == "workspace/" + ctx.runId + "/" + IntToString(ctx.iteration) + "/note.txt")
      && (t.kind != WriteFile ==> t.kind == Noop && t.id == "task-" + IntToString(ctx.iteration) + "-noop" && t.inputs == map[])
  {
    ContainsIff(LowerAscii(ctx.goal), "write");
  }

  /** The word "write" anywhere in the goal, in lower case, selects a write_file task. */
  lemma LowerCaseWriteSelectsWrite(ctx: Context, now: string, k: int)
    requires OccursAt(ctx.goal, "write", k)
    ensures Plan(ctx, now).tasks[0].kind == WriteFile
  {
    LowerKeepsLowerWord(ctx.goal, "write", k);
    ContainsIff(LowerAscii(ctx.goal), "write");
  }

  /** The plan passes the plan schema exactly when the iteration is non-negative and the clock reading is a timestamp. */
  lemma PlanValid(ctx: Context, now: string)
    ensures ValidPlan(Plan(ctx, now)) <==> ctx.iteration >= 0 && IsIsoDate(now)
  {
  }

  /** Two different iterations never produce the same task id. */
  lemma TaskIdsDistinct(c1: Context, c2: Context, now1: string, now2: string)
    requires c1.iteration != c2.iteration
    ensures Plan(c1, now1).tasks[0].id != Plan(c2, now2).tasks[0].id
  {
    var a, b := IntToString(c1.iteration), IntToString(c2.iteration);
    var x := if GoalTask(c1).kind == WriteFile then "-write" else "-noop";
    var y := if GoalTask(c2).kind == WriteFile then "-write" else "-noop";
    if Plan(c1, now1).tasks[0].id == Plan(c2, now2).tasks[0].id {
      assert GoalTask(c1).id == "task-" + a + x;
      assert GoalTask(c2).id == "task-" + b + y;
      assert "task-" + a + x == "task-" + (a + x);
      assert "task-" + b + y == "task-" + (b + y);
      assert "task-" + (a + x) == "task-" + (b + y);
      DropPrefix("task-", a + x);
      DropPrefix("task-", b + y);
      if |a| == |b| {
        assert a == (a + x)[..|a|] == (b + y)[..|b|] == b;
        IntToStringInjective(c1.iteration, c2.iteration);
      } else if |a| < |b| {
        assert (a + x)[|a|] == '-';
        RenderingTail(c2.iteration, |a|);
      } else {
        assert (b + y)[|b|] == '-';
        RenderingTail(c1.iteration, |b|);
      }
    }
  }

  lemma DropPrefix(p: string, s: string)
    ensures (p + s)[|p|..] == s
  {
  }

  /** Every character of a decimal rendering after the first is a digit. */
  lemma RenderingTail(i: int, j: int)
    requires 1 <= j < |IntToString(i)|
    ensures IsDigit(IntToString(i)[j])
  {
    if i < 0 {
      assert IntToString(i)[j] == NatToString(-i)[j - 1];
    }
  }
}
