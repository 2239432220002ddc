/**
 * The plan panel: a goal is sent to the planning endpoint, the plan that
 * comes back is shown with every step pending, and executing it walks the
 * steps in order, marking each running and then completed.
 */
module AgentPlanner {
  import opened Wrappers
  import opened Text

  datatype StepStatus = Pending | Running | Completed | Failed

  datatype PlanStep = PlanStep(id: int, action: string, description: string, tool: string, status: Option<StepStatus>)

  datatype Plan = Plan(goal: string, steps: seq<PlanStep>)

  /**
   * What the request to the planning endpoint produced: a response with
   * its HTTP status and decoded body, or an exception (a network failure,
   * a body that is not a plan) with its message when it is an `Error`.
   */
  datatype PlanReply = Reply(status: nat, body: Plan) | Thrown(message: Option<string>)

  const PlanFailedMessage: string := "Failed to generate plan"

  /** `response.ok`: a status in the 200 range. */
  predicate IsOk(status: nat) {
    200 <= status <= 299
  }

  /** The step with its status replaced; every other field kept. */
  function WithStatus(step: PlanStep, status: StepStatus): PlanStep {
    step.(status := Some(status))
  }

  /** `steps.map((step) => ({ ...step, status: "pending" }))`. */
  function MarkAllPending(steps: seq<PlanStep>): (r: seq<PlanStep>)
    ensures |r| == |steps|
    ensures forall i :: 0 <= i < |steps| ==> r[i] == WithStatus(steps[i], Pending)
  {
    if steps == [] then [] else [WithStatus(steps[0], Pending)] + MarkAllPending(steps[1..])
  }

  /** `steps.every((s) => s.status === "completed")`. */
  function EveryCompleted(steps: seq<PlanStep>): (b: bool)
    ensures b <==> forall i :: 0 <= i < |steps| ==> steps[i].status == Some(Completed)
  {
    if steps == [] then true
    else steps[0].status == Some(Completed) && EveryCompleted(steps[1..])
  }

  /** `allCompleted`: false without a plan, else whether every step is completed. */
  function AllCompleted(plan: Option<Plan>): bool {
    plan.Some? && EveryCompleted(plan.value.steps)
  }

  /** A plan with no steps counts as completed. */
  lemma EmptyPlanCompleted(goal: string)
    ensures AllCompleted(Some(Plan(goal, [])))
  {
  }

  /** A freshly loaded plan is completed only if it has no steps. */
  lemma {:induction false} FreshPlanNotCompleted(plan: Plan)
    ensures AllCompleted(Some(plan.(steps := MarkAllPending(plan.steps)))) <==> plan.steps == []
  {
    if plan.steps != [] {
      assert MarkAllPending(plan.steps)[0].status == Some(Pending);
    }
  }

  const ShellBadge: string := "bg-cyber-primary/20 text-cyber-primary"
  const BrowserBadge: string := "bg-cyber-secondary/20 text-cyber-secondary"
  const FileBadge: string := "bg-cyber-accent/20 text-cyber-accent"
  const DefaultBadge: string := "bg-gray-700 text-gray-400"

  /** `getToolBadgeColor`: the badge classes for a step's tool name, ignoring case. */
  function ToolBadgeColor(tool: string): string {
    match ToLower(tool)
    case "shell" => ShellBadge
    case "browser" => BrowserBadge
    case "file" => FileBadge
    case _ => DefaultBadge
  }

  /** Two spellings that differ only in letter case get the same badge. */
  lemma {:induction false} BadgeIgnoresCase(a: string, b: string)
    requires |a| == |b|
    requires forall i :: 0 <= i < |a| ==> LowerChar(a[i]) == LowerChar(b[i])
    ensures ToolBadgeColor(a) == ToolBadgeColor(b)
  {
    assert ToLower(a) == ToLower(b);
  }

  /** The three known tools have badges of their own; every other name gets the default. */
  lemma BadgeCases(tool: string)
    ensures ToolBadgeColor(tool) == ShellBadge <==> ToLower(tool) == "shell"
    ensures ToolBadgeColor(tool) == BrowserBadge <==> ToLower(tool) == "browser"
    ensures ToolBadgeColor(tool) == FileBadge <==> ToLower(tool) == "file"
    ensures ToolBadgeColor(tool) == DefaultBadge <==> ToLower(tool) !in {"shell", "browser", "file"}
  {
  }

  /** The panel's state. */
  class Planner {
    var goal: string
    var plan: Option<Plan>
    var isPlanning: bool
    var isExecuting: bool
    var error: Option<string>
    /** The goals posted to the planning endpoint, oldest first. */
    var requests: seq<string>

    constructor ()
      ensures goal == "" && plan == None && !isPlanning && !isExecuting && error == None
      ensures requests == []
    {
      goal := "";
      plan := None;
      isPlanning := false;
      isExecuting := false;
      error := None;
      requests := [];
    }

    /** Typing in the goal input. */
    method EditGoal(text: string)
      modifies this
      ensures goal == text
      ensures plan == old(plan) && error == old(error) && requests == old(requests)
      ensures isPlanning == old(isPlanning) && isExecuting == old(isExecuting)
    {
      goal := text;
    }

    /**
     * `generatePlan`, with the endpoint's answer given as `reply`. A blank
     * goal does nothing. Otherwise the trimmed goal is posted; a response
     * with a 2xx status is stored with every step pending; a response with
     * any other status sets the error "HTTP <status>"; an exception sets
     * its message, or a fixed one when it has none.
     */
    method GeneratePlan(reply: PlanReply)
      modifies this
      ensures old(Trim(goal)) == [] ==>
        plan == old(plan) && error == old(error) && requests == old(requests) && isPlanning == old(isPlanning)
      ensures old(Trim(goal)) != [] ==>
        requests == old(requests) + [Trim(goal)] && !isPlanning &&
        match reply
        case Reply(status, body) =>
          if IsOk(status) then plan == Some(body.(steps := MarkAllPending(body.steps))) && error == None
          else plan == None && error == Some("HTTP " + NatToString(status))
        case Thrown(message) =>
          plan == None && error == Some(message.GetOr(PlanFailedMessage))
      ensures goal == old(goal) && isExecuting == old(isExecuting)
    {
      if Trim(goal) == [] {
        return;
      }
      isPlanning := true;
      error := None;
      plan := None;
      requests := requests + [Trim(goal)];
      match reply {
        case Reply(status, body) =>
          if IsOk(status) {
            plan := Some(body.(steps := MarkAllPending(body.steps)));
          } else {
            error := Some("HTTP " + NatToString(status));
          }
        case Thrown(message) =>
          error := Some(message.GetOr(PlanFailedMessage));
      }
      isPlanning := false;
    }

    /**
     * The state updater run twice per iteration of `executePlan`: step `i`
     * of the current plan gets `status`; nothing else changes.
     */
    method SetStepStatus(i: nat, status: StepStatus)
      requires plan.Some? && i < |plan.value.steps|
      modifies this`plan
      ensures plan == Some(old(plan.value).(steps := old(plan.value.steps)[i := WithStatus(old(plan.value.steps[i]), status)]))
    {
      var steps := plan.value.steps;
      steps := steps[i := WithStatus(steps[i], status)];
      plan := Some(plan.value.(steps := steps));
    }

    /**
     * `executePlan`: without a plan, nothing. Otherwise each step in turn
     * is set running and then completed; afterwards every step is
     * completed with its other fields as they were, the goal is kept and
     * the panel is no longer executing.
     */
    method ExecutePlan()
      modifies this
      ensures old(plan) == None ==> plan == None && error == old(error) && isExecuting == old(isExecuting)
      ensures old(plan).Some? ==>
        plan.Some? && plan.value.goal == old(plan.value.goal) &&
        |plan.value.steps| == |old(plan.value.steps)| &&
        (forall i :: 0 <= i < |plan.value.steps| ==>
           plan.value.steps[i] == WithStatus(old(plan.value.steps[i]), Completed)) &&
        AllCompleted(plan) && !isExecuting && error == None
      ensures goal == old(goal) && isPlanning == old(isPlanning) && requests == old(requests)
    {
      if plan == None {
        return;
      }
      isExecuting := true;
      error := None;
      ghost var before := plan.value;
      var n := |plan.value.steps|;
      for i := 0 to n
        invariant plan.Some? && plan.value.goal == before.goal && |plan.value.steps| == n
        invariant forall j :: 0 <= j < i ==> plan.value.steps[j] == WithStatus(before.steps[j], Completed)
        invariant forall j :: i <= j < n ==> plan.value.steps[j] == before.steps[j]
        invariant goal == old(goal) && isPlanning == old(isPlanning) && requests == old(requests)
        invariant error == None
      {
        SetStepStatus(i, Running);
        SetStepStatus(i, Completed);
      }
      isExecuting := false;
    }

    /** `resetPlan`: no plan, an empty goal and no error. */
    method ResetPlan()
      modifies this
      ensures plan == None && goal == "" && error == None
      ensures isPlanning == old(isPlanning) && isExecuting == old(isExecuting) && requests == old(requests)
    {
      plan := None;
      goal := "";
      error := None;
    }
  }
}
