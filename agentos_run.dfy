/**
 * The desktop-agent demo's execution: build the rule set for the requested
 * goals, plan every argument, and run the plan through the
 * precondition-gated queue. Running a goal is a subprocess whose exit code
 * comes from `exitCode`; an artifact check's verdict comes from `found`,
 * keyed by the check's parameters. Which artifacts already exist on disk
 * when the demo starts is given as two flags.
 */
module AgentOsRun {
  import opened Wrappers
  import opened Json
  import opened Arguments
  import opened AfSolver
  import opened Planner
  import opened PlanQueue
  import opened AgentOsRules

  /** The exit code of `python -m agent.main --goal <goal>`. */
  type GoalRunner = Json -> int

  /** Whether the artifact a `file_exists` check names turned up within its timeout. */
  type ArtifactCheck = map<string, Json> -> bool

  const HelloFact := "fs:hello_stdout exists"
  const SearchFact := "fs:search_png exists"

  /**
   * `update_facts`: a successful run of one of the two known goals records
   * its artifact; any other step records nothing.
   */
  function UpdateFacts(a: Argument, facts: set<string>): (r: set<string>)
    ensures facts <= r && r <= facts + {HelloFact, SearchFact}
    ensures a.id == "A_run_ide_hello" ==> HelloFact in r
    ensures a.id == "A_run_web_search" ==> SearchFact in r
    ensures a.id != "A_run_ide_hello" && a.id != "A_run_web_search" ==> r == facts
  {
    if a.id == "A_run_ide_hello" then facts + {HelloFact}
    else if a.id == "A_run_web_search" then facts + {SearchFact}
    else facts
  }

  const MissingGoal := "KeyError: 'goal'"
  const GoalFailed := "AgentOS goal failed"
  const ArtifactMissing := "Artifact not found"

  function UnknownAction(name: string): string {
    "ValueError: Unknown action: " + name
  }

  /**
   * Executing one ready step. A `run_goal` action runs its goal and stops
   * the run on a non-zero exit code; otherwise a step whose check is
   * `file_exists` is checked and stops the run when the artifact is
   * missing; a `noop` step does nothing; anything else raises. Only a
   * successful goal run adds facts.
   */
  function AgentOsStep(exitCode: GoalRunner, found: ArtifactCheck, a: Argument, facts: set<string>): (r: Outcome)
    ensures r.Done? && a.action.name == "run_goal" ==> r.facts == UpdateFacts(a, facts)
    ensures r.Done? && a.action.name != "run_goal" ==> r.facts == facts
    ensures r.Raise? <==>
      (if a.action.name == "run_goal" then "goal" !in a.action.params
       else a.verify.name != "file_exists" && a.action.name != "noop")
    ensures a.action.name == "run_goal" && "goal" in a.action.params ==>
      (r.Done? <==> exitCode(a.action.params["goal"]) == 0)
    ensures a.action.name != "run_goal" && a.verify.name == "file_exists" ==>
      (r.Done? <==> found(a.verify.params))
  {
    if a.action.name == "run_goal" then
      if "goal" !in a.action.params then Raise(MissingGoal)
      else if exitCode(a.action.params["goal"]) != 0 then Stop(GoalFailed)
      else Done(UpdateFacts(a, facts))
    else if a.verify.name == "file_exists" then
      if !found(a.verify.params) then Stop(ArtifactMissing) else Done(facts)
    else if a.action.name == "noop" then Done(facts)
    else Raise(UnknownAction(a.action.name))
  }

  function AgentOsExec(exitCode: GoalRunner, found: ArtifactCheck): (Argument, set<string>) -> Outcome {
    (a, f) => AgentOsStep(exitCode, found, a, f)
  }

  /** The framework's ids in insertion order: each listed goal's run, then its check, ide hello first. */
  function KeyOrder(goals: seq<string>): seq<string> {
    (if "ide_hello" in goals then ["A_run_ide_hello", "A_verify_ide_hello"] else [])
    + (if "web_search" in goals then ["A_run_web_search", "A_verify_web_search"] else [])
  }

  /** The facts the demo starts from: the artifacts already on disk. */
  function InitialFacts(helloOnDisk: bool, searchOnDisk: bool): (r: set<string>)
    ensures HelloFact in r <==> helloOnDisk
    ensures SearchFact in r <==> searchOnDisk
    ensures r <= {HelloFact, SearchFact}
  {
    (if helloOnDisk then {HelloFact} else {}) + (if searchOnDisk then {SearchFact} else {})
  }

  /** The plan the demo runs: every argument of the framework, accepted or not. */
  function AgentOsSteps(af: ArgFramework, goals: seq<string>): seq<PlanStep> {
    OrderPlan(af.args, KeyOrder(goals))
  }

  /**
   * `main`: generate the framework (a missing artifact path of a listed
   * goal is a KeyError), then look up both artifact paths to see what is
   * already on disk (a KeyError even for a goal not listed), then plan
   * every argument and run the queue with four pops per step.
   */
  method AgentOsMain(goals: seq<string>, artifacts: map<string, Json>, helloOnDisk: bool, searchOnDisk: bool,
                     exitCode: GoalRunner, found: ArtifactCheck)
    returns (r: Result<Run, LookupError>)
    ensures GenerateAgentOsAf(goals, artifacts).Failure? ==> r == Failure(GenerateAgentOsAf(goals, artifacts).error)
    ensures GenerateAgentOsAf(goals, artifacts).Success? && "hello_stdout" !in artifacts
      ==> r == Failure(KeyError("hello_stdout"))
    ensures GenerateAgentOsAf(goals, artifacts).Success? && "hello_stdout" in artifacts && "search_png" !in artifacts
      ==> r == Failure(KeyError("search_png"))
    ensures r.Success? <==> "hello_stdout" in artifacts && "search_png" in artifacts
    ensures r.Success? ==>
      var af := GenerateAgentOsAf(goals, artifacts).value;
      var steps := AgentOsSteps(af, goals);
      r.value == Drain(af.args, steps, InitialFacts(helloOnDisk, searchOnDisk), 4 * |steps|,
                       AgentOsExec(exitCode, found))
  {
    var generated := GenerateAgentOsAf(goals, artifacts);
    if generated.Failure? {
      return Failure(generated.error);
    }
    var af := generated.value;
    if "hello_stdout" !in artifacts {
      return Failure(KeyError("hello_stdout"));
    }
    if "search_png" !in artifacts {
      return Failure(KeyError("search_png"));
    }
    var facts := InitialFacts(helloOnDisk, searchOnDisk);
    var steps := OrderPlan(af.args, KeyOrder(goals));
    var run := RunQueue(af.args, steps, facts, AgentOsExec(exitCode, found));
    return Success(run);
  }

  // ---------------------------------------------------------------------
  // Both goals, every process and every check succeeding.

  const BothOrder := ["A_run_ide_hello", "A_verify_ide_hello", "A_run_web_search", "A_verify_web_search"]

  /** Both goals with both artifacts give a framework of the four arguments with deadlines 50, 60, 70, 80. */
  lemma BothGoalsArgs(goals: seq<string>, artifacts: map<string, Json>)
    requires "ide_hello" in goals && "web_search" in goals
    requires "hello_stdout" in artifacts && "search_png" in artifacts
    ensures GenerateAgentOsAf(goals, artifacts).Success?
    ensures var args := GenerateAgentOsAf(goals, artifacts).value.args;
      && args["A_run_ide_hello"] == RunArg("A_run_ide_hello", "ide hello", HelloFact, 50)
      && args["A_verify_ide_hello"] == CheckArg("A_verify_ide_hello", HelloFact, artifacts["hello_stdout"], 10.0, 60)
      && args["A_run_web_search"] == RunArg("A_run_web_search", "search docs", SearchFact, 70)
      && args["A_verify_web_search"] == CheckArg("A_verify_web_search", SearchFact, artifacts["search_png"], 20.0, 80)
  {
  }

  const BothDeadlines := [50, 60, 70, 80]

  /** Four arguments due in insertion order project to a sorted plan in that order. */
  lemma BothOrderProject(args: map<string, Argument>)
    requires forall k | 0 <= k < 4 :: BothOrder[k] in args && args[BothOrder[k]].deadlineMs == BothDeadlines[k]
    ensures Sorted(Project(args, BothOrder))
    ensures Ids(Project(args, BothOrder)) == BothOrder
  {
    var o := BothOrder;
    assert o[0] in args && o[1] in args && o[2] in args && o[3] in args;
    assert Project(args, o[3..]) == [StepFor(args, o[3])] by { assert o[3..][1..] == []; }
    assert Project(args, o[2..]) == [StepFor(args, o[2])] + Project(args, o[3..]) by { assert o[2..][1..] == o[3..]; }
    assert Project(args, o[1..]) == [StepFor(args, o[1])] + Project(args, o[2..]) by { assert o[1..][1..] == o[2..]; }
    assert Project(args, o) == [StepFor(args, o[0])] + Project(args, o[1..]);
    var p := Project(args, o);
    assert p == [StepFor(args, o[0]), StepFor(args, o[1]), StepFor(args, o[2]), StepFor(args, o[3])];
    assert Ids(p) == o;
  }

  /** The plan of the four arguments is their insertion order, whatever order the ids come in. */
  lemma BothGoalsPlan(goals: seq<string>, artifacts: map<string, Json>, ids: seq<string>)
    requires "ide_hello" in goals && "web_search" in goals
    requires "hello_stdout" in artifacts && "search_png" in artifacts
    requires multiset(ids) == multiset(BothOrder)
    ensures GenerateAgentOsAf(goals, artifacts).Success?
    ensures Ids(OrderPlan(GenerateAgentOsAf(goals, artifacts).value.args, ids)) == BothOrder
  {
    BothGoalsArgs(goals, artifacts);
    var args := GenerateAgentOsAf(goals, artifacts).value.args;
    assert forall k | 0 <= k < 4 :: BothOrder[k] in args && args[BothOrder[k]].deadlineMs == BothDeadlines[k];
    BothOrderProject(args);
    SortedProjection(args, BothOrder);
    OrderIndependent(args, ids, BothOrder);
  }

  /** The facts after each of the four steps: the two goal runs record their artifacts. */
  function FactsAfter(initial: set<string>): seq<set<string>> {
    var f1 := initial + {HelloFact};
    var f3 := f1 + {SearchFact};
    [initial, f1, f1, f3, f3]
  }

  /** With every goal exiting 0 and every artifact found, each plan step is ready in turn and executes. */
  lemma AllReady(exitCode: GoalRunner, found: ArtifactCheck, helloPath: Json, searchPath: Json,
                 args: map<string, Argument>, steps: seq<PlanStep>, initial: set<string>)
    requires forall g :: exitCode(g) == 0
    requires forall p :: found(p)
    requires "A_run_ide_hello" in args && args["A_run_ide_hello"] == RunArg("A_run_ide_hello", "ide hello", HelloFact, 50)
    requires "A_verify_ide_hello" in args
             && args["A_verify_ide_hello"] == CheckArg("A_verify_ide_hello", HelloFact, helloPath, 10.0, 60)
    requires "A_run_web_search" in args
             && args["A_run_web_search"] == RunArg("A_run_web_search", "search docs", SearchFact, 70)
    requires "A_verify_web_search" in args
             && args["A_verify_web_search"] == CheckArg("A_verify_web_search", SearchFact, searchPath, 20.0, 80)
    requires Ids(steps) == BothOrder
    ensures ReadyChain(args, steps, FactsAfter(initial), AgentOsExec(exitCode, found))
  {
    var fs := FactsAfter(initial);
    var e := AgentOsExec(exitCode, found);
    assert |steps| == 4;
    assert steps[0].argId == BothOrder[0] && steps[1].argId == BothOrder[1];
    assert steps[2].argId == BothOrder[2] && steps[3].argId == BothOrder[3];
    assert ReadyChain(args, steps[3..], fs[3..], e) by {
      assert steps[3..][1..] == [] && fs[3..][1..] == fs[4..];
    }
    assert ReadyChain(args, steps[2..], fs[2..], e) by {
      assert steps[2..][1..] == steps[3..] && fs[2..][1..] == fs[3..];
    }
    assert ReadyChain(args, steps[1..], fs[1..], e) by {
      assert steps[1..][1..] == steps[2..] && fs[1..][1..] == fs[2..];
    }
  }

  /**
   * When both goals are requested and every goal run and artifact check
   * succeeds, the demo completes whatever was on disk: the two runs and
   * two checks execute once each, each run before its check, in four pops,
   * and both artifacts end up recorded.
   */
  lemma AllSucceed(goals: seq<string>, artifacts: map<string, Json>, helloOnDisk: bool, searchOnDisk: bool,
                   exitCode: GoalRunner, found: ArtifactCheck)
    requires "ide_hello" in goals && "web_search" in goals
    requires "hello_stdout" in artifacts && "search_png" in artifacts
    requires forall g :: exitCode(g) == 0
    requires forall p :: found(p)
    ensures GenerateAgentOsAf(goals, artifacts).Success?
    ensures var af := GenerateAgentOsAf(goals, artifacts).value;
      var steps := AgentOsSteps(af, goals);
      var r := Drain(af.args, steps, InitialFacts(helloOnDisk, searchOnDisk), 4 * |steps|, AgentOsExec(exitCode, found));
      r.verdict == Complete && r.executed == BothOrder && r.pops == 4
      && HelloFact in r.facts && SearchFact in r.facts
  {
    BothGoalsArgs(goals, artifacts);
    var af := GenerateAgentOsAf(goals, artifacts).value;
    assert KeyOrder(goals) == BothOrder;
    BothGoalsPlan(goals, artifacts, BothOrder);
    var steps := AgentOsSteps(af, goals);
    var initial := InitialFacts(helloOnDisk, searchOnDisk);
    AllReady(exitCode, found, artifacts["hello_stdout"], artifacts["search_png"], af.args, steps, initial);
    ReadyInOrder(af.args, steps, FactsAfter(initial), 4 * |steps|, AgentOsExec(exitCode, found));
  }

  /**
   * A goal run that exits non-zero ends the demo at the first step, before
   * any artifact is checked, whatever was on disk.
   */
  lemma HelloFailureStops(goals: seq<string>, artifacts: map<string, Json>, helloOnDisk: bool, searchOnDisk: bool,
                          exitCode: GoalRunner, found: ArtifactCheck)
    requires "ide_hello" in goals && "web_search" in goals
    requires "hello_stdout" in artifacts && "search_png" in artifacts
    requires exitCode(JStr("ide hello")) != 0
    ensures GenerateAgentOsAf(goals, artifacts).Success?
    ensures var af := GenerateAgentOsAf(goals, artifacts).value;
      var steps := AgentOsSteps(af, goals);
      Drain(af.args, steps, InitialFacts(helloOnDisk, searchOnDisk), 4 * |steps|, AgentOsExec(exitCode, found))
        == Run(Failed("A_run_ide_hello", GoalFailed), InitialFacts(helloOnDisk, searchOnDisk), [], 1)
  {
    BothGoalsArgs(goals, artifacts);
    var af := GenerateAgentOsAf(goals, artifacts).value;
    assert KeyOrder(goals) == BothOrder;
    BothGoalsPlan(goals, artifacts, BothOrder);
    var steps := AgentOsSteps(af, goals);
    HeadStops(exitCode, found, af.args, steps, InitialFacts(helloOnDisk, searchOnDisk), 4 * |steps|);
  }

  lemma HeadStops(exitCode: GoalRunner, found: ArtifactCheck, args: map<string, Argument>, steps: seq<PlanStep>,
                  initial: set<string>, budget: nat)
    requires exitCode(JStr("ide hello")) != 0
    requires "A_run_ide_hello" in args && args["A_run_ide_hello"] == RunArg("A_run_ide_hello", "ide hello", HelloFact, 50)
    requires Ids(steps) == BothOrder && budget > 0
    ensures Drain(args, steps, initial, budget, AgentOsExec(exitCode, found))
      == Run(Failed("A_run_ide_hello", GoalFailed), initial, [], 1)
  {
    assert steps[0].argId == "A_run_ide_hello";
    StopsAtHead(args, steps, initial, budget, AgentOsExec(exitCode, found));
  }

  /**
   * The goal runs are never accepted by the solver (their checks attack
   * them), yet the demo executes them: it plans every argument.
   */
  lemma RunsPlannedThoughRejected(goals: seq<string>, artifacts: map<string, Json>)
    requires "ide_hello" in goals && "web_search" in goals
    requires "hello_stdout" in artifacts && "search_png" in artifacts
    ensures GenerateAgentOsAf(goals, artifacts).Success?
    ensures var af := GenerateAgentOsAf(goals, artifacts).value;
      "A_run_ide_hello" !in GroundedExtension(af)
      && Ids(AgentOsSteps(af, goals))[0] == "A_run_ide_hello"
  {
    BothGoalsArgs(goals, artifacts);
    var af := GenerateAgentOsAf(goals, artifacts).value;
    AgentOsAccepted(goals, artifacts);
    assert KeyOrder(goals) == BothOrder;
    BothGoalsPlan(goals, artifacts, BothOrder);
  }
}
