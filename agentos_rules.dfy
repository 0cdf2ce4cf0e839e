/**
 * The desktop-agent rule set: for each requested goal, an argument that
 * runs the goal and one that checks its artifact; the check attacks the
 * run, but has the lower priority.
 */
module AgentOsRules {
  import opened Wrappers
  import opened Json
  import opened Arguments
  import opened AfSolver

  const Topic := "agentos_demo"

  /** The process check every run argument carries: `echo ok` must exit with 0. */
  function EchoOk(): VerifySpec {
    VerifySpec("proc_exitcode_ok", map["cmd" := JArr([JStr("echo"), JStr("ok")])])
  }

  function RunArg(id: string, goal: string, effect: string, deadlineMs: int): Argument {
    Argument(id, "desktop", Topic, [], ActionSpec("run_goal", map["goal" := JStr(goal)]), [effect],
      EchoOk(), 20, deadlineMs, "desktop_policy", "policy")
  }

  function CheckArg(id: string, effect: string, artifact: Json, timeoutS: real, deadlineMs: int): Argument {
    Argument(id, "desktop", Topic, [effect], ActionSpec("noop", map[]), [],
      VerifySpec("file_exists", map["path" := artifact, "timeout_s" := JNum(timeoutS)]),
      15, deadlineMs, "desktop_policy", "policy")
  }

  /** The pair of arguments and the attack for the `ide_hello` goal. */
  function HelloPart(artifact: Json): ArgFramework {
    ArgFramework(
      map["A_run_ide_hello" := RunArg("A_run_ide_hello", "ide hello", "fs:hello_stdout exists", 50),
          "A_verify_ide_hello" := CheckArg("A_verify_ide_hello", "fs:hello_stdout exists", artifact, 10.0, 60)],
      {("A_verify_ide_hello", "A_run_ide_hello")})
  }

  /** The pair of arguments and the attack for the `web_search` goal. */
  function SearchPart(artifact: Json): ArgFramework {
    ArgFramework(
      map["A_run_web_search" := RunArg("A_run_web_search", "search docs", "fs:search_png exists", 70),
          "A_verify_web_search" := CheckArg("A_verify_web_search", "fs:search_png exists", artifact, 20.0, 80)],
      {("A_verify_web_search", "A_run_web_search")})
  }

  function Union(a: ArgFramework, b: ArgFramework): ArgFramework {
    ArgFramework(a.args + b.args, a.attacks + b.attacks)
  }

  const Empty := ArgFramework(map[], {})

  /**
   * `generate_agentos_AF(goals, artifacts)`: a part per listed goal, ide
   * hello first; the artifact path of a listed goal must be in `artifacts`,
   * and the first one missing is a KeyError.
   */
  function GenerateAgentOsAf(goals: seq<string>, artifacts: map<string, Json>): (r: Result<ArgFramework, LookupError>)
    ensures "ide_hello" in goals && "hello_stdout" !in artifacts ==> r == Failure(KeyError("hello_stdout"))
    ensures (("ide_hello" !in goals || "hello_stdout" in artifacts) && "web_search" in goals
             && "search_png" !in artifacts) ==> r == Failure(KeyError("search_png"))
    ensures r.Success? <==> ("ide_hello" in goals ==> "hello_stdout" in artifacts)
                            && ("web_search" in goals ==> "search_png" in artifacts)
    ensures r.Success? ==>
      && r.value.args.Keys ==
           (if "ide_hello" in goals then {"A_run_ide_hello", "A_verify_ide_hello"} else {})
           + (if "web_search" in goals then {"A_run_web_search", "A_verify_web_search"} else {})
      && r.value.attacks ==
           (if "ide_hello" in goals then {("A_verify_ide_hello", "A_run_ide_hello")} else {})
           + (if "web_search" in goals then {("A_verify_web_search", "A_run_web_search")} else {})
      && KeyedById(r.value.args)
  {
    var hello :=
      if "ide_hello" !in goals then Success(Empty)
      else if "hello_stdout" !in artifacts then Failure(KeyError("hello_stdout"))
      else Success(HelloPart(artifacts["hello_stdout"]));
    if hello.Failure? then hello
    else if "web_search" !in goals then hello
    else if "search_png" !in artifacts then Failure(KeyError("search_png"))
    else Success(Union(hello.value, SearchPart(artifacts["search_png"])))
  }

  /** Without goals the framework is empty. */
  lemma NoGoalsEmpty(artifacts: map<string, Json>)
    ensures GenerateAgentOsAf([], artifacts) == Success(Empty)
  {
  }

  /**
   * Every run argument has priority 20 and no preconditions, every check
   * argument priority 15 and the run's effect as its only precondition.
   */
  lemma GoalShape(goals: seq<string>, artifacts: map<string, Json>)
    requires GenerateAgentOsAf(goals, artifacts).Success?
    ensures var args := GenerateAgentOsAf(goals, artifacts).value.args;
      && ("A_run_ide_hello" in args ==>
            args["A_run_ide_hello"].priority == 20 && args["A_run_ide_hello"].pre == []
            && args["A_verify_ide_hello"].priority == 15
            && args["A_verify_ide_hello"].pre == args["A_run_ide_hello"].effects)
      && ("A_run_web_search" in args ==>
            args["A_run_web_search"].priority == 20 && args["A_run_web_search"].pre == []
            && args["A_verify_web_search"].priority == 15
            && args["A_verify_web_search"].pre == args["A_run_web_search"].effects)
  {
  }

  /** Filtering and solving a framework with a run/check pair per listed goal. */
  lemma PartsAccepted(af: ArgFramework, hello: bool, search: bool)
    requires af.args.Keys ==
           (if hello then {"A_run_ide_hello", "A_verify_ide_hello"} else {})
           + (if search then {"A_run_web_search", "A_verify_web_search"} else {})
    requires af.attacks ==
           (if hello then {("A_verify_ide_hello", "A_run_ide_hello")} else {})
           + (if search then {("A_verify_web_search", "A_run_web_search")} else {})
    requires hello ==> af.args["A_run_ide_hello"].priority == 20 && af.args["A_verify_ide_hello"].priority == 15
    requires search ==> af.args["A_run_web_search"].priority == 20 && af.args["A_verify_web_search"].priority == 15
    ensures PriorityFiltered(af.args, af.attacks) == {}
    ensures GroundedExtension(af) ==
           (if hello then {"A_verify_ide_hello"} else {}) + (if search then {"A_verify_web_search"} else {})
  {
    if hello {
      assert ("A_verify_ide_hello", "A_run_ide_hello") in af.attacks;
      assert "A_verify_ide_hello" in GroundedExtension(af);
    }
    if search {
      assert ("A_verify_web_search", "A_run_web_search") in af.attacks;
      assert "A_verify_web_search" in GroundedExtension(af);
    }
  }

  /**
   * The priority filter would drop every attack (15 < 20), and the
   * extension holds the check arguments and no run argument.
   */
  lemma AgentOsAccepted(goals: seq<string>, artifacts: map<string, Json>)
    requires GenerateAgentOsAf(goals, artifacts).Success?
    ensures var af := GenerateAgentOsAf(goals, artifacts).value;
      && PriorityFiltered(af.args, af.attacks) == {}
      && GroundedExtension(af) ==
           (if "ide_hello" in goals then {"A_verify_ide_hello"} else {})
           + (if "web_search" in goals then {"A_verify_web_search"} else {})
  {
    GoalShape(goals, artifacts);
    PartsAccepted(GenerateAgentOsAf(goals, artifacts).value, "ide_hello" in goals, "web_search" in goals);
  }
}
