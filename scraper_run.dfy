/**
 * The scraper demo's execution: plan every argument of the scraper rule
 * set, then run the plan through the precondition-gated queue, writing
 * files, running the tests and running the scraper. Each check's verdict
 * (file existence, file hash, process exit code) comes from `passes`,
 * keyed by the check's name and parameters; the initial facts are what the
 * workspace already holds, and `python` is the running interpreter's path.
 */
module ScraperRun {
  import opened Wrappers
  import opened Json
  import opened Arguments
  import opened Planner
  import opened PlanQueue
  import opened ScraperRules

  /** A verifier's verdict on the workspace, by verifier name and parameters. */
  type Checks = (string, map<string, Json>) -> bool

  /** The fact a successful action implies by its kind, if any. */
  function InferredFact(a: Argument): Option<string> {
    if a.action.name == "write_file" then
      var kind := if "kind" in a.action.params then a.action.params["kind"] else JNull;
      if kind == JStr("html") then Some("fs:sample.html exists")
      else if kind == JStr("scraper") then Some("fs:scraper.py exists")
      else if kind == JStr("tests") then Some("fs:test exists")
      else None
    else if a.action.name == "run_pytest" then Some("tests:pass")
    else if a.action.name == "run_py" then Some("out:output.json exists")
    else None
  }

  /**
   * `update_facts_after_success`: the facts grow by the fact the action
   * implies and by every declared effect, and by nothing else.
   */
  function UpdateFacts(a: Argument, facts: set<string>): (r: set<string>)
    ensures facts <= r
    ensures forall e | e in a.effects :: e in r
    ensures InferredFact(a).Some? ==> InferredFact(a).value in r
    ensures forall f | f in r && f !in facts :: f in a.effects || InferredFact(a) == Some(f)
  {
    var declared := set e | e in a.effects;
    if InferredFact(a).Some? then facts + {InferredFact(a).value} + declared else facts + declared
  }

  const UnknownWriteCheck := "ValueError: Unknown verifier for write_file"

  function UnknownAction(name: string): string {
    "ValueError: Unknown action: " + name
  }

  /** The command and check the demo uses to run the scraper and check its output. */
  function RunScraperCmd(python: string): map<string, Json> {
    map["cmd" := JArr([JStr(python), JStr("scraper.py")]), "cwd" := JStr("project")]
  }

  function OutputCheck(outSha: Json): map<string, Json> {
    map["path" := JStr("project/output.json"), "expected_sha256" := outSha, "timeout_s" := JNum(5.0)]
  }

  /**
   * Executing one ready step: a file write is checked by the argument's own
   * file check, the test run by its exit code, the scraper run by its exit
   * code and then by the hash of its output. Facts change only after every
   * check passed; a failed check stops the run; an unknown action, or a
   * file write with an unknown check, raises.
   */
  function ScraperStep(passes: Checks, python: string, outSha: Json, a: Argument, facts: set<string>): (r: Outcome)
    ensures r.Done? ==> r.facts == UpdateFacts(a, facts)
    ensures r.Raise? <==>
      (a.action.name !in {"write_file", "run_pytest", "run_py"}
       || (a.action.name == "write_file" && a.verify.name !in {"file_exists", "file_hash_equal"}))
    ensures r.Done? && a.action.name == "write_file" ==> passes(a.verify.name, a.verify.params)
    ensures r.Done? && a.action.name == "run_pytest" ==> passes("proc_exitcode_ok", a.verify.params)
    ensures r.Done? && a.action.name == "run_py" ==>
      passes("proc_exitcode_ok", RunScraperCmd(python)) && passes("file_hash_equal", OutputCheck(outSha))
  {
    if a.action.name == "write_file" then
      if a.verify.name != "file_exists" && a.verify.name != "file_hash_equal" then Raise(UnknownWriteCheck)
      else if !passes(a.verify.name, a.verify.params) then Stop("Verification failed")
      else Done(UpdateFacts(a, facts))
    else if a.action.name == "run_pytest" then
      if !passes("proc_exitcode_ok", a.verify.params) then Stop("Tests failed")
      else Done(UpdateFacts(a, facts))
    else if a.action.name == "run_py" then
      if !passes("proc_exitcode_ok", RunScraperCmd(python)) then Stop("run failed")
      else if !passes("file_hash_equal", OutputCheck(outSha)) then Stop("Output verification failed")
      else Done(UpdateFacts(a, facts))
    else Raise(UnknownAction(a.action.name))
  }

  /** The step function the demo's queue runs. */
  function ScraperExec(passes: Checks, python: string, outSha: Json): (Argument, set<string>) -> Outcome {
    (a, f) => ScraperStep(passes, python, outSha, a, f)
  }

  /** The plan `main` runs: every argument of the rule set. */
  function ScraperSteps(scraperSha: Json, testSha: Json, outSha: Json): seq<PlanStep> {
    OrderPlan(ScraperFramework(scraperSha, testSha, outSha).args, InsertionOrder)
  }

  /** A completed scraper run executed each of the five steps exactly once. */
  lemma ScraperCompleteRunsAll(passes: Checks, python: string, scraperSha: Json, testSha: Json, outSha: Json, initial: set<string>)
    requires Drain(ScraperFramework(scraperSha, testSha, outSha).args, ScraperSteps(scraperSha, testSha, outSha),
                   initial, 20, ScraperExec(passes, python, outSha)).verdict.Complete?
    ensures multiset(Drain(ScraperFramework(scraperSha, testSha, outSha).args, ScraperSteps(scraperSha, testSha, outSha),
                           initial, 20, ScraperExec(passes, python, outSha)).executed) == multiset(InsertionOrder)
  {
    ScraperStepIds(scraperSha, testSha, outSha);
    CompleteRunsEveryStep(ScraperFramework(scraperSha, testSha, outSha).args, ScraperSteps(scraperSha, testSha, outSha),
                          initial, 20, ScraperExec(passes, python, outSha));
  }

  lemma ScraperStepIds(scraperSha: Json, testSha: Json, outSha: Json)
    ensures Ids(ScraperSteps(scraperSha, testSha, outSha)) == InsertionOrder
  {
    ScraperPlan(scraperSha, testSha, outSha, InsertionOrder);
    IdsOfPlan(ScraperSteps(scraperSha, testSha, outSha), InsertionOrder);
  }

  lemma IdsOfPlan(plan: seq<PlanStep>, ids: seq<string>)
    requires |plan| == |ids| && forall k | 0 <= k < |ids| :: plan[k].argId == ids[k]
    ensures Ids(plan) == ids
  {
  }

  /**
   * `main`: build the framework from the three expected hashes, plan every
   * argument (not only the accepted ones), and run the queue.
   */
  method ScraperMain(passes: Checks, python: string, scraperSha: Json, testSha: Json, outSha: Json, initial: set<string>)
    returns (r: Run)
    ensures r == Drain(ScraperFramework(scraperSha, testSha, outSha).args, ScraperSteps(scraperSha, testSha, outSha),
                       initial, 20, ScraperExec(passes, python, outSha))
  {
    var af := ScraperFramework(scraperSha, testSha, outSha);
    var steps := OrderPlan(af.args, InsertionOrder);
    ScraperPlan(scraperSha, testSha, outSha, InsertionOrder);
    r := RunQueue(af.args, steps, initial, ScraperExec(passes, python, outSha));
  }

  lemma ScraperArgs(scraperSha: Json, testSha: Json, outSha: Json)
    ensures var args := ScraperFramework(scraperSha, testSha, outSha).args;
      && args["A_write_html"] == WriteHtml() && args["A_write_scraper"] == WriteScraper(scraperSha)
      && args["A_write_tests"] == WriteTests(testSha) && args["A_run_tests"] == RunTests()
      && args["A_run_scraper"] == RunScraper(outSha)
  {
  }

  /** With every check passing, a step with a known action (and, for a write, a known check) executes. */
  lemma StepPasses(passes: Checks, python: string, outSha: Json, a: Argument, f: set<string>)
    requires forall name, params :: passes(name, params)
    requires Executable(a)
    ensures ScraperExec(passes, python, outSha)(a, f) == Done(UpdateFacts(a, f))
  {
  }

  /** The five scraper arguments in insertion order. */
  function ScraperArgList(scraperSha: Json, testSha: Json, outSha: Json): (r: seq<Argument>)
    ensures |r| == 5
  {
    [WriteHtml(), WriteScraper(scraperSha), WriteTests(testSha), RunTests(), RunScraper(outSha)]
  }

  /** The facts after each argument of `list` in turn, starting from `initial`. */
  function FactsFrom(list: seq<Argument>, initial: set<string>): (r: seq<set<string>>)
    ensures |r| == |list| + 1 && r[0] == initial
    ensures forall k | 0 <= k < |list| :: r[k + 1] == UpdateFacts(list[k], r[k])
  {
    if list == [] then [initial]
    else
      var fs := FactsFrom(list[..|list| - 1], initial);
      assert forall k | 0 <= k < |list| - 1 :: list[..|list| - 1][k] == list[k];
      fs + [UpdateFacts(list[|list| - 1], fs[|list| - 1])]
  }

  /** The facts the five steps leave, one after the other, starting from `initial`. */
  function FactsAfter(scraperSha: Json, testSha: Json, outSha: Json, initial: set<string>): (r: seq<set<string>>)
    ensures |r| == 6
  {
    FactsFrom(ScraperArgList(scraperSha, testSha, outSha), initial)
  }

  lemma FactsChain(scraperSha: Json, testSha: Json, outSha: Json, initial: set<string>)
    ensures var fs := FactsAfter(scraperSha, testSha, outSha, initial);
      && "fs:scraper.py exists" in fs[3] && "fs:test exists" in fs[3]
      && "tests:pass" in fs[4] && "tests:pass" in fs[5] && "out:output.json exists" in fs[5]
  {
    var list := ScraperArgList(scraperSha, testSha, outSha);
    var fs := FactsAfter(scraperSha, testSha, outSha, initial);
    assert fs[2] == UpdateFacts(list[1], fs[1]) && fs[3] == UpdateFacts(list[2], fs[2]);
    assert fs[4] == UpdateFacts(list[3], fs[3]) && fs[5] == UpdateFacts(list[4], fs[4]);
    assert "fs:scraper.py exists" in WriteScraper(scraperSha).effects && "fs:test exists" in WriteTests(testSha).effects;
    assert "tests:pass" in RunTests().effects && "out:output.json exists" in RunScraper(outSha).effects;
  }

  /** A step the demo's executor runs: a known action and, for a file write, a known check. */
  predicate Executable(a: Argument) {
    && a.action.name in {"write_file", "run_pytest", "run_py"}
    && (a.action.name == "write_file" ==> a.verify.name in {"file_exists", "file_hash_equal"})
  }

  /** Each of the five arguments is executable and ready on the facts its predecessors left. */
  lemma ScraperListReady(scraperSha: Json, testSha: Json, outSha: Json, initial: set<string>)
    ensures var list := ScraperArgList(scraperSha, testSha, outSha);
      forall j | 0 <= j < 5 :: Executable(list[j]) && PreOk(list[j].pre, FactsAfter(scraperSha, testSha, outSha, initial)[j])
  {
    FactsChain(scraperSha, testSha, outSha, initial);
  }

  /**
   * With every check passing, steps `k` onwards form a ready chain when
   * each is stored under its id, executable, and ready on the facts before it.
   */
  lemma {:induction false} ReadyFrom(passes: Checks, python: string, outSha: Json, args: map<string, Argument>, steps: seq<PlanStep>,
                                     list: seq<Argument>, initial: set<string>, k: nat)
    requires forall name, params :: passes(name, params)
    requires |steps| == |list| && k <= |list|
    requires forall j | k <= j < |list| :: steps[j].argId in args && args[steps[j].argId] == list[j]
    requires forall j | k <= j < |list| :: Executable(list[j]) && PreOk(list[j].pre, FactsFrom(list, initial)[j])
    ensures ReadyChain(args, steps[k..], FactsFrom(list, initial)[k..], ScraperExec(passes, python, outSha))
    decreases |list| - k
  {
    var fs := FactsFrom(list, initial);
    if k < |list| {
      ReadyFrom(passes, python, outSha, args, steps, list, initial, k + 1);
      StepPasses(passes, python, outSha, list[k], fs[k]);
      ReadyLink(args, steps, fs, k, ScraperExec(passes, python, outSha));
    }
  }

  /** With every check passing, each plan step is ready and executes given the facts its predecessors left. */
  lemma AllReady(passes: Checks, python: string, scraperSha: Json, testSha: Json, outSha: Json,
                 args: map<string, Argument>, steps: seq<PlanStep>, initial: set<string>)
    requires forall name, params :: passes(name, params)
    requires "A_write_html" in args && args["A_write_html"] == WriteHtml()
    requires "A_write_scraper" in args && args["A_write_scraper"] == WriteScraper(scraperSha)
    requires "A_write_tests" in args && args["A_write_tests"] == WriteTests(testSha)
    requires "A_run_tests" in args && args["A_run_tests"] == RunTests()
    requires "A_run_scraper" in args && args["A_run_scraper"] == RunScraper(outSha)
    requires Ids(steps) == InsertionOrder
    ensures ReadyChain(args, steps, FactsAfter(scraperSha, testSha, outSha, initial), ScraperExec(passes, python, outSha))
  {
    var list := ScraperArgList(scraperSha, testSha, outSha);
    assert |steps| == 5;
    forall j | 0 <= j < 5
      ensures steps[j].argId in args && args[steps[j].argId] == list[j]
    {
      assert steps[j].argId == InsertionOrder[j];
    }
    ScraperListReady(scraperSha, testSha, outSha, initial);
    ReadyFrom(passes, python, outSha, args, steps, list, initial, 0);
    assert steps[0..] == steps;
  }

  /** The all-pass run over any framework holding the five scraper arguments under their ids. */
  lemma AllPassOn(passes: Checks, python: string, scraperSha: Json, testSha: Json, outSha: Json,
                  args: map<string, Argument>, steps: seq<PlanStep>, initial: set<string>)
    requires forall name, params :: passes(name, params)
    requires "A_write_html" in args && args["A_write_html"] == WriteHtml()
    requires "A_write_scraper" in args && args["A_write_scraper"] == WriteScraper(scraperSha)
    requires "A_write_tests" in args && args["A_write_tests"] == WriteTests(testSha)
    requires "A_run_tests" in args && args["A_run_tests"] == RunTests()
    requires "A_run_scraper" in args && args["A_run_scraper"] == RunScraper(outSha)
    requires Ids(steps) == InsertionOrder
    ensures var r := Drain(args, steps, initial, 20, ScraperExec(passes, python, outSha));
      r.verdict == Complete && r.executed == InsertionOrder && r.pops == 5
      && "tests:pass" in r.facts && "out:output.json exists" in r.facts
  {
    AllReady(passes, python, scraperSha, testSha, outSha, args, steps, initial);
    FactsChain(scraperSha, testSha, outSha, initial);
    ReadyInOrder(args, steps, FactsAfter(scraperSha, testSha, outSha, initial), 20, ScraperExec(passes, python, outSha));
  }

  /**
   * When every check passes, the run completes whatever the workspace held:
   * the five steps run once each in plan order, and the facts end up
   * recording the passed tests and the scraper's output.
   */
  lemma AllChecksPass(passes: Checks, python: string, scraperSha: Json, testSha: Json, outSha: Json, initial: set<string>)
    requires forall name, params :: passes(name, params)
    ensures var r := Drain(ScraperFramework(scraperSha, testSha, outSha).args, ScraperSteps(scraperSha, testSha, outSha),
                           initial, 20, ScraperExec(passes, python, outSha));
      r.verdict == Complete && r.executed == InsertionOrder && r.pops == 5
      && "tests:pass" in r.facts && "out:output.json exists" in r.facts
  {
    ScraperArgs(scraperSha, testSha, outSha);
    ScraperStepIds(scraperSha, testSha, outSha);
    AllPassOn(passes, python, scraperSha, testSha, outSha, ScraperFramework(scraperSha, testSha, outSha).args,
              ScraperSteps(scraperSha, testSha, outSha), initial);
  }
}
