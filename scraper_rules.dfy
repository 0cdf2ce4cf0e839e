/**
 * The scraper-project rule set: write three files, run the tests, then run
 * the scraper. The writers gate the test run and the test run gates the
 * scraper run, through attacks and through preconditions on facts.
 */
module ScraperRules {
  import opened Wrappers
  import opened Json
  import opened Arguments
  import opened AfSolver
  import opened Planner

  const Topic := "scraper_task"

  function WriteHtml(): Argument {
    Argument("A_write_html", "desktop", Topic, [],
      ActionSpec("write_file", map["path" := JStr("project/sample.html"), "kind" := JStr("html")]),
      ["fs:sample.html exists"],
      VerifySpec("file_exists", map["path" := JStr("project/sample.html"), "timeout_s" := JNum(5.0)]),
      30, 50)
  }

  function WriteScraper(sha: Json): Argument {
    Argument("A_write_scraper", "desktop", Topic, [],
      ActionSpec("write_file", map["path" := JStr("project/scraper.py"), "kind" := JStr("scraper")]),
      ["fs:scraper.py exists", "sha:expected"],
      VerifySpec("file_hash_equal", map["path" := JStr("project/scraper.py"), "expected_sha256" := sha,
                                        "timeout_s" := JNum(5.0)]),
      25, 60)
  }

  function WriteTests(sha: Json): Argument {
    Argument("A_write_tests", "desktop", Topic, [],
      ActionSpec("write_file", map["path" := JStr("project/test_scraper.py"), "kind" := JStr("tests")]),
      ["fs:test exists"],
      VerifySpec("file_hash_equal", map["path" := JStr("project/test_scraper.py"), "expected_sha256" := sha,
                                        "timeout_s" := JNum(5.0)]),
      25, 70)
  }

  function RunTests(): Argument {
    Argument("A_run_tests", "desktop", Topic, ["fs:scraper.py exists", "fs:test exists"],
      ActionSpec("run_pytest", map["path" := JStr("project")]),
      ["tests:pass"],
      VerifySpec("proc_exitcode_ok",
        map["cmd" := JArr([JStr("python"), JStr("-m"), JStr("pytest"), JStr("-q")]),
            "cwd" := JStr("project"), "timeout_s" := JNum(60.0)]),
      15, 90)
  }

  function RunScraper(sha: Json): Argument {
    Argument("A_run_scraper", "desktop", Topic, ["tests:pass"],
      ActionSpec("run_py", map["script" := JStr("project/scraper.py"), "args" := JArr([])]),
      ["out:output.json exists", "sha:out_expected"],
      VerifySpec("file_hash_equal", map["path" := JStr("project/output.json"), "expected_sha256" := sha,
                                        "timeout_s" := JNum(5.0)]),
      10, 100)
  }

  /** The ids in the order the rule set inserts them. */
  const InsertionOrder: seq<string> :=
    ["A_write_html", "A_write_scraper", "A_write_tests", "A_run_tests", "A_run_scraper"]

  /** The deadlines the rule set gives them, in the same order. */
  const Deadlines: seq<int> := [50, 60, 70, 90, 100]

  const ScraperAttacks: set<Edge> :=
    {("A_write_scraper", "A_run_tests"), ("A_write_tests", "A_run_tests"), ("A_write_html", "A_run_tests"),
     ("A_run_tests", "A_run_scraper")}

  /** The framework once the three expected hashes are known. */
  function ScraperFramework(scraperSha: Json, testSha: Json, outSha: Json): (r: ArgFramework)
    ensures r.args.Keys == {"A_write_html", "A_write_scraper", "A_write_tests", "A_run_tests", "A_run_scraper"}
    ensures KeyedById(r.args)
    ensures r.attacks == ScraperAttacks
    ensures r.args["A_run_tests"].pre == ["fs:scraper.py exists", "fs:test exists"]
    ensures r.args["A_run_scraper"].pre == ["tests:pass"]
    ensures (r.args["A_write_html"].priority == 30 && r.args["A_write_html"].deadlineMs == 50
             && r.args["A_write_scraper"].priority == 25 && r.args["A_write_scraper"].deadlineMs == 60
             && r.args["A_write_tests"].priority == 25 && r.args["A_write_tests"].deadlineMs == 70
             && r.args["A_run_tests"].priority == 15 && r.args["A_run_tests"].deadlineMs == 90
             && r.args["A_run_scraper"].priority == 10 && r.args["A_run_scraper"].deadlineMs == 100)
    ensures "expected_sha256" in r.args["A_write_scraper"].verify.params
      && r.args["A_write_scraper"].verify.params["expected_sha256"] == scraperSha
    ensures "expected_sha256" in r.args["A_write_tests"].verify.params
      && r.args["A_write_tests"].verify.params["expected_sha256"] == testSha
    ensures "expected_sha256" in r.args["A_run_scraper"].verify.params
      && r.args["A_run_scraper"].verify.params["expected_sha256"] == outSha
  {
    ArgFramework(
      map["A_write_html" := WriteHtml(),
          "A_write_scraper" := WriteScraper(scraperSha),
          "A_write_tests" := WriteTests(testSha),
          "A_run_tests" := RunTests(),
          "A_run_scraper" := RunScraper(outSha)],
      ScraperAttacks)
  }

  /**
   * `generate_scraper_AF(state, expected)`: the expected hashes are read
   * from `expected` in the order scraper, tests, output, and the first
   * missing key is a KeyError; `state` is not used.
   */
  function GenerateScraperAf(expected: map<string, Json>): (r: Result<ArgFramework, LookupError>)
    ensures r.Failure? <==> !("scraper_sha" in expected && "test_sha" in expected && "out_sha" in expected)
    ensures "scraper_sha" !in expected ==> r == Failure(KeyError("scraper_sha"))
    ensures "scraper_sha" in expected && "test_sha" !in expected ==> r == Failure(KeyError("test_sha"))
    ensures "scraper_sha" in expected && "test_sha" in expected && "out_sha" !in expected ==> r == Failure(KeyError("out_sha"))
    ensures ("scraper_sha" in expected && "test_sha" in expected && "out_sha" in expected
             ==> r == Success(ScraperFramework(expected["scraper_sha"], expected["test_sha"], expected["out_sha"])))
  {
    if "scraper_sha" !in expected then Failure(KeyError("scraper_sha"))
    else if "test_sha" !in expected then Failure(KeyError("test_sha"))
    else if "out_sha" !in expected then Failure(KeyError("out_sha"))
    else Success(ScraperFramework(expected["scraper_sha"], expected["test_sha"], expected["out_sha"]))
  }

  /** All four gating attacks survive the priority filter, and the extension is the three writers. */
  lemma ScraperAccepted(scraperSha: Json, testSha: Json, outSha: Json)
    ensures var af := ScraperFramework(scraperSha, testSha, outSha);
      && PriorityFiltered(af.args, af.attacks) == af.attacks
      && GroundedExtension(af) == {"A_write_html", "A_write_scraper", "A_write_tests"}
  {
    var af := ScraperFramework(scraperSha, testSha, outSha);
    assert ("A_write_html", "A_run_tests") in af.attacks && ("A_run_tests", "A_run_scraper") in af.attacks;
    assert "A_write_html" in GroundedExtension(af);
    assert "A_write_scraper" in GroundedExtension(af);
    assert "A_write_tests" in GroundedExtension(af);
  }

  /** With these deadlines the steps of the ids, taken in insertion order, are already in key order. */
  lemma InsertionOrderProject(args: map<string, Argument>)
    requires forall k | 0 <= k < 5 :: InsertionOrder[k] in args && args[InsertionOrder[k]].deadlineMs == Deadlines[k]
    ensures Sorted(Project(args, InsertionOrder))
    ensures (|Project(args, InsertionOrder)| == 5
             && forall k | 0 <= k < 5 :: Project(args, InsertionOrder)[k].argId == InsertionOrder[k])
  {
    var o := InsertionOrder;
    assert o[0] in args && o[1] in args && o[2] in args && o[3] in args && o[4] in args;
    assert Project(args, o[4..]) == [StepFor(args, o[4])] by { assert o[4..][1..] == []; }
    assert Project(args, o[3..]) == [StepFor(args, o[3])] + Project(args, o[4..]) by { assert o[3..][1..] == o[4..]; }
    assert Project(args, o[2..]) == [StepFor(args, o[2])] + Project(args, o[3..]) by { assert o[2..][1..] == o[3..]; }
    assert Project(args, o[1..]) == [StepFor(args, o[1])] + Project(args, o[2..]) by { assert o[1..][1..] == o[2..]; }
    assert Project(args, o) == [StepFor(args, o[0])] + Project(args, o[1..]);
    var p := Project(args, o);
    assert p == [StepFor(args, o[0]), StepFor(args, o[1]), StepFor(args, o[2]), StepFor(args, o[3]), StepFor(args, o[4])];
  }

  /**
   * Planning every id, in any order, gives html, scraper, tests, the test
   * run and the scraper run: the deadlines alone already order them.
   */
  lemma ScraperPlan(scraperSha: Json, testSha: Json, outSha: Json, ids: seq<string>)
    requires multiset(ids) == multiset(InsertionOrder)
    ensures var plan := OrderPlan(ScraperFramework(scraperSha, testSha, outSha).args, ids);
      |plan| == 5 && forall k | 0 <= k < 5 :: plan[k].argId == InsertionOrder[k]
  {
    var args := ScraperFramework(scraperSha, testSha, outSha).args;
    assert forall k | 0 <= k < 5 :: InsertionOrder[k] in args && args[InsertionOrder[k]].deadlineMs == Deadlines[k];
    InsertionOrderProject(args);
    SortedProjection(args, InsertionOrder);
    OrderIndependent(args, ids, InsertionOrder);
  }
}
