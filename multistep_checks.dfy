/**
 * The multistep desktop demo's checks: one check is dispatched by name to
 * the verifier library over what the workspace shows it, a command's
 * script path loses a duplicated working-directory prefix, and a step's
 * checks run in order until the first that does not pass.
 */
module MultistepChecks {
  import opened Wrappers
  import opened Json
  import opened PyStr
  import opened Arguments
  import Verify

  /** A directory as `dir_contains` sees it. */
  datatype DirView = DirView(present: bool, isDir: bool, entries: nat)

  /** A JSON file as `json_field_equals` sees it: whether it exists, and what `json.loads` makes of it. */
  datatype Document = Document(found: bool, parsed: Result<Json, string>)

  /**
   * What the workspace shows the checks, by the paths and commands they
   * name: the verdict of the two polling file checks once their parameters
   * are read; how a command ends when run in a directory with a timeout;
   * whether `re.search` finds a pattern in a text; a JSON file; a
   * directory's listing; and how many paths a glob yields, or what it
   * raises.
   */
  datatype Workspace = Workspace(
    verdict: (string, map<string, Json>) -> bool,
    run: (seq<Json>, Json, Json) -> Verify.ProcOutcome,
    search: (Json, string) -> bool,
    document: string -> Document,
    listing: string -> DirView,
    glob: (string, Json) -> Result<nat, string>)

  /** The verifiers run a command first. */
  const CommandChecks: set<string> := {"proc_exitcode_ok", "stdout_contains", "stdout_regex"}

  /** The verifiers that read a path under the workspace root first. */
  const PathChecks: set<string> :=
    {"file_exists", "file_hash_equal", "json_field_equals", "dir_contains", "file_glob_exists"}

  /** The verifiers the dispatcher knows, besides `noop`. */
  const KnownChecks: set<string> := PathChecks + CommandChecks

  /**
   * The parameters a verifier looks up with `params[...]` once its path or
   * command is read, in lookup order.
   */
  function LaterParams(name: string): seq<string> {
    if name == "file_hash_equal" then ["expected_sha256"]
    else if name == "stdout_contains" then ["must_include"]
    else if name == "stdout_regex" || name == "file_glob_exists" then ["pattern"]
    else if name == "json_field_equals" then ["pointer", "expected"]
    else []
  }

  /** The first key of `keys` that `params` lacks. */
  function FirstMissing(keys: seq<string>, params: map<string, Json>): (r: Option<string>)
    ensures r.None? <==> forall k | k in keys :: k in params
    ensures r.Some? ==> exists i | 0 <= i < |keys| :: keys[i] == r.value && r.value !in params
                                                      && forall j | 0 <= j < i :: keys[j] in params
  {
    if keys == [] then None
    else if keys[0] !in params then Some(keys[0])
    else
      var rest := FirstMissing(keys[1..], params);
      if rest.Some? then
        var i :| 0 <= i < |keys[1..]| && keys[1..][i] == rest.value && rest.value !in params
                 && forall j | 0 <= j < i :: keys[1..][j] in params;
        assert keys[i + 1] == rest.value;
        rest
      else rest
  }

  /** `list(cmd)`: a list as it is, a string as its characters; anything else is not modelled (None). */
  function CmdList(cmd: Json): (r: Option<seq<Json>>)
    ensures cmd.JArr? ==> r == Some(cmd.arr)
    ensures cmd.JStr? ==> r.Some? && |r.value| == |cmd.s| && forall i | 0 <= i < |cmd.s| :: r.value[i] == JStr([cmd.s[i]])
    ensures r.Some? <==> cmd.JArr? || cmd.JStr?
  {
    match cmd
    case JArr(xs) => Some(xs)
    case JStr(s) => Some(seq(|s|, i requires 0 <= i < |s| => JStr([s[i]])))
    case _ => None
  }

  /**
   * The working directory whose `"<cwd>/"` prefix is removed from the
   * script path. The check runner skips `"."`, `""` and None; the action
   * runner skips only `"."` and `""`, so a None directory there becomes the
   * prefix `"None/"`. A directory of any other type is not modelled.
   */
  function CwdPrefix(cwd: Json, skipNone: bool): (r: Option<string>)
    ensures r.Some? ==> r.value != "." && r.value != ""
    ensures cwd.JStr? && cwd.s != "." && cwd.s != "" ==> r == Some(cwd.s)
    ensures cwd.JNull? ==> r == (if skipNone then None else Some("None"))
  {
    match cwd
    case JStr(s) => if s == "." || s == "" then None else Some(s)
    case JNull => if skipNone then None else Some("None")
    case _ => None
  }

  /**
   * `cmd[1]` with a leading `"<cwd>/"` removed, when `cmd` has a second
   * element that is a string starting with it; otherwise `cmd` unchanged.
   */
  function StripCwd(cmd: seq<Json>, cwd: string): (r: seq<Json>)
    ensures |r| == |cmd| && forall i | 0 <= i < |cmd| && i != 1 :: r[i] == cmd[i]
    ensures r != cmd ==> |cmd| >= 2 && r[1].JStr? && cmd[1] == JStr(cwd + "/" + r[1].s)
    ensures |cmd| >= 2 && cmd[1].JStr? && StartsWith(cmd[1].s, cwd + "/") ==> r != cmd
  {
    var prefix := cwd + "/";
    if |cmd| >= 2 && cmd[1].JStr? && StartsWith(cmd[1].s, prefix) then
      var rest := cmd[1].s[|prefix|..];
      assert cmd[1].s == prefix + rest;
      assert |rest| < |cmd[1].s|;
      cmd[1 := JStr(rest)]
    else cmd
  }

  /** A script path written as `"<cwd>/<script>"` is run as `<script>`. */
  lemma StripCwdRoundTrip(cmd: seq<Json>, cwd: string, script: string)
    requires |cmd| >= 2 && cmd[1] == JStr(cwd + "/" + script)
    ensures StripCwd(cmd, cwd) == cmd[1 := JStr(script)]
  {
    assert StartsWith(cmd[1].s, cwd + "/");
    assert cmd[1].s[|cwd + "/"|..] == script;
  }

  /** The command a check or action runs: `cmd` with the directory prefix removed when there is one. */
  function NormCmd(cmd: seq<Json>, cwd: Json, skipNone: bool): seq<Json> {
    var p := CwdPrefix(cwd, skipNone);
    if p.Some? then StripCwd(cmd, p.value) else cmd
  }

  /** `params.get("cwd", ".")`. */
  function CwdOf(params: map<string, Json>): Json {
    if "cwd" in params then params["cwd"] else JStr(".")
  }

  /** `cwd or "."`: the directory a check's command runs in; a truthy value that is not a string raises. */
  function RunDir(cwd: Json): (r: Result<Json, string>)
    ensures r.Failure? <==> Truthy(cwd) && !cwd.JStr?
    ensures r.Success? ==> r.value.JStr? && r.value.s != ""
    ensures cwd.JStr? && cwd.s != "" ==> r == Success(cwd)
  {
    if !Truthy(cwd) then Success(JStr("."))
    else if cwd.JStr? then Success(cwd)
    else Failure("TypeError: cwd")
  }

  /**
   * How a check's command ends: `cmd` as a list, its script path stripped
   * of the `"<cwd>/"` prefix, run in `cwd or "."` with the given timeout.
   */
  function CheckOutcome(ws: Workspace, params: map<string, Json>, timeout: Json): Verify.ProcOutcome
    requires "cmd" in params && CmdList(params["cmd"]).Some? && RunDir(CwdOf(params)).Success?
  {
    ws.run(NormCmd(CmdList(params["cmd"]).value, CwdOf(params), true), RunDir(CwdOf(params)).value, timeout)
  }

  /** A command check can run once its command and directory are read. */
  predicate CommandReadable(params: map<string, Json>) {
    "cmd" in params && CmdList(params["cmd"]).Some? && RunDir(CwdOf(params)).Success?
  }

  /** Raised while reading a parameter: a missing key or a value of the wrong type. */
  predicate ParamError(e: string) {
    StartsWith(e, "KeyError: ") || StartsWith(e, "TypeError: ")
  }

  /**
   * The three command checks: `cmd` is read (KeyError when missing), made a
   * list and normalised with its directory, then the next parameter is read.
   * `proc_exitcode_ok` passes on exit code 0 and lets any exception other
   * than a timeout through; the two stdout checks also need the text or the
   * pattern in stdout and turn every exception into FAIL.
   */
  function CommandCheck(ws: Workspace, name: string, params: map<string, Json>): (r: Result<Verify.Status, string>)
    requires name in CommandChecks
    ensures r.Success? ==> r.value != Verify.Skipped
    ensures "cmd" !in params ==> r == Failure("KeyError: cmd")
    ensures !CommandReadable(params) ==> r.Failure? && ParamError(r.error)
    ensures name == "proc_exitcode_ok" && CommandReadable(params) ==>
      (r == Success(Verify.Pass) <==>
         CheckOutcome(ws, params, JNum(120.0)).Completed? && CheckOutcome(ws, params, JNum(120.0)).returncode == 0)
      && (r.Failure? <==> CheckOutcome(ws, params, JNum(120.0)).Raised?)
    ensures name != "proc_exitcode_ok" && r.Failure? ==> ParamError(r.error)
    ensures name == "stdout_contains" && r == Success(Verify.Pass) ==>
      CommandReadable(params) && "must_include" in params && params["must_include"].JStr?
      && var o := CheckOutcome(ws, params, Get(params, "timeout_s", JNum(30.0)));
         o.Completed? && o.returncode == 0 && Contains(o.stdout, params["must_include"].s)
    ensures name == "stdout_regex" && r == Success(Verify.Pass) ==>
      CommandReadable(params) && "pattern" in params
      && var o := CheckOutcome(ws, params, Get(params, "timeout_s", JNum(30.0)));
         o.Completed? && o.returncode == 0 && ws.search(params["pattern"], o.stdout)
  {
    if "cmd" !in params then Failure("KeyError: cmd")
    else match CmdList(params["cmd"])
      case None => Failure("TypeError: cmd")
      case Some(cmd) =>
        match RunDir(CwdOf(params))
        case Failure(e) => Failure(e)
        case Success(dir) =>
          match FirstMissing(LaterParams(name), params)
          case Some(k) => Failure("KeyError: " + k)
          case None =>
            var cmd2 := NormCmd(cmd, CwdOf(params), true);
            if name == "proc_exitcode_ok" then Verify.ProcExitcodeOk(ws.run(cmd2, dir, JNum(120.0)))
            else
              var outcome := ws.run(cmd2, dir, Get(params, "timeout_s", JNum(30.0)));
              if name == "stdout_contains" then
                var needle := params["must_include"];
                Success(if needle.JStr? then Verify.StdoutContains(outcome, needle.s) else Verify.Fail)
              else
                Success(Verify.StdoutRegex(outcome, outcome.Completed? && ws.search(params["pattern"], outcome.stdout)))
  }

  /** `Path(acts_root, params[key])`: KeyError when the key is missing, TypeError when it is not a string. */
  function PathParam(params: map<string, Json>, key: string): (r: Result<string, string>)
    ensures r.Success? <==> key in params && params[key].JStr?
    ensures r.Success? ==> r.value == params[key].s
    ensures r.Failure? ==> ParamError(r.error)
    ensures key !in params ==> r == Failure("KeyError: " + key)
  {
    if key !in params then Failure("KeyError: " + key)
    else if !params[key].JStr? then Failure("TypeError: " + key)
    else Success(params[key].s)
  }

  /** The key a path check reads its path from. */
  function PathKey(name: string): string {
    if name == "file_glob_exists" then "root" else "path"
  }

  /**
   * The five path checks: the path is read first, then the later
   * parameters. The two polling checks compare their timeout with a number
   * (TypeError unless it is one) and pass on the workspace's verdict;
   * `json_field_equals` walks the document; `dir_contains` needs an existing
   * directory with at least `min_files` entries (a `min_files` that is not
   * a number raises once it is compared); `file_glob_exists` needs a match.
   */
  function PathCheck(ws: Workspace, name: string, params: map<string, Json>): (r: Result<Verify.Status, string>)
    requires name in PathChecks
    ensures r.Success? ==> r.value != Verify.Skipped
    ensures PathKey(name) !in params ==> r == Failure("KeyError: " + PathKey(name))
    ensures r.Success? ==> PathParam(params, PathKey(name)).Success?
    ensures name == "json_field_equals" && r.Failure? ==> ParamError(r.error)
    ensures name == "file_exists" || name == "file_hash_equal" ==>
      r == Success(Verify.Pass) ==> ws.verdict(name, params)
    ensures name == "json_field_equals" && r == Success(Verify.Pass) ==>
      var d := ws.document(params["path"].s);
      "pointer" in params && "expected" in params && d.found && d.parsed.Success? && params["pointer"].JStr?
      && Verify.Walk(d.parsed.value, Verify.PointerTokens(params["pointer"].s)).Success?
      && PyEq(Verify.Walk(d.parsed.value, Verify.PointerTokens(params["pointer"].s)).value, params["expected"])
    ensures name == "dir_contains" && r == Success(Verify.Pass) ==>
      var l := ws.listing(params["path"].s);
      l.present && l.isDir && NumericValue(Get(params, "min_files", JNum(1.0))).Some?
      && l.entries as real >= NumericValue(Get(params, "min_files", JNum(1.0))).value
    ensures name == "dir_contains" && PathParam(params, "path").Success? ==>
      var l := ws.listing(params["path"].s);
      (r.Failure? <==> l.present && l.isDir && NumericValue(Get(params, "min_files", JNum(1.0))).None?)
    ensures name == "file_glob_exists" && r == Success(Verify.Pass) ==>
      "pattern" in params && ws.glob(params["root"].s, params["pattern"]).Success?
      && ws.glob(params["root"].s, params["pattern"]).value > 0
  {
    match PathParam(params, PathKey(name))
    case Failure(e) => Failure(e)
    case Success(path) =>
      match FirstMissing(LaterParams(name), params)
      case Some(k) => Failure("KeyError: " + k)
      case None =>
        if name == "file_exists" || name == "file_hash_equal" then
          if NumericValue(Get(params, "timeout_s", JNum(5.0))).None? then Failure("TypeError: timeout_s")
          else Success(if ws.verdict(name, params) then Verify.Pass else Verify.Fail)
        else if name == "json_field_equals" then
          var d := ws.document(path);
          var pointer := params["pointer"];
          Success(if pointer.JStr? then Verify.JsonFieldEquals(d.found, d.parsed, pointer.s, params["expected"]).status
                  else Verify.Fail)
        else if name == "dir_contains" then
          var l := ws.listing(path);
          var minFiles := NumericValue(Get(params, "min_files", JNum(1.0)));
          if minFiles.None? then
            if l.present && l.isDir then Failure("TypeError: min_files") else Success(Verify.Fail)
          else Success(Verify.DirContains(l.present, l.isDir, l.entries, minFiles.value))
        else
          match ws.glob(path, params["pattern"])
          case Failure(e) => Failure(e)
          case Success(n) => Success(Verify.FileGlobExists(n))
  }

  /**
   * What `stdout_contains` gives once its command is read: KeyError without
   * a text, FAIL for a text that is not a string, otherwise the verdict on
   * the command's output.
   */
  lemma StdoutContainsValue(ws: Workspace, params: map<string, Json>)
    requires CommandReadable(params)
    ensures "must_include" !in params ==> CommandCheck(ws, "stdout_contains", params) == Failure("KeyError: must_include")
    ensures "must_include" in params ==>
      var o := CheckOutcome(ws, params, Get(params, "timeout_s", JNum(30.0)));
      var text := params["must_include"];
      CommandCheck(ws, "stdout_contains", params)
        == Success(if text.JStr? then Verify.StdoutContains(o, text.s) else Verify.Fail)
  {
    assert LaterParams("stdout_contains") == ["must_include"];
    if "must_include" !in params {
      assert FirstMissing(["must_include"], params) == Some("must_include");
      assert "KeyError: " + "must_include" == "KeyError: must_include";
    }
  }

  /**
   * What `stdout_regex` gives once its command is read: KeyError without a
   * pattern, otherwise the verdict on whether the pattern is found in the
   * output of a command that completed.
   */
  lemma StdoutRegexValue(ws: Workspace, params: map<string, Json>)
    requires CommandReadable(params)
    ensures "pattern" !in params ==> CommandCheck(ws, "stdout_regex", params) == Failure("KeyError: pattern")
    ensures "pattern" in params ==>
      var o := CheckOutcome(ws, params, Get(params, "timeout_s", JNum(30.0)));
      CommandCheck(ws, "stdout_regex", params)
        == Success(Verify.StdoutRegex(o, o.Completed? && ws.search(params["pattern"], o.stdout)))
  {
    assert LaterParams("stdout_regex") == ["pattern"];
    if "pattern" !in params {
      assert FirstMissing(["pattern"], params) == Some("pattern");
      assert "KeyError: " + "pattern" == "KeyError: pattern";
    }
  }

  /**
   * What a path check gives once its path and later parameters are read:
   * the polling checks the workspace's verdict (TypeError for a timeout
   * that is not a number), `json_field_equals` the walk's status (a
   * non-string pointer fails), `dir_contains` the listing against a
   * numeric `min_files`, and `file_glob_exists` the match count or the
   * glob's exception.
   */
  lemma PathCheckValue(ws: Workspace, name: string, params: map<string, Json>)
    requires name in PathChecks
    ensures (name == "file_exists" || name == "file_hash_equal") && PathParam(params, "path").Success?
            && FirstMissing(LaterParams(name), params).None? ==>
      PathCheck(ws, name, params)
        == if NumericValue(Get(params, "timeout_s", JNum(5.0))).None? then Failure("TypeError: timeout_s")
           else Success(if ws.verdict(name, params) then Verify.Pass else Verify.Fail)
    ensures name == "json_field_equals" && PathParam(params, "path").Success?
            && "pointer" in params && "expected" in params ==>
      var d := ws.document(params["path"].s);
      PathCheck(ws, name, params)
        == Success(if params["pointer"].JStr?
                   then Verify.JsonFieldEquals(d.found, d.parsed, params["pointer"].s, params["expected"]).status
                   else Verify.Fail)
    ensures name == "dir_contains" && PathParam(params, "path").Success?
            && NumericValue(Get(params, "min_files", JNum(1.0))).Some? ==>
      var l := ws.listing(params["path"].s);
      var minFiles := NumericValue(Get(params, "min_files", JNum(1.0)));
      PathCheck(ws, name, params) == Success(Verify.DirContains(l.present, l.isDir, l.entries, minFiles.value))
    ensures name == "file_glob_exists" && PathParam(params, "root").Success? && "pattern" in params ==>
      var g := ws.glob(params["root"].s, params["pattern"]);
      PathCheck(ws, name, params) == if g.Success? then Success(Verify.FileGlobExists(g.value)) else Failure(g.error)
  {
  }

  /**
   * `_run_one_check`: `noop` passes, the command and path checks are
   * dispatched to their verifiers, and any other name is SKIPPED.
   */
  function RunOneCheck(ws: Workspace, v: VerifySpec): (r: Result<Verify.Status, string>)
    ensures v.name == "noop" ==> r == Success(Verify.Pass)
    ensures v.name != "noop" && v.name !in KnownChecks ==> r == Success(Verify.Skipped)
    ensures r == Success(Verify.Pass) ==> v.name == "noop" || v.name in KnownChecks
    ensures r.Failure? ==> v.name in KnownChecks
    ensures v.name in CommandChecks ==> r == CommandCheck(ws, v.name, v.params)
    ensures v.name in PathChecks ==> r == PathCheck(ws, v.name, v.params)
  {
    if v.name == "noop" then Success(Verify.Pass)
    else if v.name in CommandChecks then CommandCheck(ws, v.name, v.params)
    else if v.name in PathChecks then PathCheck(ws, v.name, v.params)
    else Success(Verify.Skipped)
  }

  /**
   * The checks a step runs: `_verify_all` takes the `verify_all` list of a
   * dictionary, but an argument's verify field is always a VerifySpec, so
   * it is that one check.
   */
  function Verifiers(v: VerifySpec): seq<VerifySpec> {
    [v]
  }

  /** The verdict on a list of checks: the first check that does not pass decides, and a raised check raises. */
  function VerifyAllSpec(ws: Workspace, vs: seq<VerifySpec>): (r: Result<bool, string>)
    ensures r == Success(true) <==> forall k | 0 <= k < |vs| :: RunOneCheck(ws, vs[k]) == Success(Verify.Pass)
  {
    if vs == [] then Success(true)
    else
      match RunOneCheck(ws, vs[0])
      case Failure(m) => Failure(m)
      case Success(st) =>
        if st != Verify.Pass then Success(false)
        else
          var rest := VerifyAllSpec(ws, vs[1..]);
          assert forall k | 1 <= k < |vs| :: vs[k] == vs[1..][k - 1];
          rest
  }

  /** A check with an unknown name is SKIPPED, which fails the step. */
  lemma SkippedFails(ws: Workspace, v: VerifySpec)
    requires v.name != "noop" && v.name !in KnownChecks
    ensures VerifyAllSpec(ws, Verifiers(v)) == Success(false)
  {
  }

  /**
   * `_verify_all`: run the checks in order and stop at the first whose
   * status is not PASS; `ran` is how many checks ran.
   */
  method VerifyAll(ws: Workspace, vs: seq<VerifySpec>) returns (r: Result<bool, string>, ran: nat)
    ensures r == VerifyAllSpec(ws, vs)
    ensures ran <= |vs|
    ensures forall k | 0 <= k < ran - 1 :: RunOneCheck(ws, vs[k]) == Success(Verify.Pass)
    ensures r == Success(true) ==> ran == |vs|
    ensures r != Success(true) ==> ran >= 1 && RunOneCheck(ws, vs[ran - 1]) != Success(Verify.Pass)
  {
    ran := 0;
    while ran < |vs|
      invariant ran <= |vs|
      invariant forall k | 0 <= k < ran :: RunOneCheck(ws, vs[k]) == Success(Verify.Pass)
      invariant VerifyAllSpec(ws, vs[ran..]) == VerifyAllSpec(ws, vs)
      decreases |vs| - ran
    {
      var vr := RunOneCheck(ws, vs[ran]);
      assert vs[ran..][1..] == vs[ran + 1..];
      ran := ran + 1;
      if vr.Failure? {
        return Failure(vr.error), ran;
      }
      if vr.value != Verify.Pass {
        return Success(false), ran;
      }
    }
    return Success(true), ran;
  }
}
