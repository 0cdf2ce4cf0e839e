/**
 * The verifier library. The polling verifiers sample a metric (or the
 * file system) at t = 0, dt, 2*dt, ... while t <= timeout, advancing the
 * plant by `dt` between samples, and pass at the first good sample. The
 * world they look at is an input: `sample(k)` is what the k-th reading
 * returns, after k advances. Process runs, file contents and directory
 * listings are inputs in the same way.
 */
module Verify {
  import opened Wrappers
  import opened PyStr
  import opened Json

  datatype Status = Pass | Fail | Skipped

  /** What a polling verifier reports: verdict, readings in order, elapsed time, plant advances made. */
  datatype PollResult<T> = PollResult(passed: bool, history: seq<T>, elapsedS: real, steps: nat)

  /**
   * The polling contract: the readings are samples 0, 1, ... each taken at
   * a time within the timeout; a pass stops at the first good reading, at
   * its own time; a failure saw no good reading and stopped at the first
   * time past the timeout.
   */
  ghost predicate PollSpec<T>(sample: nat -> T, ok: T -> bool, timeout: real, dt: real, res: PollResult<T>) {
    var h := res.history;
    (forall k | 0 <= k < |h| :: h[k] == sample(k) && k as real * dt <= timeout)
    && (res.passed ==>
          |h| > 0 && ok(h[|h| - 1]) && (forall k | 0 <= k < |h| - 1 :: !ok(h[k]))
          && res.elapsedS == (|h| - 1) as real * dt && res.steps == |h| - 1)
    && (!res.passed ==>
          (forall k | 0 <= k < |h| :: !ok(h[k]))
          && res.elapsedS == |h| as real * dt && res.elapsedS > timeout && res.steps == |h|)
  }

  /** Number of sample times `k * dt` that lie within the timeout. */
  function SampleBound(timeout: real, dt: real): nat
    requires dt > 0.0
  {
    if timeout < 0.0 then 0 else (timeout / dt).Floor + 1
  }

  lemma WithinBound(k: nat, timeout: real, dt: real)
    requires dt > 0.0 && k as real * dt <= timeout
    ensures k < SampleBound(timeout, dt)
  {
    assert k as real <= timeout / dt;
  }

  /** The polling loop shared by the four polling verifiers. */
  method Poll<T>(sample: nat -> T, ok: T -> bool, timeout: real, dt: real) returns (res: PollResult<T>)
    requires dt > 0.0
    ensures PollSpec(sample, ok, timeout, dt, res)
  {
    var t: real := 0.0;
    var k: nat := 0;
    var history: seq<T> := [];
    while t <= timeout
      invariant t == k as real * dt
      invariant |history| == k
      invariant forall i | 0 <= i < k :: history[i] == sample(i) && !ok(history[i]) && i as real * dt <= timeout
      decreases SampleBound(timeout, dt) - k
    {
      WithinBound(k, timeout, dt);
      var v := sample(k);
      history := history + [v];
      if ok(v) {
        return PollResult(true, history, t, k);
      }
      t := t + dt;
      k := k + 1;
    }
    return PollResult(false, history, t, k);
  }

  lemma MulMonotone(a: nat, b: nat, dt: real)
    requires dt > 0.0 && a <= b
    ensures a as real * dt <= b as real * dt
  {
  }

  /** A poll passes exactly when some sample time within the timeout shows a good reading. */
  lemma PollPassIff<T>(sample: nat -> T, ok: T -> bool, timeout: real, dt: real, res: PollResult<T>)
    requires dt > 0.0 && PollSpec(sample, ok, timeout, dt, res)
    ensures res.passed <==> exists k: nat :: k as real * dt <= timeout && ok(sample(k))
  {
    var h := res.history;
    if res.passed {
      var k: nat := |h| - 1;
      assert k as real * dt <= timeout && ok(sample(k));
    } else {
      forall k: nat | k as real * dt <= timeout
        ensures !ok(sample(k))
      {
        if k >= |h| {
          MulMonotone(|h|, k, dt);
          assert false;
        }
        assert h[k] == sample(k);
      }
    }
  }

  /** The sample taken exactly at t == timeout still counts. */
  lemma BoundaryCounts<T>(sample: nat -> T, ok: T -> bool, timeout: real, dt: real, res: PollResult<T>, k: nat)
    requires dt > 0.0 && PollSpec(sample, ok, timeout, dt, res)
    requires k as real * dt == timeout && ok(sample(k))
    ensures res.passed && res.elapsedS <= timeout
  {
    PollPassIff(sample, ok, timeout, dt, res);
  }

  /** `file_exists`: poll for the path to appear; `present(k)` is whether it exists at the k-th look. */
  method FileExists(present: nat -> bool, timeout: real, dt: real) returns (res: PollResult<bool>)
    requires dt > 0.0
    ensures PollSpec(present, b => b, timeout, dt, res)
    ensures res.passed <==> exists k: nat :: k as real * dt <= timeout && present(k)
  {
    res := Poll(present, b => b, timeout, dt);
    PollPassIff(present, b => b, timeout, dt, res);
  }

  /** `file_hash_equal`: `digest(k)` is the file's SHA-256 at the k-th look, `None` while it is absent. */
  method FileHashEqual(digest: nat -> Option<string>, expected: string, timeout: real, dt: real)
    returns (res: PollResult<Option<string>>)
    requires dt > 0.0
    ensures PollSpec(digest, d => d == Some(expected), timeout, dt, res)
    ensures res.passed <==> exists k: nat :: k as real * dt <= timeout && digest(k) == Some(expected)
  {
    res := Poll(digest, d => d == Some(expected), timeout, dt);
    PollPassIff(digest, d => d == Some(expected), timeout, dt, res);
  }

  function Abs(x: real): real {
    if x < 0.0 then -x else x
  }

  /** `in_band`'s acceptance test: within `tol` of `target`. */
  function InBandOk(target: real, tol: real): real -> bool {
    x => Abs(x - target) <= tol
  }

  /** `reach_threshold`'s acceptance test; a direction other than "down"/"up" accepts nothing. */
  function ThresholdOk(target: real, direction: string): real -> bool {
    x => (direction == "down" && x <= target) || (direction == "up" && x >= target)
  }

  /** `in_band`: poll until the metric is within `tol` of `target`. */
  method InBand(metric: nat -> real, target: real, tol: real, timeout: real, dt: real)
    returns (res: PollResult<real>)
    requires dt > 0.0
    ensures PollSpec(metric, InBandOk(target, tol), timeout, dt, res)
    ensures res.passed <==> exists k: nat :: k as real * dt <= timeout && Abs(metric(k) - target) <= tol
  {
    res := Poll(metric, InBandOk(target, tol), timeout, dt);
    PollPassIff(metric, InBandOk(target, tol), timeout, dt, res);
  }

  /** `reach_threshold`: poll until the metric is at or below ("down") / above ("up") `target`. */
  method ReachThreshold(metric: nat -> real, target: real, direction: string, timeout: real, dt: real)
    returns (res: PollResult<real>)
    requires dt > 0.0
    ensures PollSpec(metric, ThresholdOk(target, direction), timeout, dt, res)
    ensures res.passed <==> (exists k: nat ::
      k as real * dt <= timeout && ((direction == "down" && metric(k) <= target) || (direction == "up" && metric(k) >= target)))
    ensures direction != "down" && direction != "up" ==> !res.passed
  {
    res := Poll(metric, ThresholdOk(target, direction), timeout, dt);
    PollPassIff(metric, ThresholdOk(target, direction), timeout, dt, res);
  }

  /** How a child process ended, as `subprocess.run` reports it. */
  datatype ProcOutcome =
    | Completed(returncode: int, stdout: string, stderr: string)
    | TimedOut
    | Raised(message: string)

  /**
   * `proc_exitcode_ok`: PASS iff the process exited 0; a timeout is a FAIL;
   * any other exception (a missing executable, say) propagates.
   */
  function ProcExitcodeOk(outcome: ProcOutcome): (r: Result<Status, string>)
    ensures r == Success(Pass) <==> outcome.Completed? && outcome.returncode == 0
    ensures r.Failure? <==> outcome.Raised?
    ensures r.Success? ==> r.value != Skipped
  {
    match outcome
    case Completed(rc, _, _) => Success(if rc == 0 then Pass else Fail)
    case TimedOut => Success(Fail)
    case Raised(msg) => Failure(msg)
  }

  /** `stdout_contains`: exit 0 and the text occurs in stdout; any exception is a FAIL. */
  function StdoutContains(outcome: ProcOutcome, mustInclude: string): (r: Status)
    ensures r == Pass <==> outcome.Completed? && outcome.returncode == 0 && Contains(outcome.stdout, mustInclude)
    ensures r != Skipped
  {
    if outcome.Completed? && outcome.returncode == 0 && Contains(outcome.stdout, mustInclude) then Pass else Fail
  }

  /** With the default empty text only the exit code matters. */
  lemma EmptyNeedle(outcome: ProcOutcome)
    ensures StdoutContains(outcome, "") == Pass <==> outcome.Completed? && outcome.returncode == 0
  {
    if outcome.Completed? {
      assert OccursAt(outcome.stdout, "", 0);
    }
  }

  /** `stdout_regex`: exit 0 and the pattern matches; `searchHit` is the regex engine's answer. */
  function StdoutRegex(outcome: ProcOutcome, searchHit: bool): (r: Status)
    ensures r == Pass <==> outcome.Completed? && outcome.returncode == 0 && searchHit
    ensures r != Skipped
  {
    if outcome.Completed? && outcome.returncode == 0 && searchHit then Pass else Fail
  }

  /** The pointer's path segments: split on "/", empty segments dropped. */
  function PointerTokens(pointer: string): (r: seq<string>)
    ensures forall t | t in r :: t != [] && t in Split(pointer, "/")
    ensures forall t | t in Split(pointer, "/") && t != [] :: t in r
  {
    NonEmpty(Split(pointer, "/"))
  }

  function NonEmpty(parts: seq<string>): (r: seq<string>)
    ensures forall t | t in r :: t != [] && t in parts
    ensures forall t | t in parts && t != [] :: t in r
  {
    if parts == [] then []
    else (if parts[0] != [] then [parts[0]] else []) + NonEmpty(parts[1..])
  }

  /** Python's `xs[i]`: negative indices count from the end; out of range is an `IndexError`. */
  function PyIndex(xs: seq<Json>, i: int): (r: Option<Json>)
    ensures r.Some? <==> -|xs| <= i < |xs|
    ensures r.Some? && i >= 0 ==> r.value == xs[i]
    ensures r.Some? && i < 0 ==> r.value == xs[|xs| + i]
  {
    if 0 <= i < |xs| then Some(xs[i])
    else if -|xs| <= i < 0 then Some(xs[|xs| + i])
    else None
  }

  /**
   * Walk the decoded document: a list is indexed by `int(token)`, anything
   * else is read with `.get(token)`, which yields `None` (`JNull`) for a
   * missing key and raises on a value that is not a dict.
   */
  function Walk(cur: Json, tokens: seq<string>): (r: Result<Json, string>)
    decreases |tokens|
  {
    if tokens == [] then Success(cur)
    else match cur
      case JArr(xs) =>
        (match ParseInt(tokens[0])
         case None => Failure("invalid literal for int()")
         case Some(i) =>
           match PyIndex(xs, i)
           case None => Failure("list index out of range")
           case Some(v) => Walk(v, tokens[1..]))
      case JObj(m) => Walk(if tokens[0] in m then m[tokens[0]] else JNull, tokens[1..])
      case _ => Failure("object has no attribute 'get'")
  }

  /** A missing last key reads as `None` rather than failing. */
  lemma WalkMissingKey(m: map<string, Json>, key: string)
    requires key !in m
    ensures Walk(JObj(m), [key]) == Success(JNull)
  {
  }

  /** `"-1"` selects the last element of a non-empty list. */
  lemma WalkLastElement(xs: seq<Json>)
    requires xs != []
    ensures Walk(JArr(xs), ["-1"]) == Success(xs[|xs| - 1])
  {
    assert DigitsValue("1") == 1 by {
      assert "1"[..0] == "";
    }
    ParseNegative("-1", "1");
  }

  /** A `None` reached before the last token fails the walk. */
  lemma WalkThroughNull(tokens: seq<string>)
    requires tokens != []
    ensures Walk(JNull, tokens).Failure?
  {
  }

  datatype FieldCheck = FieldCheck(status: Status, error: Option<string>, actual: Option<Json>)

  /**
   * `json_field_equals`: FAIL with "file_missing" when the file is absent;
   * otherwise PASS iff the file parses (`parsed` is what `json.loads`
   * gives), the walk succeeds, and the value reached equals `expected`
   * under Python's `==`. Every exception on the way is a FAIL.
   */
  function JsonFieldEquals(fileExists: bool, parsed: Result<Json, string>, pointer: string, expected: Json)
    : (r: FieldCheck)
    ensures !fileExists ==> r == FieldCheck(Fail, Some("file_missing"), None)
    ensures r.status != Skipped
    ensures r.status == Pass <==> (fileExists && parsed.Success?
      && Walk(parsed.value, PointerTokens(pointer)).Success?
      && PyEq(Walk(parsed.value, PointerTokens(pointer)).value, expected))
    ensures r.error.Some? <==> (!fileExists || parsed.Failure? || Walk(parsed.value, PointerTokens(pointer)).Failure?)
  {
    if !fileExists then FieldCheck(Fail, Some("file_missing"), None)
    else match parsed
      case Failure(e) => FieldCheck(Fail, Some(e), None)
      case Success(data) =>
        match Walk(data, PointerTokens(pointer))
        case Failure(e) => FieldCheck(Fail, Some(e), None)
        case Success(cur) => FieldCheck(if PyEq(cur, expected) then Pass else Fail, None, Some(cur))
  }

  /** Expecting `null` at an absent key passes. */
  lemma MissingKeyEqualsNull(m: map<string, Json>, key: string)
    requires key !in m && key != [] && !Contains(key, "/")
    ensures JsonFieldEquals(true, Success(JObj(m)), "/" + key, JNull).status == Pass
  {
    var p := "/" + key;
    assert OccursAt(p, "/", 0);
    assert p[1..] == key;
    assert Split(key, "/") == [key];
    var parts: seq<string> := [[], key];
    assert Split(p, "/") == parts;
    assert parts[1..] == [key] && [key][1..] == [];
    assert NonEmpty([key]) == [key];
    assert NonEmpty(parts) == NonEmpty([key]);
    assert PointerTokens(p) == [key];
    WalkMissingKey(m, key);
  }

  /**
   * `dir_contains`: the path is an existing directory with at least
   * `minFiles` entries (any number compares with the count).
   */
  function DirContains(present: bool, isDir: bool, entries: nat, minFiles: real): (r: Status)
    ensures r == Pass <==> present && isDir && entries as real >= minFiles
    ensures r != Skipped
  {
    if present && isDir && entries as real >= minFiles then Pass else Fail
  }

  /** Asking for fewer entries never turns a pass into a failure. */
  lemma DirContainsAntitone(present: bool, isDir: bool, entries: nat, fewer: real, more: real)
    requires fewer <= more && DirContains(present, isDir, entries, more) == Pass
    ensures DirContains(present, isDir, entries, fewer) == Pass
  {
  }

  /** With `min_files` at most 0 the check only asks for an existing directory. */
  lemma DirContainsNoMinimum(present: bool, isDir: bool, entries: nat, minFiles: real)
    requires minFiles <= 0.0
    ensures DirContains(present, isDir, entries, minFiles) == Pass <==> present && isDir
  {
  }

  /** `file_glob_exists`: PASS iff the glob yields at least one path. */
  function FileGlobExists(matches: nat): (r: Status)
    ensures r == Pass <==> matches > 0
    ensures r != Skipped
  {
    if matches > 0 then Pass else Fail
  }
}
