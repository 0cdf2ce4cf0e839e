/**
 * Getting a JSON value out of noisy language-model output: a control
 * character filter, a bracket scanner that knows about string literals and
 * escapes, the three-stage extraction (whole text, fenced block, scan), and
 * the check that the value holds an argument list.
 *
 * The JSON parser and the fenced-block search are library code; they enter
 * as oracle functions `parse` (None when the parser raises) and `fence`
 * (the fenced block's body, or None when there is no fence).
 */
module LlmUtils {
  import opened Wrappers
  import opened PyStr
  import opened Json

  /** The C0 controls the filter removes: everything below a space except tab, LF and CR. */
  predicate IsStrippedControl(c: char) {
    c < ' ' && c != '\t' && c != '\n' && c != '\r'
  }

  /** `_strip_control_chars`: drop the stripped controls, keep everything else in order. */
  function StripControlChars(s: string): (r: string)
    ensures |r| <= |s|
    ensures forall i | 0 <= i < |r| :: !IsStrippedControl(r[i])
  {
    if s == [] then []
    else if IsStrippedControl(s[0]) then StripControlChars(s[1..])
    else [s[0]] + StripControlChars(s[1..])
  }

  /** Every character the filter keeps occurs in the result exactly as often as in the input. */
  lemma {:induction false} StripControlCounts(s: string, c: char)
    requires !IsStrippedControl(c)
    ensures multiset(StripControlChars(s))[c] == multiset(s)[c]
  {
    if s != [] {
      StripControlCounts(s[1..], c);
      assert s == [s[0]] + s[1..];
    }
  }

  /** The filter distributes over concatenation. */
  lemma {:induction false} StripControlAppend(a: string, b: string)
    ensures StripControlChars(a + b) == StripControlChars(a) + StripControlChars(b)
  {
    if a == [] {
      assert a + b == b;
    } else {
      assert (a + b)[0] == a[0];
      assert (a + b)[1..] == a[1..] + b;
      StripControlAppend(a[1..], b);
    }
  }

  /** Text free of stripped controls passes unchanged. */
  lemma {:induction false} StripControlClean(s: string)
    requires forall i | 0 <= i < |s| :: !IsStrippedControl(s[i])
    ensures StripControlChars(s) == s
  {
    if s != [] {
      StripControlClean(s[1..]);
    }
  }

  /** Filtering twice is filtering once. */
  lemma StripControlIdempotent(s: string)
    ensures StripControlChars(StripControlChars(s)) == StripControlChars(s)
  {
    StripControlClean(StripControlChars(s));
  }

  // ---------------------------------------------------------------------
  // The balanced-bracket scanner.

  /** The scanner's registers: the open brackets, inside a string literal, just after a backslash. */
  datatype ScanState = ScanState(stack: seq<char>, inStr: bool, esc: bool)

  /** What reading one character does: carry on, close the outermost bracket, or raise. */
  datatype ScanStep = Continue(next: ScanState) | Close | Raise(message: string)

  const Unbalanced := "Unbalanced JSON"
  const Mismatched := "Mismatched JSON brackets"
  const NoBalanced := "No balanced JSON found"

  predicate IsOpener(c: char) { c == '{' || c == '[' }
  predicate IsCloser(c: char) { c == '}' || c == ']' }

  /** The closer that matches an opener. */
  function Partner(open: char): char {
    if open == '{' then '}' else ']'
  }

  /** One character of the scan. */
  function Feed(st: ScanState, ch: char): ScanStep {
    if st.inStr then
      if st.esc then Continue(st.(esc := false))
      else if ch == '\\' then Continue(st.(esc := true))
      else if ch == '"' then Continue(st.(inStr := false))
      else Continue(st)
    else if ch == '"' then Continue(st.(inStr := true))
    else if IsOpener(ch) then Continue(st.(stack := st.stack + [ch]))
    else if IsCloser(ch) then
      if st.stack == [] then Raise(Unbalanced)
      else if Partner(st.stack[|st.stack| - 1]) != ch then Raise(Mismatched)
      else if |st.stack| == 1 then Close
      else Continue(st.(stack := st.stack[..|st.stack| - 1]))
    else Continue(st)
  }

  /** The scan from position `i` on, in state `st`, of a value that began at `start`. */
  function RunFrom(s: string, start: nat, i: nat, st: ScanState): Result<string, string>
    requires start <= i
    decreases |s| - i
  {
    if i >= |s| then Failure(NoBalanced)
    else
      match Feed(st, s[i])
      case Raise(m) => Failure(m)
      case Close => Success(s[start..i + 1])
      case Continue(next) => RunFrom(s, start, i + 1, next)
  }

  /** What `_scan_balanced(s, start)` returns or raises. */
  function ScanSpec(s: string, start: nat): Result<string, string> {
    RunFrom(s, start, start, ScanState([], false, false))
  }

  /** `_scan_balanced`. */
  method ScanBalanced(s: string, start: nat) returns (r: Result<string, string>)
    ensures r == ScanSpec(s, start)
  {
    var stack: seq<char> := [];
    var i := start;
    var inStr := false;
    var esc := false;
    while i < |s|
      invariant start <= i
      invariant forall k | 0 <= k < |stack| :: IsOpener(stack[k])
      invariant RunFrom(s, start, i, ScanState(stack, inStr, esc)) == ScanSpec(s, start)
      decreases |s| - i
    {
      var ch := s[i];
      if inStr {
        if esc {
          esc := false;
        } else if ch == '\\' {
          esc := true;
        } else if ch == '"' {
          inStr := false;
        }
      } else {
        if ch == '"' {
          inStr := true;
        } else if ch == '{' || ch == '[' {
          stack := stack + [ch];
        } else if ch == '}' || ch == ']' {
          if stack == [] {
            return Failure(Unbalanced);
          }
          var top := stack[|stack| - 1];
          stack := stack[..|stack| - 1];
          if (top == '{' && ch != '}') || (top == '[' && ch != ']') {
            return Failure(Mismatched);
          }
          if stack == [] {
            return Success(s[start..i + 1]);
          }
        }
      }
      i := i + 1;
    }
    return Failure(NoBalanced);
  }

  /** A successful scan returns a slice that starts at `start` and ends on a closing bracket past `i`. */
  lemma {:induction false} RunFromSlice(s: string, start: nat, i: nat, st: ScanState)
    requires start <= i
    requires RunFrom(s, start, i, st).Success?
    ensures var v := RunFrom(s, start, i, st).value;
      i < start + |v| <= |s| && v == s[start..start + |v|] && IsCloser(v[|v| - 1])
    decreases |s| - i
  {
    match Feed(st, s[i])
    case Raise(_) =>
    case Close =>
    case Continue(next) => RunFromSlice(s, start, i + 1, next);
  }

  /**
   * Once the bottom of the stack is `open`, a successful scan ends on the
   * closer matching it.
   */
  lemma {:induction false} RunFromMatches(s: string, start: nat, i: nat, st: ScanState, open: char)
    requires start <= i
    requires st.stack != [] && st.stack[0] == open
    requires RunFrom(s, start, i, st).Success?
    ensures var v := RunFrom(s, start, i, st).value; v != [] && v[|v| - 1] == Partner(open)
    decreases |s| - i
  {
    match Feed(st, s[i])
    case Raise(_) =>
    case Close =>
    case Continue(next) =>
      assert next.stack != [] && next.stack[0] == open;
      RunFromMatches(s, start, i + 1, next, open);
  }

  /**
   * Scanning from an opening bracket either fails or returns the text from
   * that bracket up to and including its matching closer.
   */
  lemma ScanFromOpener(s: string, start: nat)
    requires start < |s| && IsOpener(s[start])
    requires ScanSpec(s, start).Success?
    ensures var v := ScanSpec(s, start).value;
      |v| >= 2 && start + |v| <= |s| && v == s[start..start + |v|] && v[|v| - 1] == Partner(s[start])
  {
    var st := ScanState([s[start]], false, false);
    assert Feed(ScanState([], false, false), s[start]) == Continue(st);
    RunFromMatches(s, start, start + 1, st, s[start]);
    RunFromSlice(s, start, start + 1, st);
  }

  /** A closer where the scan starts raises "Unbalanced JSON"; starting at the end finds nothing. */
  lemma ScanErrors(s: string, start: nat)
    ensures start < |s| && IsCloser(s[start]) ==> ScanSpec(s, start) == Failure(Unbalanced)
    ensures start >= |s| ==> ScanSpec(s, start) == Failure(NoBalanced)
  {
  }

  /** The scan of the returned slice replays the scan of the whole text at the same offsets. */
  lemma {:induction false} RunFromReplay(s: string, start: nat, i: nat, end: nat, st: ScanState)
    requires start <= i <= end < |s|
    requires RunFrom(s, start, i, st) == Success(s[start..end + 1])
    ensures RunFrom(s[start..end + 1], 0, i - start, st) == Success(s[start..end + 1])
    decreases |s| - i
  {
    var v := s[start..end + 1];
    assert v[i - start] == s[i];
    match Feed(st, s[i])
    case Raise(_) =>
    case Close =>
      assert v[0..i - start + 1] == s[start..i + 1];
    case Continue(next) =>
      if i == end {
        RunFromSlice(s, start, i + 1, next);
        assert false;
      }
      RunFromReplay(s, start, i + 1, end, next);
  }

  /** The returned value scans to itself: one complete bracketed value with nothing after it. */
  lemma ScanIsClosed(s: string, start: nat)
    requires ScanSpec(s, start).Success?
    ensures ScanSpec(ScanSpec(s, start).value, 0) == ScanSpec(s, start)
  {
    var v := ScanSpec(s, start).value;
    RunFromSlice(s, start, start, ScanState([], false, false));
    RunFromReplay(s, start, start, start + |v| - 1, ScanState([], false, false));
  }

  /** Brackets inside a string literal are ignored. */
  lemma StringsAreSkipped()
    ensures ScanSpec("{\"}\"}", 0) == Success("{\"}\"}")
  {
    var s := "{\"}\"}";
    assert s[4] == '}' && s[0..5] == s;
    assert Feed(ScanState(['{'], false, false), '}') == Close;
    assert RunFrom(s, 0, 4, ScanState(['{'], false, false)) == Success(s);
    assert RunFrom(s, 0, 3, ScanState(['{'], true, false)) == Success(s);
    assert RunFrom(s, 0, 2, ScanState(['{'], true, false)) == Success(s);
    assert RunFrom(s, 0, 1, ScanState(['{'], false, false)) == Success(s);
  }

  /** A backslash inside a literal escapes the next character, a quote included. */
  lemma EscapedQuoteIsSkipped()
    ensures ScanSpec("[\"\\\"]\"]", 0) == Success("[\"\\\"]\"]")
  {
    var s := "[\"\\\"]\"]";
    assert s[6] == ']' && s[0..7] == s;
    assert Feed(ScanState(['['], false, false), ']') == Close;
    assert RunFrom(s, 0, 6, ScanState(['['], false, false)) == Success(s);
    assert RunFrom(s, 0, 5, ScanState(['['], true, false)) == Success(s);
    assert RunFrom(s, 0, 4, ScanState(['['], true, false)) == Success(s);
    assert RunFrom(s, 0, 3, ScanState(['['], true, true)) == Success(s);
    assert RunFrom(s, 0, 2, ScanState(['['], true, false)) == Success(s);
    assert RunFrom(s, 0, 1, ScanState(['['], false, false)) == Success(s);
  }

  /** A closer of the wrong kind raises "Mismatched JSON brackets". */
  lemma MismatchRaises()
    ensures ScanSpec("{]", 0) == Failure(Mismatched)
  {
    assert RunFrom("{]", 0, 1, ScanState(['{'], false, false)) == Failure(Mismatched);
  }

  // ---------------------------------------------------------------------
  // Extraction.

  const NoJson := "No JSON object/array found in LLM output"
  /** The error a failing `json.loads` raises, whatever its message. */
  const DecodeError := "JSONDecodeError"

  /** `json.loads(_strip_control_chars(blob))` as a result. */
  function ParseClean(parse: string -> Option<Json>, blob: string): Result<Json, string> {
    match parse(StripControlChars(blob))
    case Some(v) => Success(v)
    case None => Failure(DecodeError)
  }

  /** Scan from `k`, then parse what the scan returned. */
  function ScanAndParse(parse: string -> Option<Json>, text: string, k: nat): Result<Json, string> {
    match ScanSpec(text, k)
    case Success(blob) => ParseClean(parse, blob)
    case Failure(m) => Failure(m)
  }

  /** The scanner stage on `text`: from the first `{`, or from the first `[` when no `{` occurs. */
  function ScanStage(parse: string -> Option<Json>, text: string): Result<Json, string> {
    match FindFrom(text, "{", 0)
    case Some(k) => ScanAndParse(parse, text, k)
    case None =>
      match FindFrom(text, "[", 0)
      case Some(k) => ScanAndParse(parse, text, k)
      case None => Failure(NoJson)
  }

  /**
   * `extract_json_block`: the whole text if it parses; otherwise the fenced
   * block if there is one and it parses; otherwise the scanner stage on the
   * fenced block's body (when there was a fence) or on the whole text.
   */
  method ExtractJsonBlock(parse: string -> Option<Json>, fence: string -> Option<string>, text: string)
    returns (r: Result<Json, string>)
    ensures parse(StripControlChars(text)).Some? ==> r == Success(parse(StripControlChars(text)).value)
    ensures parse(StripControlChars(text)).None? && fence(text).Some?
      && parse(StripControlChars(fence(text).value)).Some?
      ==> r == Success(parse(StripControlChars(fence(text).value)).value)
    ensures parse(StripControlChars(text)).None? && fence(text).Some?
      && parse(StripControlChars(fence(text).value)).None?
      ==> r == ScanStage(parse, StripControlChars(fence(text).value))
    ensures parse(StripControlChars(text)).None? && fence(text).None? ==> r == ScanStage(parse, text)
  {
    var whole := parse(StripControlChars(text));
    if whole.Some? {
      return Success(whole.value);
    }
    var t := text;
    var m := fence(text);
    if m.Some? {
      var inner := StripControlChars(m.value);
      var v := parse(inner);
      if v.Some? {
        return Success(v.value);
      }
      t := inner;
    }
    r := ScanStageRun(parse, t);
  }

  /** The scanner stage: try `{`, then `[`, scanning from the first occurrence of the first that occurs. */
  method ScanStageRun(parse: string -> Option<Json>, text: string) returns (r: Result<Json, string>)
    ensures r == ScanStage(parse, text)
  {
    var pats := ["{", "["];
    assert pats[0] == "{" && pats[1] == "[";
    for p := 0 to 2
      invariant p >= 1 ==> FindFrom(text, "{", 0).None?
      invariant p == 2 ==> FindFrom(text, "[", 0).None?
    {
      var found := FindFrom(text, pats[p], 0);
      if found.Some? {
        var scanned := ScanBalanced(text, found.value);
        assert ScanStage(parse, text) == ScanAndParse(parse, text, found.value);
        if scanned.Failure? {
          return Failure(scanned.error);
        }
        return ParseClean(parse, scanned.value);
      }
    }
    return Failure(NoJson);
  }

  /** A `{` anywhere wins over an earlier `[`: the scan starts at the brace. */
  lemma BraceBeforeBracket(parse: string -> Option<Json>)
    ensures ScanStage(parse, "[1] {}") == ParseClean(parse, "{}")
  {
    var text := "[1] {}";
    assert OccursAt(text, "{", 4);
    forall j | 0 <= j < 4
      ensures !OccursAt(text, "{", j)
    {
      assert text[j..j + 1][0] == text[j] != '{';
    }
    assert FindFrom(text, "{", 0) == Some(4);
    assert text[5] == '}' && text[4..6] == "{}";
    assert Feed(ScanState(['{'], false, false), '}') == Close;
    assert RunFrom(text, 4, 5, ScanState(['{'], false, false)) == Success("{}");
  }

  /** Text with no bracket at all gives the "no JSON" error once parsing and the fence have failed. */
  lemma NoBracketNoJson(parse: string -> Option<Json>, text: string)
    requires forall i | 0 <= i < |text| :: !IsOpener(text[i])
    ensures ScanStage(parse, text) == Failure(NoJson)
  {
  }

  // ---------------------------------------------------------------------

  const NotArguments := "JSON did not contain an arguments list"

  /** `normalize_to_arguments`: a list as it is, or the list under "arguments" of an object. */
  function NormalizeToArguments(obj: Json): (r: Result<seq<Json>, string>)
    ensures obj.JArr? ==> r == Success(obj.arr)
    ensures obj.JObj? && "arguments" in obj.obj && obj.obj["arguments"].JArr?
      ==> r == Success(obj.obj["arguments"].arr)
    ensures r.Failure? <==> !obj.JArr? && !(obj.JObj? && "arguments" in obj.obj && obj.obj["arguments"].JArr?)
    ensures r.Failure? ==> r.error == NotArguments
  {
    if obj.JArr? then Success(obj.arr)
    else if obj.JObj? && "arguments" in obj.obj && obj.obj["arguments"].JArr? then Success(obj.obj["arguments"].arr)
    else Failure(NotArguments)
  }

  /** Normalising the normalised list again returns it unchanged. */
  lemma NormalizeIdempotent(obj: Json)
    requires NormalizeToArguments(obj).Success?
    ensures NormalizeToArguments(JArr(NormalizeToArguments(obj).value)) == NormalizeToArguments(obj)
  {
  }
}
