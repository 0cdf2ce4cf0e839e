/**
 * Ablation switches: the `ISL_ABLATION` environment variable selects
 * one of four modes. The environment is an explicit input here.
 */
module Ablation {
  import opened Wrappers
  import opened PyStr

  const Modes: set<string> := {"none", "no_af", "no_diag", "no_priority"}

  /**
   * The mode: the variable's value stripped and lower-cased when it names
   * a mode; "none" when it is unset or names anything else.
   */
  function GetAblation(env: Option<string>): (r: string)
    ensures r in Modes
    ensures env.None? ==> r == "none"
    ensures env.Some? ==> (r == Lower(Strip(env.value)) || (r == "none" && Lower(Strip(env.value)) !in Modes))
  {
    var v := if env.Some? then Lower(Strip(env.value)) else "none";
    if v !in Modes then "none" else v
  }

  predicate IsNoAf(env: Option<string>) {
    GetAblation(env) == "no_af"
  }

  predicate IsNoDiag(env: Option<string>) {
    GetAblation(env) == "no_diag"
  }

  predicate IsNoPriority(env: Option<string>) {
    GetAblation(env) == "no_priority"
  }

  /** At most one switch is on, and none is on in the default mode. */
  lemma SwitchesExclusive(env: Option<string>)
    ensures !(IsNoAf(env) && IsNoDiag(env)) && !(IsNoAf(env) && IsNoPriority(env))
    ensures !(IsNoDiag(env) && IsNoPriority(env))
    ensures GetAblation(env) == "none" <==> !IsNoAf(env) && !IsNoDiag(env) && !IsNoPriority(env)
  {
  }

  /** The three switches a run consults, read once at its start. */
  datatype Mode = Mode(noAf: bool, noDiag: bool, noPriority: bool)

  function ModeOf(env: Option<string>): (r: Mode)
    ensures r.noAf == IsNoAf(env) && r.noDiag == IsNoDiag(env) && r.noPriority == IsNoPriority(env)
    ensures !(r.noAf && r.noDiag) && !(r.noAf && r.noPriority) && !(r.noDiag && r.noPriority)
  {
    SwitchesExclusive(env);
    Mode(IsNoAf(env), IsNoDiag(env), IsNoPriority(env))
  }

  lemma LStripPadded()
    ensures LStrip("  NO_AF\n") == "NO_AF\n"
  {
    var padded, once, bare := "  NO_AF\n", " NO_AF\n", "NO_AF\n";
    assert !IsSpace(bare[0]) && LStrip(bare) == bare;
    assert once[0] == ' ' && once[1..] == bare;
    assert padded[0] == ' ' && padded[1..] == once;
  }

  lemma RStripNewline()
    ensures RStrip("NO_AF\n") == "NO_AF"
  {
    assert "NO_AF\n"[..5] == "NO_AF";
  }

  lemma StripPadded()
    ensures Strip("  NO_AF\n") == "NO_AF"
  {
    LStripPadded();
    RStripNewline();
  }

  lemma LowerUpper()
    ensures Lower("NO_AF") == "no_af"
  {
    var low := Lower("NO_AF");
    assert low[0] == 'n' && low[1] == 'o' && low[2] == '_' && low[3] == 'a' && low[4] == 'f';
  }

  /** A mode name is recognised whatever its case and surrounding whitespace. */
  lemma CaseAndSpaceTolerant()
    ensures GetAblation(Some("  NO_AF\n")) == "no_af"
  {
    StripPadded();
    LowerUpper();
  }

  /**
   * Any whitespace around a value, and the case of its letters, are
   * ignored: the mode is the lower-cased value whenever that names a mode.
   */
  lemma PaddingAndCaseIgnored(pre: string, v: string, post: string)
    requires forall k | 0 <= k < |pre| :: IsSpace(pre[k])
    requires forall k | 0 <= k < |post| :: IsSpace(post[k])
    requires v != [] && !IsSpace(v[0]) && !IsSpace(v[|v| - 1])
    requires Lower(v) in Modes
    ensures GetAblation(Some(pre + v + post)) == Lower(v)
  {
    StripPadding(pre, v, post);
  }

  /** A near miss such as "no-af" is not a mode, so nothing is switched off. */
  lemma NearMissIsNone()
    ensures GetAblation(Some("no-af")) == "none"
  {
    StripTrimmed("no-af");
    var low := Lower("no-af");
    assert low[2] == '-';
  }
}
