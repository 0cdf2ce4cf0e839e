/**
 * The multistep desktop demo's framework helpers: the language model's
 * attack list read into edges and reasons, its argument list keyed by id,
 * the merge of language-model and rule-based frameworks, the priority
 * filter that keeps the reasons of the surviving edges, and the diagnosis
 * argument built for a step whose check failed.
 */
module MultistepAf {
  import opened Wrappers
  import opened Json
  import opened Arguments
  import opened AfSolver

  /** The recorded reason of each attack that has one. */
  type Reasons = map<Edge, Json>

  /**
   * The edge a raw attack entry stands for: a list of at least two ids, or
   * a dictionary with `from` and `to`. Anything else is skipped.
   */
  function EntryEdge(e: Json): (r: Option<Edge>)
    ensures r.Some? ==> (e.JArr? && |e.arr| >= 2 && e.arr[0] == JStr(r.value.0) && e.arr[1] == JStr(r.value.1))
                        || (e.JObj? && "from" in e.obj && "to" in e.obj
                            && e.obj["from"] == JStr(r.value.0) && e.obj["to"] == JStr(r.value.1))
  {
    match e
    case JArr(xs) =>
      if |xs| >= 2 && xs[0].JStr? && xs[1].JStr? then Some((xs[0].s, xs[1].s)) else None
    case JObj(m) =>
      if "from" in m && "to" in m && m["from"].JStr? && m["to"].JStr? then Some((m["from"].s, m["to"].s)) else None
    case _ => None
  }

  const Unhashable := "TypeError: unhashable type"
  const PairTooShort := "IndexError: index out of range"
  const PairFromDict := "KeyError: 0"
  const NotSubscriptable := "TypeError: object is not subscriptable"

  /**
   * What reading one entry raises: a pair or a `from`/`to` dictionary
   * whose ends include a list or a dict cannot be added to the edge set.
   */
  function EntryError(e: Json): Option<string> {
    match e
    case JArr(xs) => if |xs| >= 2 && !(Hashable(xs[0]) && Hashable(xs[1])) then Some(Unhashable) else None
    case JObj(m) =>
      if "from" in m && "to" in m && !(Hashable(m["from"]) && Hashable(m["to"])) then Some(Unhashable) else None
    case _ => None
  }

  /**
   * What `(a[0], a[1])` raises on one entry when the demo collects the
   * attack pairs a second time: a list needs two hashable items and a
   * string two characters; a dictionary has no key 0, and a number, a
   * boolean or None cannot be indexed.
   */
  function PairError(e: Json): Option<string> {
    match e
    case JArr(xs) =>
      if |xs| < 2 then Some(PairTooShort)
      else if !(Hashable(xs[0]) && Hashable(xs[1])) then Some(Unhashable)
      else None
    case JStr(s) => if |s| < 2 then Some(PairTooShort) else None
    case JObj(_) => Some(PairFromDict)
    case _ => Some(NotSubscriptable)
  }

  /** The error of the first entry that raises, if any. */
  function FirstError(raw: seq<Json>, err: Json -> Option<string>): (r: Option<string>)
    ensures r.None? <==> forall i | 0 <= i < |raw| :: err(raw[i]).None?
    ensures r.Some? ==> exists i | 0 <= i < |raw| :: err(raw[i]) == r && forall j | 0 <= j < i :: err(raw[j]).None?
  {
    if raw == [] then None
    else if err(raw[0]).Some? then err(raw[0])
    else
      var rest := FirstError(raw[1..], err);
      assert forall i | 1 <= i < |raw| :: raw[i] == raw[1..][i - 1];
      if rest.Some? then
        var i :| 0 <= i < |raw[1..]| && err(raw[1..][i]) == rest && forall j | 0 <= j < i :: err(raw[1..][j]).None?;
        assert err(raw[i + 1]) == rest;
        rest
      else rest
  }

  /** The first entry that raises decides the error. */
  lemma {:induction false} FirstErrorAt(raw: seq<Json>, err: Json -> Option<string>, i: int)
    requires 0 <= i < |raw| && err(raw[i]).Some? && forall j | 0 <= j < i :: err(raw[j]).None?
    ensures FirstError(raw, err) == err(raw[i])
    decreases i
  {
    if i > 0 {
      assert raw[1..][i - 1] == raw[i];
      forall j | 0 <= j < i - 1
        ensures err(raw[1..][j]).None?
      {
        assert raw[1..][j] == raw[j + 1];
      }
      FirstErrorAt(raw[1..], err, i - 1);
    }
  }

  /** An entry the pair collection accepts was read without raising. */
  lemma PairReadClean(e: Json)
    requires PairError(e).None?
    ensures EntryError(e).None? && EntryReason(e).None?
  {
  }

  /**
   * Once every entry survives the pair collection, no entry is a
   * dictionary, so no attack carries a reason.
   */
  lemma {:induction false} PairsGiveNoReasons(raw: seq<Json>)
    requires FirstError(raw, PairError).None?
    ensures LlmReasons(raw) == map[]
  {
    if raw != [] {
      var init := raw[..|raw| - 1];
      forall i | 0 <= i < |init|
        ensures PairError(init[i]).None?
      {
        assert init[i] == raw[i];
      }
      PairsGiveNoReasons(init);
      PairReadClean(raw[|raw| - 1]);
    }
  }

  /** The reason a dictionary entry gives, when it gives a truthy one. */
  function EntryReason(e: Json): (r: Option<Json>)
    ensures r.Some? ==> e.JObj? && "reason" in e.obj && e.obj["reason"] == r.value && Truthy(r.value)
  {
    if e.JObj? && EntryEdge(e).Some? && "reason" in e.obj && Truthy(e.obj["reason"]) then Some(e.obj["reason"]) else None
  }

  /** The edge one entry adds, if any. */
  function AddEdge(edges: set<Edge>, entry: Json): (r: set<Edge>)
    ensures forall e :: e in r <==> e in edges || EntryEdge(entry) == Some(e)
  {
    if EntryEdge(entry).Some? then edges + {EntryEdge(entry).value} else edges
  }

  /** Every edge the raw attack list names, entry by entry. */
  function LlmEdges(raw: seq<Json>): (r: set<Edge>)
  {
    if raw == [] then {} else AddEdge(LlmEdges(raw[..|raw| - 1]), raw[|raw| - 1])
  }

  /** An edge is read exactly when some entry names it. */
  lemma {:induction false} EdgeSource(raw: seq<Json>, e: Edge) returns (i: int)
    requires e in LlmEdges(raw)
    ensures 0 <= i < |raw| && EntryEdge(raw[i]) == Some(e)
  {
    var last := |raw| - 1;
    if EntryEdge(raw[last]) == Some(e) {
      i := last;
    } else {
      var init := raw[..last];
      i := EdgeSource(init, e);
      assert init[i] == raw[i];
    }
  }

  lemma {:induction false} EdgePresent(raw: seq<Json>, e: Edge, i: int)
    requires 0 <= i < |raw| && EntryEdge(raw[i]) == Some(e)
    ensures e in LlmEdges(raw)
  {
    var last := |raw| - 1;
    if i < last {
      var init := raw[..last];
      assert init[i] == raw[i];
      EdgePresent(init, e, i);
    }
  }

  /** Entry `entry` names edge `e` and gives it a reason. */
  predicate Gives(entry: Json, e: Edge) {
    EntryEdge(entry) == Some(e) && EntryReason(entry).Some?
  }

  /** Recording the reason one entry gives, if any. */
  function AddReason(m: Reasons, entry: Json): (r: Reasons)
    ensures forall e :: e in r <==> e in m || Gives(entry, e)
    ensures forall e | Gives(entry, e) :: r[e] == EntryReason(entry).value
    ensures forall e | e in m && !Gives(entry, e) :: r[e] == m[e]
  {
    if EntryEdge(entry).Some? && EntryReason(entry).Some? then m[EntryEdge(entry).value := EntryReason(entry).value] else m
  }

  /** The reasons read from the raw attack list, entry by entry; a later reason for an edge replaces an earlier one. */
  function LlmReasons(raw: seq<Json>): (r: Reasons)
    ensures r.Keys <= LlmEdges(raw)
  {
    if raw == [] then map[]
    else
      AddReason(LlmReasons(raw[..|raw| - 1]), raw[|raw| - 1])
  }

  /** Entry `i` gives edge `e` a reason. */
  predicate GivesReason(raw: seq<Json>, i: int, e: Edge) {
    0 <= i < |raw| && Gives(raw[i], e)
  }

  /** An edge has a reason only when some entry gives it one. */
  lemma {:induction false} ReasonSource(raw: seq<Json>, e: Edge) returns (i: int)
    requires e in LlmReasons(raw)
    ensures GivesReason(raw, i, e)
  {
    var last := |raw| - 1;
    if Gives(raw[last], e) {
      i := last;
    } else {
      var init := raw[..last];
      i := ReasonSource(init, e);
      assert init[i] == raw[i];
    }
  }

  /** An edge some entry gives a reason has one. */
  lemma {:induction false} ReasonPresent(raw: seq<Json>, e: Edge, i: int)
    requires GivesReason(raw, i, e)
    ensures e in LlmReasons(raw)
  {
    var last := |raw| - 1;
    if i < last {
      var init := raw[..last];
      assert init[i] == raw[i];
      ReasonPresent(init, e, i);
    }
  }

  /** The reason kept for an edge is the one the last entry giving it a reason gives. */
  lemma {:induction false} LastReasonWins(raw: seq<Json>, e: Edge, i: int)
    requires GivesReason(raw, i, e) && forall j | i < j < |raw| :: !GivesReason(raw, j, e)
    ensures e in LlmReasons(raw) && LlmReasons(raw)[e] == EntryReason(raw[i]).value
  {
    var last := |raw| - 1;
    if i < last {
      var init := raw[..last];
      assert init[i] == raw[i];
      forall j | i < j < |init|
        ensures !GivesReason(init, j, e)
      {
        assert init[j] == raw[j];
        assert !GivesReason(raw, j, e);
      }
      LastReasonWins(init, e, i);
      assert !GivesReason(raw, last, e);
    }
  }

  /**
   * Reading the language model's attack list entry by entry: every entry
   * that names an edge adds it, and an entry with a truthy reason records
   * that reason for its edge. The first entry whose ends cannot be hashed
   * raises.
   */
  method NormalizeLlmAttacks(raw: seq<Json>) returns (err: Option<string>, edges: set<Edge>, reasons: Reasons)
    ensures err == FirstError(raw, EntryError)
    ensures err.None? ==> edges == LlmEdges(raw) && reasons == LlmReasons(raw)
  {
    edges := {};
    reasons := map[];
    var i := 0;
    while i < |raw|
      invariant i <= |raw|
      invariant forall j | 0 <= j < i :: EntryError(raw[j]).None?
      invariant edges == LlmEdges(raw[..i])
      invariant reasons == LlmReasons(raw[..i])
    {
      var e := raw[i];
      if EntryError(e).Some? {
        FirstErrorAt(raw, EntryError, i);
        return EntryError(e), edges, reasons;
      }
      assert raw[..i + 1][..i] == raw[..i] && raw[..i + 1][i] == e;
      var edge := EntryEdge(e);
      if edge.Some? {
        edges := edges + {edge.value};
        var r := EntryReason(e);
        if r.Some? {
          reasons := reasons[edge.value := r.value];
        }
      }
      i := i + 1;
    }
    assert raw[..|raw|] == raw;
    err := None;
  }

  /** `{a.id: a for a in args}`: every argument under its id; of two with the same id the later wins. */
  function ById(xs: seq<Argument>): (r: map<string, Argument>)
    ensures r.Keys == set a | a in xs :: a.id
    ensures KeyedById(r)
    ensures forall k | k in r :: r[k] in xs
  {
    if xs == [] then map[]
    else
      var init := xs[..|xs| - 1];
      assert xs == init + [xs[|xs| - 1]];
      ById(init)[xs[|xs| - 1].id := xs[|xs| - 1]]
  }

  /** The argument stored under an id is the last one in the list with that id. */
  lemma {:induction false} ByIdLastWins(xs: seq<Argument>, i: int)
    requires 0 <= i < |xs| && forall j | i < j < |xs| :: xs[j].id != xs[i].id
    ensures ById(xs)[xs[i].id] == xs[i]
  {
    var last := |xs| - 1;
    if i < last {
      var init := xs[..last];
      assert init[i] == xs[i];
      forall j | i < j < |init|
        ensures init[j].id != init[i].id
      {
        assert init[j] == xs[j];
      }
      ByIdLastWins(init, i);
    }
  }

  /** A merged framework with its reasons. */
  datatype Merged = Merged(args: map<string, Argument>, edges: set<Edge>, reasons: Reasons)

  /**
   * `_merge_af`: the union of the two frameworks, where the language
   * model's argument wins an id clash and its reason wins for an edge
   * both give a reason.
   */
  function MergeAf(argsLlm: map<string, Argument>, edgesLlm: set<Edge>, infoLlm: Reasons,
                   argsRules: map<string, Argument>, edgesRules: set<Edge>, infoRules: Reasons): (r: Merged)
    ensures r.args.Keys == argsLlm.Keys + argsRules.Keys
    ensures forall k | k in argsLlm :: r.args[k] == argsLlm[k]
    ensures forall k | k in argsRules && k !in argsLlm :: r.args[k] == argsRules[k]
    ensures r.edges == edgesLlm + edgesRules
    ensures r.reasons.Keys == infoLlm.Keys + infoRules.Keys
    ensures forall e | e in infoLlm :: r.reasons[e] == infoLlm[e]
    ensures forall e | e in infoRules && e !in infoLlm :: r.reasons[e] == infoRules[e]
  {
    Merged(argsRules + argsLlm, edgesRules + edgesLlm, infoRules + infoLlm)
  }

  /** Without a rule-based framework the merge is the language model's framework unchanged. */
  lemma MergeWithoutRules(argsLlm: map<string, Argument>, edgesLlm: set<Edge>, infoLlm: Reasons)
    ensures MergeAf(argsLlm, edgesLlm, infoLlm, map[], {}, map[]) == Merged(argsLlm, edgesLlm, infoLlm)
  {
  }

  /**
   * `_filter_attacks_with_info`: the priority filter applied to the edges
   * that have a recorded reason (an edge without one is dropped), with the
   * reasons of the surviving edges. An edge naming an unknown id raises.
   */
  method FilterAttacksWithInfo(args: map<string, Argument>, info: Reasons)
    returns (r: Result<(set<Edge>, Reasons), LookupError>)
    ensures r.Success? <==> EndpointsKnown(args, info.Keys)
    ensures r.Success? ==> r.value.0 == PriorityFiltered(args, info.Keys)
    ensures r.Success? ==> r.value.1.Keys == r.value.0 && forall e | e in r.value.1 :: r.value.1[e] == info[e]
    ensures r.Success? ==> forall e | e !in info :: e !in r.value.0
  {
    var kept := FilterAttacksByPriority(args, info.Keys);
    if kept.Failure? {
      return Failure(kept.error);
    }
    var keptInfo := map e | e in kept.value && e in info :: info[e];
    return Success((kept.value, keptInfo));
  }

  /**
   * `_make_diag_arg`: the argument that stands for having diagnosed a
   * failed step. It does nothing, checks nothing, needs and promises
   * nothing, and outranks the failed step by one.
   */
  function MakeDiagArg(failed: Argument): (r: Argument)
    ensures r.id == "D_" + failed.id && r.id != failed.id
    ensures r.priority == failed.priority + 1
    ensures r.domain == failed.domain && r.topic == "diagnosis"
    ensures r.pre == [] && r.effects == [] && r.action == ActionSpec("noop", map[]) && r.verify == NoopVerify()
    ensures r.deadlineMs == 0 && r.source == "rule"
  {
    Argument("D_" + failed.id, failed.domain, "diagnosis", [], ActionSpec("noop", map[]), [], NoopVerify(),
             failed.priority + 1)
  }

  /**
   * Once the diagnosis argument and its attack are added, the attack
   * survives the priority filter and the failed argument is no longer
   * accepted, whatever else is attacked.
   */
  lemma DiagDefeatsFailed(args: map<string, Argument>, edges: set<Edge>, failed: Argument)
    requires failed.id in args && args[failed.id] == failed
    ensures var d := MakeDiagArg(failed);
      var args2 := args[d.id := d];
      var edges2 := edges + {(d.id, failed.id)};
      && (d.id, failed.id) in PriorityFiltered(args2, edges2)
      && failed.id !in GroundedExtension(ArgFramework(args2, PriorityFiltered(args2, edges2)))
      && failed.id !in GroundedExtension(ArgFramework(args2, edges2))
  {
    var d := MakeDiagArg(failed);
    var args2 := args[d.id := d];
    assert args2[failed.id] == failed;
    assert (d.id, failed.id) in PriorityFiltered(args2, edges + {(d.id, failed.id)});
  }
}
