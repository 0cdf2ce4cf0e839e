/**
 * The drone-landing demo: solve the landing framework (with the ablation
 * switches applied), plan, choose the first `set_policy` step's policy,
 * simulate and check the touchdown. A failed check either ends the run (no
 * diagnosis) or triggers one diagnosis round, which attacks the chosen
 * policy's argument and re-solves, after which the opposite policy is
 * simulated and checked once more.
 *
 * The simulator is the parameter `sim`: the touchdown it reports for the
 * aggressive policy (`true`) or the conservative one (`false`).
 */
module Landing {
  import opened Wrappers
  import opened Json
  import opened Arguments
  import opened AfSolver
  import opened Planner
  import opened Ablation
  import opened DroneRules

  /** What the simulator reports: the final position and velocity, and the touchdown time. */
  datatype Touchdown = Touchdown(x: real, y: real, vx: real, vy: real, time: real)

  type Sim = bool -> Touchdown

  function Abs(x: real): real {
    if x < 0.0 then -x else x
  }

  /** Landed inside the zone, on the ground. */
  predicate InZone(t: Touchdown, zoneR: real) {
    Abs(t.x) <= zoneR && t.y == 0.0
  }

  /**
   * The final speed is at most `maxSpeed`. The speed is the square root of
   * the squared components; comparing squares says the same without it.
   */
  predicate SpeedOk(t: Touchdown, maxSpeed: real) {
    0.0 <= maxSpeed && t.vx * t.vx + t.vy * t.vy <= maxSpeed * maxSpeed
  }

  predicate TimeOk(t: Touchdown, maxTime: real) {
    t.time <= maxTime
  }

  /** `verify_after_sim`: a landing passes when it is in the zone, slow enough and in time. */
  function VerifyAfterSim(t: Touchdown, zoneR: real, maxSpeed: real, maxTime: real): (ok: bool)
    ensures ok <==> InZone(t, zoneR) && SpeedOk(t, maxSpeed) && TimeOk(t, maxTime)
  {
    InZone(t, zoneR) && SpeedOk(t, maxSpeed) && TimeOk(t, maxTime)
  }

  /** A landing that passes under some bounds passes under looser ones. */
  lemma VerifyMonotone(t: Touchdown, z1: real, s1: real, m1: real, z2: real, s2: real, m2: real)
    requires z1 <= z2 && s1 <= s2 && m1 <= m2
    requires VerifyAfterSim(t, z1, s1, m1)
    ensures VerifyAfterSim(t, z2, s2, m2)
  {
    assert s1 * s1 <= s2 * s2 by {
      assert 0.0 <= s1;
      assert s1 * s1 <= s1 * s2 <= s2 * s2;
    }
  }

  /** A passing landing's horizontal and vertical speeds are each within the bound. */
  lemma SpeedComponents(t: Touchdown, maxSpeed: real)
    requires SpeedOk(t, maxSpeed)
    ensures Abs(t.vx) <= maxSpeed && Abs(t.vy) <= maxSpeed
  {
    SquareBound(t.vx, t.vy, maxSpeed);
    SquareBound(t.vy, t.vx, maxSpeed);
  }

  lemma SquareBound(a: real, b: real, m: real)
    requires 0.0 <= m && a * a + b * b <= m * m
    ensures Abs(a) <= m
  {
    var u := Abs(a);
    assert u * u == a * a;
    assert b * b >= 0.0;
    if u > m {
      SquareStrict(u, m);
    }
  }

  lemma SquareStrict(u: real, m: real)
    requires 0.0 <= m < u
    ensures m * m < u * u
  {
    var d := u - m;
    assert u * u - m * m == (u + m) * d;
    assert (u + m) * d > 0.0;
  }

  // ---------------------------------------------------------------------
  // Choosing the policy.

  predicate IsSetPolicy(args: map<string, Argument>, st: PlanStep) {
    st.argId in args && args[st.argId].action.name == "set_policy"
  }

  /** The position of the first `set_policy` step in the plan, if any. */
  function FirstSetPolicy(args: map<string, Argument>, steps: seq<PlanStep>): (r: Option<nat>)
    ensures r.Some? ==> r.value < |steps| && IsSetPolicy(args, steps[r.value])
                        && forall j | 0 <= j < r.value :: !IsSetPolicy(args, steps[j])
    ensures r.None? ==> forall j | 0 <= j < |steps| :: !IsSetPolicy(args, steps[j])
  {
    if steps == [] then None
    else if IsSetPolicy(args, steps[0]) then Some(0)
    else
      var rest := FirstSetPolicy(args, steps[1..]);
      assert forall j | 1 <= j < |steps| :: steps[j] == steps[1..][j - 1];
      if rest.None? then None else Some(rest.value + 1)
  }

  /** The loop over the plan that stops at the first `set_policy` step. */
  method SelectPolicy(args: map<string, Argument>, steps: seq<PlanStep>) returns (r: Option<nat>)
    ensures r == FirstSetPolicy(args, steps)
  {
    var k := 0;
    while k < |steps|
      invariant k <= |steps|
      invariant forall j | 0 <= j < k :: !IsSetPolicy(args, steps[j])
      decreases |steps| - k
    {
      if IsSetPolicy(args, steps[k]) {
        return Some(k);
      }
      k := k + 1;
    }
    return None;
  }

  /** `params.get("name")`: the policy a step sets, None when it names none. */
  function PolicyName(params: map<string, Json>): (r: Option<Json>)
    ensures r.Some? <==> "name" in params && params["name"] != JNull
    ensures r.Some? ==> r.value == params["name"] && r.value != JNull
  {
    if "name" in params && params["name"] != JNull then Some(params["name"]) else None
  }

  /** The simulator runs the aggressive policy only for the exact name "aggressive". */
  predicate Aggressive(policy: Json) {
    policy == JStr("aggressive")
  }

  function Opposite(policy: Json): (r: Json)
    ensures Aggressive(r) <==> !Aggressive(policy)
  {
    if Aggressive(policy) then JStr("conservative") else JStr("aggressive")
  }

  // ---------------------------------------------------------------------
  // The run.

  /** What the demo raises. */
  datatype LandingError = MissingKey(key: string) | NotNumeric(key: string)

  /** The run's metrics: pass or fail, steps actuated, solver rounds, the policies simulated, and the last extension. */
  datatype LandingRun = LandingRun(pass: bool, stepsExecuted: nat, afIters: nat, tried: seq<Json>, ext: set<string>)

  /** A bound read from the check's parameters: missing raises KeyError, a non-number a TypeError. */
  function Bound(params: map<string, Json>, key: string): (r: Result<real, LandingError>)
    ensures r.Success? <==> key in params && NumericValue(params[key]).Some?
  {
    if key !in params then Failure(MissingKey(key))
    else match NumericValue(params[key])
      case None => Failure(NotNumeric(key))
      case Some(x) => Success(x)
  }

  /**
   * The three bounds, read from the aggressive policy's check. All three
   * are looked up before any is compared, so a missing bound raises before
   * a non-numeric one; the comparisons then meet the zone radius, the
   * speed bound and the time bound in that order.
   */
  function Bounds(args: map<string, Argument>): (r: Result<(real, real, real), LandingError>)
    ensures r.Success? <==> ("A_policy_aggr" in args
      && Bound(args["A_policy_aggr"].verify.params, "zone_r").Success?
      && Bound(args["A_policy_aggr"].verify.params, "max_speed").Success?
      && Bound(args["A_policy_aggr"].verify.params, "max_time").Success?)
    ensures r.Success? ==> var v := args["A_policy_aggr"].verify.params;
      r.value == (Bound(v, "zone_r").value, Bound(v, "max_speed").value, Bound(v, "max_time").value)
    ensures "A_policy_aggr" !in args ==> r == Failure(MissingKey("A_policy_aggr"))
    ensures "A_policy_aggr" in args ==> var v := args["A_policy_aggr"].verify.params;
      && ("zone_r" !in v ==> r == Failure(MissingKey("zone_r")))
      && ("zone_r" in v && "max_speed" !in v ==> r == Failure(MissingKey("max_speed")))
      && ("zone_r" in v && "max_speed" in v && "max_time" !in v ==> r == Failure(MissingKey("max_time")))
    ensures "A_policy_aggr" in args ==> var v := args["A_policy_aggr"].verify.params;
      "zone_r" in v && "max_speed" in v && "max_time" in v ==>
        && (NumericValue(v["zone_r"]).None? ==> r == Failure(NotNumeric("zone_r")))
        && (NumericValue(v["zone_r"]).Some? && NumericValue(v["max_speed"]).None? ==> r == Failure(NotNumeric("max_speed")))
        && (NumericValue(v["zone_r"]).Some? && NumericValue(v["max_speed"]).Some? && NumericValue(v["max_time"]).None?
            ==> r == Failure(NotNumeric("max_time")))
  {
    if "A_policy_aggr" !in args then Failure(MissingKey("A_policy_aggr"))
    else
      var v := args["A_policy_aggr"].verify.params;
      if "zone_r" !in v then Failure(MissingKey("zone_r"))
      else if "max_speed" !in v then Failure(MissingKey("max_speed"))
      else if "max_time" !in v then Failure(MissingKey("max_time"))
      else
        var z := Bound(v, "zone_r");
        var s := Bound(v, "max_speed");
        var m := Bound(v, "max_time");
        if z.Failure? then Failure(z.error)
        else if s.Failure? then Failure(s.error)
        else if m.Failure? then Failure(m.error)
        else Success((z.value, s.value, m.value))
  }

  /** A missing speed bound raises even when the zone radius before it is not a number. */
  lemma MissingBeforeNotNumeric(args: map<string, Argument>)
    requires "A_policy_aggr" in args
    requires args["A_policy_aggr"].verify.params == map["zone_r" := JStr("x"), "max_time" := JNum(20.0)]
    ensures Bounds(args) == Failure(MissingKey("max_speed"))
  {
    var v := args["A_policy_aggr"].verify.params;
    assert "zone_r" in v && "max_speed" !in v;
  }

  /** The diagnosis argument against the chosen policy's argument: two above it in priority. */
  function LandingDiagArg(chosenId: string, chosenPriority: int): (r: Argument)
    ensures r.id == "D_" + chosenId && r.priority == chosenPriority + 2
    ensures r.action == ActionSpec("noop", map[]) && r.verify == NoopVerify() && r.pre == [] && r.effects == []
  {
    Argument("D_" + chosenId, "drone", "diagnosis", [], ActionSpec("noop", map[]), [], NoopVerify(),
             chosenPriority + 2, 0, "drone_diag", "diagnosis")
  }

  /** The id of the argument behind a policy name. */
  function ChosenId(policy: Json): string {
    if Aggressive(policy) then "A_policy_aggr" else "A_policy_cons"
  }

  /**
   * The diagnosis round: add the diagnosis argument and its attack on the
   * chosen id to the framework's current attacks, re-filter unless the
   * filter is off, and re-solve. The chosen argument is never accepted
   * afterwards; the extension is not consulted again.
   */
  function Rediagnose(mode: Mode, args: map<string, Argument>, attacks: set<Edge>, chosen: string): (r: set<string>)
    requires chosen in args
    ensures chosen !in r
  {
    var d := LandingDiagArg(chosen, args[chosen].priority);
    var args2 := args[d.id := d];
    var attacks2 := attacks + {(d.id, chosen)};
    var eff := if mode.noPriority then attacks2 else PriorityFiltered(args2, attacks2);
    assert args2[chosen] == args[chosen];
    assert (d.id, chosen) in eff;
    GroundedExtension(ArgFramework(args2, eff))
  }

  /**
   * Everything after planning: take the first `set_policy` step's policy
   * (a plan without one, or a step naming no policy, fails), simulate and
   * check it; a pass, or a failure without diagnosis, is final; otherwise
   * diagnose and simulate and check the opposite policy once.
   */
  function Attempts(mode: Mode, args: map<string, Argument>, attacks: set<Edge>, ext: set<string>,
                    steps: seq<PlanStep>, sim: Sim): (r: Result<LandingRun, LandingError>)
    requires mode.noPriority || EndpointsKnown(args, attacks)
    ensures r.Success? ==> |r.value.tried| <= 2 && r.value.stepsExecuted <= 2
    ensures r.Success? && r.value.tried == [] ==> !r.value.pass && r.value.afIters == 1
    ensures r.Success? && r.value.tried == [] <==> (FirstSetPolicy(args, steps).None?
      || PolicyName(args[steps[FirstSetPolicy(args, steps).value].argId].action.params).None?)
    ensures r.Success? && |r.value.tried| == 1 ==>
      (r.value.afIters == 1 && r.value.stepsExecuted == 1 && (r.value.pass || mode.noDiag)
       && Bounds(args).Success?
       && r.value.pass == VerifyAfterSim(sim(Aggressive(r.value.tried[0])), Bounds(args).value.0,
                                         Bounds(args).value.1, Bounds(args).value.2))
    ensures r.Success? && |r.value.tried| == 2 ==>
      !mode.noDiag && r.value.tried[1] == Opposite(r.value.tried[0]) && r.value.afIters == 2
      && r.value.stepsExecuted == 2
      && ChosenId(r.value.tried[0]) in args && ChosenId(r.value.tried[0]) !in r.value.ext
  {
    match FirstSetPolicy(args, steps)
    case None => Success(LandingRun(false, 0, 1, [], ext))
    case Some(k) =>
      match PolicyName(args[steps[k].argId].action.params)
      case None => Success(LandingRun(false, 1, 1, [], ext))
      case Some(policy) =>
        match Bounds(args)
        case Failure(e) => Failure(e)
        case Success(b) =>
          var ok := VerifyAfterSim(sim(Aggressive(policy)), b.0, b.1, b.2);
          if ok || mode.noDiag then Success(LandingRun(ok, 1, 1, [policy], ext))
          else if ChosenId(policy) !in args then Failure(MissingKey(ChosenId(policy)))
          else
            var ext2 := Rediagnose(mode, args, attacks, ChosenId(policy));
            var policy2 := Opposite(policy);
            var ok2 := VerifyAfterSim(sim(Aggressive(policy2)), b.0, b.1, b.2);
            Success(LandingRun(ok2, 2, 2, [policy, policy2], ext2))
  }

  /** The attacks the first solve sees: priority-filtered unless the filter is off. */
  function Effective(mode: Mode, af: ArgFramework): set<Edge> {
    if mode.noPriority then af.attacks else PriorityFiltered(af.args, af.attacks)
  }

  /** The framework's attacks after the first solve: none when the solver is off. */
  function FrameAttacks(mode: Mode, af: ArgFramework): set<Edge> {
    if mode.noAf then {} else Effective(mode, af)
  }

  /** The first extension: every argument when the solver is off. */
  function FirstExtension(mode: Mode, af: ArgFramework): set<string> {
    if mode.noAf then af.args.Keys else GroundedExtension(ArgFramework(af.args, Effective(mode, af)))
  }

  /** The demo, given the framework the rules built. */
  ghost function LandingSpec(mode: Mode, af0: ArgFramework, sim: Sim): (r: Result<LandingRun, LandingError>)
  {
    if !mode.noPriority && !EndpointsKnown(af0.args, af0.attacks) then Failure(MissingKey("attack endpoint"))
    else
      var ext := FirstExtension(mode, af0);
      Attempts(mode, af0.args, FrameAttacks(mode, af0), ext, PlanOfSet(af0.args, ext), sim)
  }

  /** The policy choice and the attempts, the plan scanned by `SelectPolicy`. */
  method RunAttempts(mode: Mode, args: map<string, Argument>, attacks: set<Edge>, ext: set<string>,
                     steps: seq<PlanStep>, sim: Sim) returns (r: Result<LandingRun, LandingError>)
    requires mode.noPriority || EndpointsKnown(args, attacks)
    ensures r == Attempts(mode, args, attacks, ext, steps, sim)
  {
    var k := SelectPolicy(args, steps);
    if k.None? {
      return Success(LandingRun(false, 0, 1, [], ext));
    }
    var policy := PolicyName(args[steps[k.value].argId].action.params);
    if policy.None? {
      return Success(LandingRun(false, 1, 1, [], ext));
    }
    var b := Bounds(args);
    if b.Failure? {
      return Failure(b.error);
    }
    var ok := VerifyAfterSim(sim(Aggressive(policy.value)), b.value.0, b.value.1, b.value.2);
    if ok || mode.noDiag {
      return Success(LandingRun(ok, 1, 1, [policy.value], ext));
    }
    var chosen := ChosenId(policy.value);
    if chosen !in args {
      return Failure(MissingKey(chosen));
    }
    var ext2 := Rediagnose(mode, args, attacks, chosen);
    var policy2 := Opposite(policy.value);
    var ok2 := VerifyAfterSim(sim(Aggressive(policy2)), b.value.0, b.value.1, b.value.2);
    r := Success(LandingRun(ok2, 2, 2, [policy.value, policy2], ext2));
  }

  /** `main`. */
  method LandingMain(mode: Mode, af0: ArgFramework, sim: Sim) returns (r: Result<LandingRun, LandingError>)
    ensures r.Success? <==> LandingSpec(mode, af0, sim).Success?
    ensures r.Success? ==> r == LandingSpec(mode, af0, sim)
  {
    var args := af0.args;
    var eff: set<Edge>;
    if mode.noPriority {
      eff := af0.attacks;
    } else {
      var filtered := FilterAttacksByPriority(args, af0.attacks);
      if filtered.Failure? {
        return Failure(MissingKey(filtered.error.key));
      }
      eff := filtered.value;
    }
    var attacks: set<Edge>;
    var ext: set<string>;
    if mode.noAf {
      ext := args.Keys;
      attacks := {};
    } else {
      attacks := eff;
      ext := GroundedExtension(ArgFramework(args, eff));
    }
    var steps := OrderPlanFromSet(args, ext);
    r := RunAttempts(mode, args, attacks, ext, steps, sim);
  }

  // ---------------------------------------------------------------------
  // The demo's own framework.

  /** The framework the demo builds: zone radius 1.5, speed 0.6, time 20. */
  function LandingAf(): ArgFramework {
    GenerateLandingAf(1.5, 0.6, 20.0)
  }

  /** What the lemmas below use of the demo's framework. */
  ghost predicate LandingShape(af: ArgFramework) {
    && af.args.Keys == {"A_policy_aggr", "A_policy_cons"}
    && af.attacks == {("A_policy_cons", "A_policy_aggr")}
    && af.args["A_policy_aggr"].priority == 0 && af.args["A_policy_cons"].priority == 1
    && af.args["A_policy_aggr"].deadlineMs == 0 && af.args["A_policy_cons"].deadlineMs == 0
    && af.args["A_policy_cons"].action == ActionSpec("set_policy", map["name" := JStr("conservative")])
    && af.args["A_policy_aggr"].verify.params
       == map["zone_r" := JNum(1.5), "max_speed" := JNum(0.6), "max_time" := JNum(20.0)]
  }

  lemma LandingAfShape()
    ensures LandingShape(LandingAf())
  {
    var af := LandingAf();
    assert af.args["A_policy_cons"].action == ActionSpec("set_policy", map["name" := JStr("conservative")]);
  }

  /** The plan of two ids whose steps already come in key order. */
  lemma TwoStepPlan(args: map<string, Argument>, first: string, second: string)
    requires args.Keys == {first, second} && first != second
    requires StepLeq(StepFor(args, first), StepFor(args, second))
    ensures PlanOfSet(args, args.Keys) == [StepFor(args, first), StepFor(args, second)]
  {
    var order := [first, second];
    assert Project(args, order[1..]) == [StepFor(args, second)];
    assert Project(args, order) == [StepFor(args, first), StepFor(args, second)];
    SortedProjection(args, order);
    assert multiset(order) == multiset(args.Keys);
    PlanOfSetListed(args, args.Keys, order);
  }

  /** With the solver on, only the conservative policy is accepted and planned. */
  lemma SolvedPlan(mode: Mode, af: ArgFramework)
    requires LandingShape(af) && !mode.noAf
    ensures FirstExtension(mode, af) == {"A_policy_cons"}
    ensures PlanOfSet(af.args, {"A_policy_cons"}) == [StepFor(af.args, "A_policy_cons")]
  {
    var eff := Effective(mode, af);
    assert ("A_policy_cons", "A_policy_aggr") in eff;
    assert "A_policy_cons" in GroundedExtension(ArgFramework(af.args, eff));
    SingleStepPlan(af.args, "A_policy_cons");
  }

  /** In every mode the conservative policy's step comes first in the plan. */
  lemma ConservativeFirst(mode: Mode, af: ArgFramework)
    requires LandingShape(af)
    ensures var steps := PlanOfSet(af.args, FirstExtension(mode, af));
      |steps| >= 1 && steps[0].argId == "A_policy_cons"
  {
    if mode.noAf {
      TwoStepPlan(af.args, "A_policy_cons", "A_policy_aggr");
    } else {
      SolvedPlan(mode, af);
    }
  }

  /** The check's bounds in the demo's framework. */
  lemma ShapeBounds(af: ArgFramework)
    requires LandingShape(af)
    ensures Bounds(af.args) == Success((1.5, 0.6, 20.0))
  {
    var v := af.args["A_policy_aggr"].verify.params;
    assert Bound(v, "zone_r") == Success(1.5);
    assert Bound(v, "max_speed") == Success(0.6);
    assert Bound(v, "max_time") == Success(20.0);
  }

  /**
   * The diagnosis round against the conservative policy: its diagnosis
   * argument is accepted, and the aggressive policy that is simulated next
   * is accepted only when the solver's first round was switched off.
   */
  lemma DiagnosisAgainstConservative(mode: Mode, af: ArgFramework)
    requires LandingShape(af)
    ensures var ext2 := Rediagnose(mode, af.args, FrameAttacks(mode, af), "A_policy_cons");
      "D_A_policy_cons" in ext2 && ("A_policy_aggr" in ext2 <==> mode.noAf)
  {
    var attacks := FrameAttacks(mode, af);
    var d := LandingDiagArg("A_policy_cons", 1);
    var args2 := af.args[d.id := d];
    var attacks2 := attacks + {(d.id, "A_policy_cons")};
    var eff := if mode.noPriority then attacks2 else PriorityFiltered(args2, attacks2);
    assert d.id == "D_A_policy_cons";
    if !mode.noAf {
      assert ("A_policy_cons", "A_policy_aggr") in Effective(mode, af);
    }
    assert eff == attacks2;
    var ext2 := GroundedExtension(ArgFramework(args2, eff));
    assert "D_A_policy_cons" in ext2;
    if mode.noAf {
      assert "A_policy_aggr" in ext2;
    } else {
      assert ("A_policy_cons", "A_policy_aggr") in eff;
    }
  }

  /** The attempts once the conservative policy's step heads the plan. */
  lemma AttemptsFromConservative(mode: Mode, args: map<string, Argument>, attacks: set<Edge>, ext: set<string>,
                                 steps: seq<PlanStep>, sim: Sim)
    requires mode.noPriority || EndpointsKnown(args, attacks)
    requires |steps| >= 1 && steps[0].argId == "A_policy_cons" && "A_policy_cons" in args
    requires args["A_policy_cons"].action == ActionSpec("set_policy", map["name" := JStr("conservative")])
    requires Bounds(args) == Success((1.5, 0.6, 20.0))
    ensures var r := Attempts(mode, args, attacks, ext, steps, sim);
      r.Success? && r.value.tried != [] && r.value.tried[0] == JStr("conservative")
      && (|r.value.tried| == 1 <==> VerifyAfterSim(sim(false), 1.5, 0.6, 20.0) || mode.noDiag)
      && (|r.value.tried| == 2 ==>
            r.value.tried[1] == JStr("aggressive") && r.value.pass == VerifyAfterSim(sim(true), 1.5, 0.6, 20.0)
            && r.value.ext == Rediagnose(mode, args, attacks, "A_policy_cons"))
  {
    assert IsSetPolicy(args, steps[0]);
    assert FirstSetPolicy(args, steps) == Some(0);
    assert PolicyName(args["A_policy_cons"].action.params) == Some(JStr("conservative"));
  }

  /**
   * A run on a framework of the demo's shape: the conservative policy is
   * simulated first; the run ends there when that landing passes or
   * diagnosis is off, and otherwise the aggressive policy is simulated,
   * although the re-solved framework accepts it only when the solver's
   * first round was switched off.
   */
  lemma ShapedRun(mode: Mode, af: ArgFramework, sim: Sim)
    requires LandingShape(af)
    ensures var r := LandingSpec(mode, af, sim);
      r.Success? && r.value.tried != [] && r.value.tried[0] == JStr("conservative")
      && (|r.value.tried| == 1 <==> VerifyAfterSim(sim(false), 1.5, 0.6, 20.0) || mode.noDiag)
      && (|r.value.tried| == 2 ==>
            r.value.tried[1] == JStr("aggressive") && r.value.pass == VerifyAfterSim(sim(true), 1.5, 0.6, 20.0)
            && ("A_policy_aggr" in r.value.ext <==> mode.noAf))
  {
    assert EndpointsKnown(af.args, af.attacks);
    var attacks := FrameAttacks(mode, af);
    assert mode.noPriority || EndpointsKnown(af.args, attacks);
    var ext := FirstExtension(mode, af);
    ConservativeFirst(mode, af);
    ShapeBounds(af);
    AttemptsFromConservative(mode, af.args, attacks, ext, PlanOfSet(af.args, ext), sim);
    DiagnosisAgainstConservative(mode, af);
  }

  /** The demo's own run. */
  lemma DemoRun(mode: Mode, sim: Sim)
    ensures var r := LandingSpec(mode, LandingAf(), sim);
      r.Success? && r.value.tried != [] && r.value.tried[0] == JStr("conservative")
      && (|r.value.tried| == 1 <==> VerifyAfterSim(sim(false), 1.5, 0.6, 20.0) || mode.noDiag)
  {
    LandingAfShape();
    ShapedRun(mode, LandingAf(), sim);
  }
}
