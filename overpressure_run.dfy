/**
 * The over-pressure demo: sense the pressure, build the framework, solve
 * and plan, send the first step's command to the plant and run the check
 * the argument names. Unlike the over-temperature demo, the plan is made
 * from the first admission (every argument when the solver is bypassed)
 * and is not recomputed when the solver runs again; the second solve only
 * decides whether the run goes on.
 */
module OverpressureRun {
  import opened Wrappers
  import opened Json
  import opened Arguments
  import opened AfSolver
  import opened Planner
  import opened Ablation
  import opened PlantOverpressureRules
  import opened SingleStep

  const PHigh := 2.0
  const Target := 1.2
  const Timeout := 30.0
  const Dt := 0.1

  /** The plant's actuators have no `set_inflow`. */
  const NoSetInflow := "AttributeError: 'Actuators' object has no attribute 'set_inflow'"

  /** The demo's framework for a sensed pressure. */
  function OverpressureAf(pressure: real): ArgFramework {
    GenerateOverpressureAf(pressure, PHigh, Target, Timeout)
  }

  /**
   * The command for an action: `open_relief` with `u` (default 0.9) and
   * `noop`; any other name sends nothing. `set_inflow` raises
   * AttributeError whatever `q` holds: the actuators lack the method, and
   * Python looks the method up before it evaluates the argument. A
   * parameter that `float` cannot convert raises.
   */
  function Actuate(a: ActionSpec): (r: Result<Command, string>)
    ensures r.Success? <==>
      a.name != "set_inflow" && (a.name == "open_relief" ==> PyFloat(Get(a.params, "u", JNum(0.9))).Some?)
    ensures a.name == "set_inflow" ==> r == Failure(NoSetInflow)
    ensures a.name == "open_relief" && r.Failure? ==> r.error == NotAFloat
    ensures a.name == "open_relief" && r.Success? ==>
      r.value == OpenRelief(PyFloat(Get(a.params, "u", JNum(0.9))).value)
    ensures a.name == "open_relief" && "u" !in a.params ==> r == Success(OpenRelief(0.9))
    ensures a.name == "noop" ==> r == Success(Noop)
    ensures a.name !in {"open_relief", "set_inflow", "noop"} ==> r == Success(NoCommand)
  {
    if a.name == "open_relief" then
      match PyFloat(Get(a.params, "u", JNum(0.9)))
      case None => Failure(NotAFloat)
      case Some(u) => Success(OpenRelief(u))
    else if a.name == "set_inflow" then Failure(NoSetInflow)
    else if a.name == "noop" then Success(Noop)
    else Success(NoCommand)
  }

  /**
   * `float(params[key])`: KeyError when the key is missing, ValueError when
   * it does not convert; a number, a boolean and decimal text convert.
   */
  function Number(params: map<string, Json>, key: string): (r: Result<real, string>)
    ensures r.Success? <==> key in params && PyFloat(params[key]).Some?
    ensures r.Success? ==> r.value == PyFloat(params[key]).value
    ensures key in params && params[key].JNum? ==> r == Success(params[key].x)
    ensures key !in params ==> r == Failure("KeyError: " + key)
    ensures key in params && r.Failure? ==> r == Failure(NotAFloat)
  {
    if key !in params then Failure("KeyError: " + key)
    else match PyFloat(params[key])
      case None => Failure(NotAFloat)
      case Some(x) => Success(x)
  }

  /**
   * `str(x)` as far as a direction is concerned: a string is itself; any
   * other value renders as a text that is neither "down" nor "up".
   */
  function Text(j: Json): (r: string)
    ensures j.JStr? ==> r == j.s
    ensures !j.JStr? ==> r != "down" && r != "up"
  {
    if j.JStr? then j.s else ""
  }

  /**
   * The verdict of the check a step names, on the samples that follow its
   * command: `reach_threshold` reads `target`, `direction` and
   * `timeout_s`; `in_band` reads `target`, `tol` and `timeout_s`, in that
   * order (the first missing key raises KeyError); any other verifier
   * raises ValueError.
   */
  ghost function Verdict(v: VerifySpec, metric: nat -> real): (r: Result<bool, string>)
    ensures v.name != "reach_threshold" && v.name != "in_band" ==> r == Failure("ValueError: Unknown verifier: " + v.name)
    ensures v.name == "in_band" ==>
      (r.Success? <==> Number(v.params, "target").Success? && Number(v.params, "tol").Success?
                       && Number(v.params, "timeout_s").Success?)
    ensures v.name == "in_band" && r.Success? ==>
      r.value == InBandHolds(metric, Number(v.params, "target").value, Number(v.params, "tol").value,
                             Number(v.params, "timeout_s").value, Dt)
    ensures v.name == "reach_threshold" ==>
      (r.Success? <==> Number(v.params, "target").Success? && "direction" in v.params
                       && Number(v.params, "timeout_s").Success?)
    ensures v.name == "reach_threshold" && r.Success? ==>
      r.value == ThresholdHolds(metric, Number(v.params, "target").value, Text(v.params["direction"]),
                                Number(v.params, "timeout_s").value, Dt)
    ensures v.name in {"reach_threshold", "in_band"} && !Number(v.params, "target").Success? ==>
      r.Failure? && r.error == Number(v.params, "target").error
  {
    var params := v.params;
    if v.name == "reach_threshold" then
      match Number(params, "target")
      case Failure(e) => Failure(e)
      case Success(target) =>
        if "direction" !in params then Failure("KeyError: direction")
        else
          match Number(params, "timeout_s")
          case Failure(e) => Failure(e)
          case Success(timeout) => Success(ThresholdHolds(metric, target, Text(params["direction"]), timeout, Dt))
    else if v.name == "in_band" then
      match Number(params, "target")
      case Failure(e) => Failure(e)
      case Success(target) =>
        match Number(params, "tol")
        case Failure(e) => Failure(e)
        case Success(tol) =>
          match Number(params, "timeout_s")
          case Failure(e) => Failure(e)
          case Success(timeout) => Success(InBandHolds(metric, target, tol, timeout, Dt))
    else Failure("ValueError: Unknown verifier: " + v.name)
  }

  /** The check a step names, dispatched by verifier name. */
  method Check(v: VerifySpec, metric: nat -> real) returns (r: Result<bool, string>)
    ensures r == Verdict(v, metric)
  {
    var params := v.params;
    if v.name == "reach_threshold" {
      var target := Number(params, "target");
      if target.Failure? {
        return Failure(target.error);
      }
      if "direction" !in params {
        return Failure("KeyError: direction");
      }
      var timeout := Number(params, "timeout_s");
      if timeout.Failure? {
        return Failure(timeout.error);
      }
      var ok := CheckThreshold(metric, target.value, Text(params["direction"]), timeout.value, Dt);
      return Success(ok);
    } else if v.name == "in_band" {
      var target := Number(params, "target");
      if target.Failure? {
        return Failure(target.error);
      }
      var tol := Number(params, "tol");
      if tol.Failure? {
        return Failure(tol.error);
      }
      var timeout := Number(params, "timeout_s");
      if timeout.Failure? {
        return Failure(timeout.error);
      }
      var ok := CheckInBand(metric, target.value, tol.value, timeout.value, Dt);
      return Success(ok);
    }
    return Failure("ValueError: Unknown verifier: " + v.name);
  }

  /** Executing argument `a`: its command, then its check; a raise in either ends the run. */
  ghost function Execute(a: Argument, plant: Plant): (r: Report)
    ensures r.Logged? ==> r.stepsExecuted == 1 && r.afIters == 1
    ensures r.Logged? ==> Actuate(a.action).Success?
  {
    match Actuate(a.action)
    case Failure(e) => Raised(e)
    case Success(cmd) =>
      match Verdict(a.verify, plant(cmd))
      case Failure(e) => Raised(e)
      case Success(ok) => Logged(ok, 1, 1)
  }

  /**
   * A run on framework `af`. The first admission is every argument when
   * the solver is bypassed and the grounded extension otherwise; an empty
   * admission logs FAIL with no step and one solver iteration. Its plan is
   * kept; a second solve that accepts nothing returns without metrics, and
   * otherwise the first step of the kept plan alone is executed.
   */
  ghost function RunSpec(noAf: bool, af: ArgFramework, plant: Plant): (r: Report)
    ensures r.Logged? ==> r.afIters == 1 && r.stepsExecuted <= 1
    ensures r == Logged(false, 0, 1) <==> (if noAf then af.args.Keys else GroundedExtension(af)) == {}
    ensures GroundedExtension(af) == {} && af.args.Keys != {} ==> r == (if noAf then Unlogged else Logged(false, 0, 1))
  {
    var admitted := if noAf then af.args.Keys else GroundedExtension(af);
    if admitted == {} then Logged(false, 0, 1)
    else if GroundedExtension(af) == {} then Unlogged
    else
      match PlanHeadId(af.args, admitted)
      case None => Unlogged
      case Some(id) => Execute(af.args[id], plant)
  }

  /** One run on framework `af`, as `main` performs it after sensing. */
  method Run(noAf: bool, af: ArgFramework, plant: Plant) returns (r: Report)
    ensures r == RunSpec(noAf, af, plant)
  {
    var ext := if noAf then af.args.Keys else GroundedExtension(af);
    if ext == {} {
      return Logged(false, 0, 1);
    }
    var first := FirstPlanned(af.args, ext);
    if GroundedExtension(af) == {} {
      return Unlogged;
    }
    if first.None? {
      return Unlogged;
    }
    var a := af.args[first.value];
    var cmd := Actuate(a.action);
    if cmd.Failure? {
      return Raised(cmd.error);
    }
    var verdict := Check(a.verify, plant(cmd.value));
    if verdict.Failure? {
      return Raised(verdict.error);
    }
    return Logged(verdict.value, 1, 1);
  }

  /**
   * `main` for a sensed pressure: the priority and diagnosis switches play
   * no part, so the run depends on the mode only through the solver switch.
   */
  method OverpressureMain(mode: Mode, pressure: real, plant: Plant) returns (r: Report)
    ensures r == RunSpec(mode.noAf, OverpressureAf(pressure), plant)
  {
    r := Run(mode.noAf, OverpressureAf(pressure), plant);
  }

  /**
   * Above the alarm threshold, in every mode, the relief valve is opened
   * to 0.9 and the run passes exactly when the pressure comes within 0.05
   * of the target before the timeout, after one step and one solver
   * iteration. With the solver bypassed the kept plan holds every
   * argument, but relief's priority puts it first all the same.
   */
  lemma AlarmRun(noAf: bool, pressure: real, plant: Plant)
    requires pressure > PHigh
    ensures RunSpec(noAf, OverpressureAf(pressure), plant)
      == Logged(InBandHolds(plant(OpenRelief(0.9)), Target, 0.05, Timeout, Dt), 1, 1)
  {
    AlarmShapeHolds(pressure);
    ShapedRun(noAf, OverpressureAf(pressure), plant);
  }

  /** What a run needs to know of the alarm framework. */
  ghost predicate AlarmShape(af: ArgFramework) {
    && GroundedExtension(af) == {"A_relief"}
    && af.args.Keys == {"A_relief", "A_reduce_inflow", "A_wait"}
    && af.args["A_relief"] == ReliefArg(Target, Timeout)
    && af.args["A_reduce_inflow"].priority == 8 && af.args["A_wait"].priority == 1
    && forall id | id in af.args :: af.args[id].deadlineMs == 200
  }

  lemma AlarmShapeHolds(pressure: real)
    requires pressure > PHigh
    ensures AlarmShape(OverpressureAf(pressure))
  {
    var af := OverpressureAf(pressure);
    OverpressureAccepted(pressure, PHigh, Target, Timeout);
    assert af.args["A_relief"] == ReliefArg(Target, Timeout);
  }

  /** A framework of that shape runs the relief step, whichever ids are admitted. */
  lemma ShapedRun(noAf: bool, af: ArgFramework, plant: Plant)
    requires AlarmShape(af)
    ensures RunSpec(noAf, af, plant) == Logged(InBandHolds(plant(OpenRelief(0.9)), Target, 0.05, Timeout, Dt), 1, 1)
  {
    var admitted := if noAf then af.args.Keys else GroundedExtension(af);
    var st := StepFor(af.args, "A_relief");
    StepTotal(st, st);
    assert forall y | y in admitted && y in af.args :: StepLeq(st, StepFor(af.args, y));
    PlanHeadIdIs(af.args, admitted, "A_relief");
    ReliefRun(plant);
  }

  /** The relief argument opens the valve to 0.9 and checks the band of width 0.05 around the target. */
  lemma ReliefRun(plant: Plant)
    ensures Execute(ReliefArg(Target, Timeout), plant)
      == Logged(InBandHolds(plant(OpenRelief(0.9)), Target, 0.05, Timeout, Dt), 1, 1)
  {
    var a := ReliefArg(Target, Timeout);
    assert Actuate(a.action) == Success(OpenRelief(0.9));
    assert Number(a.verify.params, "target") == Success(Target);
    assert Number(a.verify.params, "tol") == Success(0.05);
    assert Number(a.verify.params, "timeout_s") == Success(Timeout);
  }

  /**
   * Bypassing the solver changes a run only through the plan it keeps:
   * when the solver accepts something, the bypassed run executes the head
   * of the plan of every argument instead of the head of the plan of the
   * extension.
   */
  lemma BypassKeepsFullPlan(af: ArgFramework, plant: Plant)
    requires GroundedExtension(af) != {}
    ensures PlanHeadId(af.args, af.args.Keys).Some?
    ensures RunSpec(true, af, plant) == Execute(af.args[PlanHeadId(af.args, af.args.Keys).value], plant)
    ensures PlanHeadId(af.args, GroundedExtension(af)).Some?
    ensures RunSpec(false, af, plant) == Execute(af.args[PlanHeadId(af.args, GroundedExtension(af)).value], plant)
  {
    var x :| x in GroundedExtension(af);
    assert x in af.args;
  }
}
