/**
 * The over-temperature demo: sense the temperature, build the framework,
 * solve and plan, send the first step's command to the plant and check
 * that the temperature settles in the target band. The check always uses
 * the demo's own band, whatever the argument's verify spec says, and a
 * failed check ends the run: there is no diagnosis.
 */
module OvertempRun {
  import opened Wrappers
  import opened Json
  import opened Arguments
  import opened AfSolver
  import opened Planner
  import opened Ablation
  import opened PlantRules
  import opened SingleStep

  const THigh := 80.0
  const Target := 70.0
  const Tol := 0.5
  const Timeout := 30.0
  const Dt := 0.1

  /** The demo's framework for a sensed temperature. */
  function OvertempAf(temp: real): ArgFramework {
    GenerateOvertempAf(temp, THigh, Target, Tol, Timeout)
  }

  /**
   * The command for an action: `open_valve` with the valve name (default
   * "V_cool") and `u` (default 0.7), `set_heater_power` with `p` (default
   * 0.0), `noop`; any other name sends nothing. A parameter that `float`
   * cannot convert raises.
   */
  function Actuate(a: ActionSpec): (r: Result<Command, string>)
    ensures r.Failure? <==>
      (a.name == "open_valve" && PyFloat(Get(a.params, "u", JNum(0.7))).None?)
      || (a.name == "set_heater_power" && PyFloat(Get(a.params, "p", JNum(0.0))).None?)
    ensures r.Failure? ==> r.error == NotAFloat
    ensures a.name == "noop" ==> r == Success(Noop)
    ensures a.name !in {"open_valve", "set_heater_power", "noop"} ==> r == Success(NoCommand)
    ensures a.name == "open_valve" && a.params.Keys !! {"valve", "u"} ==> r == Success(OpenValve(JStr("V_cool"), 0.7))
    ensures a.name == "open_valve" && "u" in a.params && a.params["u"].JNum? ==>
      r.Success? && r.value.OpenValve? && r.value.u == a.params["u"].x
    ensures a.name == "set_heater_power" && "p" !in a.params ==> r == Success(SetHeaterPower(0.0))
  {
    if a.name == "open_valve" then
      match PyFloat(Get(a.params, "u", JNum(0.7)))
      case None => Failure(NotAFloat)
      case Some(u) => Success(OpenValve(Get(a.params, "valve", JStr("V_cool")), u))
    else if a.name == "set_heater_power" then
      match PyFloat(Get(a.params, "p", JNum(0.0)))
      case None => Failure(NotAFloat)
      case Some(p) => Success(SetHeaterPower(p))
    else if a.name == "noop" then Success(Noop)
    else Success(NoCommand)
  }

  /**
   * A run on framework `af`. With the solver bypassed every argument is
   * admitted at first; an empty admission logs FAIL with no step executed
   * and one solver iteration. Otherwise the extension and the plan are
   * recomputed by the solver, whatever the mode: an empty extension
   * returns without metrics. The first plan step alone is executed and
   * checked against the band.
   */
  ghost function RunSpec(noAf: bool, af: ArgFramework, plant: Plant): (r: Report)
    ensures r.Logged? ==> r.afIters == 1 && r.stepsExecuted <= 1
    ensures r == Logged(false, 0, 1) <==> (if noAf then af.args.Keys else GroundedExtension(af)) == {}
    ensures r.Raised? ==> r.error == NotAFloat
  {
    var admitted := if noAf then af.args.Keys else GroundedExtension(af);
    if admitted == {} then Logged(false, 0, 1)
    else
      var ext := GroundedExtension(af);
      if ext == {} then Unlogged
      else
        match PlanHeadId(af.args, ext)
        case None => Unlogged
        case Some(id) =>
          match Actuate(af.args[id].action)
          case Failure(e) => Raised(e)
          case Success(cmd) => Logged(InBandHolds(plant(cmd), Target, Tol, Timeout, Dt), 1, 1)
  }

  /** One run on framework `af`, as `main` performs it after sensing. */
  method Run(noAf: bool, af: ArgFramework, plant: Plant) returns (r: Report)
    ensures r == RunSpec(noAf, af, plant)
  {
    var ext := if noAf then af.args.Keys else GroundedExtension(af);
    if ext == {} {
      return Logged(false, 0, 1);
    }
    ext := GroundedExtension(af);
    if ext == {} {
      return Unlogged;
    }
    var first := FirstPlanned(af.args, ext);
    if first.None? {
      return Unlogged;
    }
    var cmd := Actuate(af.args[first.value].action);
    if cmd.Failure? {
      return Raised(cmd.error);
    }
    var ok := CheckInBand(plant(cmd.value), Target, Tol, Timeout, Dt);
    return Logged(ok, 1, 1);
  }

  /**
   * `main` for a sensed temperature `temp`: the priority and diagnosis
   * switches play no part, so the run depends on the mode only through the
   * solver switch.
   */
  method OvertempMain(mode: Mode, temp: real, plant: Plant) returns (r: Report)
    ensures r == RunSpec(mode.noAf, OvertempAf(temp), plant)
  {
    r := Run(mode.noAf, OvertempAf(temp), plant);
  }

  /**
   * Above the alarm threshold, in every mode, the valve is opened to 0.7
   * and the run passes exactly when the temperature reaches the band
   * within the timeout, after one step and one solver iteration.
   */
  lemma AlarmRun(noAf: bool, temp: real, plant: Plant)
    requires temp > THigh
    ensures RunSpec(noAf, OvertempAf(temp), plant)
      == Logged(InBandHolds(plant(OpenValve(JStr("V_cool"), 0.7)), Target, Tol, Timeout, Dt), 1, 1)
  {
    AlarmShapeHolds(temp);
    ShapedRun(noAf, OvertempAf(temp), plant);
  }

  /** What a run needs to know of the alarm framework. */
  ghost predicate AlarmShape(af: ArgFramework) {
    && GroundedExtension(af) == {"A_cool"}
    && "A_cool" in af.args
    && af.args["A_cool"].action == ActionSpec("open_valve", map["valve" := JStr("V_cool"), "u" := JNum(0.7)])
  }

  lemma AlarmShapeHolds(temp: real)
    requires temp > THigh
    ensures AlarmShape(OvertempAf(temp))
  {
    OvertempAccepted(temp, THigh, Target, Tol, Timeout);
  }

  /** A framework of that shape runs the cooling valve's step. */
  lemma ShapedRun(noAf: bool, af: ArgFramework, plant: Plant)
    requires AlarmShape(af)
    ensures RunSpec(noAf, af, plant)
      == Logged(InBandHolds(plant(OpenValve(JStr("V_cool"), 0.7)), Target, Tol, Timeout, Dt), 1, 1)
  {
    var st := StepFor(af.args, "A_cool");
    StepTotal(st, st);
    PlanHeadIdIs(af.args, {"A_cool"}, "A_cool");
    CoolCommand();
  }

  /** The cooling argument's action opens the valve to 0.7. */
  lemma CoolCommand()
    ensures Actuate(ActionSpec("open_valve", map["valve" := JStr("V_cool"), "u" := JNum(0.7)]))
      == Success(OpenValve(JStr("V_cool"), 0.7))
  {
  }

  /** At or below the threshold nothing is admitted, and the run logs FAIL with no step. */
  lemma QuietRun(noAf: bool, temp: real, plant: Plant)
    requires !(temp > THigh)
    ensures RunSpec(noAf, OvertempAf(temp), plant) == Logged(false, 0, 1)
  {
    NoAlarmNothingAccepted(temp, THigh, Target, Tol, Timeout);
  }

  /**
   * Bypassing the solver changes a run only when the solver accepts
   * nothing although arguments exist: the bypass then returns without
   * metrics where the solver logs FAIL.
   */
  lemma BypassOverridden(af: ArgFramework, plant: Plant)
    requires af.args.Keys != {}
    ensures GroundedExtension(af) != {} ==> RunSpec(true, af, plant) == RunSpec(false, af, plant)
    ensures GroundedExtension(af) == {} ==>
      RunSpec(true, af, plant) == Unlogged && RunSpec(false, af, plant) == Logged(false, 0, 1)
  {
  }
}
