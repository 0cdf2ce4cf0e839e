/**
 * The over-pressure rule set: when the pressure is above the alarm
 * threshold, open the relief valve (priority 10), reduce the inflow (8) or
 * wait (1); relief attacks the other two.
 */
module PlantOverpressureRules {
  import opened Json
  import opened Arguments
  import opened AfSolver

  const AlarmPre := "pressure > P_HIGH"

  function ReliefArg(target: real, timeoutS: real): Argument {
    Argument("A_relief", "plant", "overpressure_alarm", [AlarmPre],
      ActionSpec("open_relief", map["u" := JNum(0.9)]),
      ["d/dt pressure < 0"],
      VerifySpec("in_band", map["metric" := JStr("pressure"), "target" := JNum(target), "tol" := JNum(0.05),
                                "timeout_s" := JNum(timeoutS)]),
      10, 200, "plant_policy", "policy")
  }

  function ReduceInflowArg(target: real, timeoutS: real): Argument {
    Argument("A_reduce_inflow", "plant", "overpressure_alarm", [AlarmPre],
      ActionSpec("set_inflow", map["q" := JNum(0.1)]),
      ["d/dt pressure < 0"],
      VerifySpec("in_band", map["metric" := JStr("pressure"), "target" := JNum(target), "tol" := JNum(0.02),
                                "timeout_s" := JNum(timeoutS)]),
      8, 200, "plant_policy", "policy")
  }

  function WaitArg(pHigh: real): Argument {
    Argument("A_wait", "plant", "overpressure_alarm", [AlarmPre],
      ActionSpec("noop", map[]),
      ["d/dt pressure ~ 0"],
      VerifySpec("still_high", map["metric" := JStr("pressure"), "threshold" := JNum(pHigh),
                                   "timeout_s" := JNum(10.0)]),
      1, 200, "plant_policy", "policy")
  }

  /**
   * `generate_overpressure_AF`: the empty framework unless the pressure is
   * strictly above the threshold; otherwise the three arguments, all
   * requiring the alarm, and the two attacks of relief.
   */
  function GenerateOverpressureAf(pressure: real, pHigh: real, target: real, timeoutS: real): (r: ArgFramework)
    ensures !(pressure > pHigh) ==> r.args == map[] && r.attacks == {}
    ensures pressure > pHigh ==> r.args.Keys == {"A_relief", "A_reduce_inflow", "A_wait"}
    ensures pressure > pHigh ==> r.attacks == {("A_relief", "A_wait"), ("A_relief", "A_reduce_inflow")}
    ensures pressure > pHigh ==> KeyedById(r.args)
    ensures pressure > pHigh ==> forall id | id in r.args :: r.args[id].pre == [AlarmPre]
    ensures pressure > pHigh ==>
      (r.args["A_relief"].priority == 10 && r.args["A_reduce_inflow"].priority == 8
       && r.args["A_wait"].priority == 1)
  {
    if !(pressure > pHigh) then ArgFramework(map[], {})
    else
      ArgFramework(
        map["A_relief" := ReliefArg(target, timeoutS),
            "A_reduce_inflow" := ReduceInflowArg(target, timeoutS),
            "A_wait" := WaitArg(pHigh)],
        {("A_relief", "A_wait"), ("A_relief", "A_reduce_inflow")})
  }

  /** Under an alarm only relief is accepted, and the priority filter keeps both attacks. */
  lemma OverpressureAccepted(pressure: real, pHigh: real, target: real, timeoutS: real)
    requires pressure > pHigh
    ensures var af := GenerateOverpressureAf(pressure, pHigh, target, timeoutS);
      GroundedExtension(af) == {"A_relief"} && PriorityFiltered(af.args, af.attacks) == af.attacks
  {
    var af := GenerateOverpressureAf(pressure, pHigh, target, timeoutS);
    assert ("A_relief", "A_wait") in af.attacks && ("A_relief", "A_reduce_inflow") in af.attacks;
    assert "A_relief" in GroundedExtension(af);
  }
}
