/**
 * The over-temperature rule set: when the temperature is above the alarm
 * threshold, cool (priority 10), wait (1) or heat (0); cooling attacks the
 * other two.
 */
module PlantRules {
  import opened Json
  import opened Arguments
  import opened AfSolver

  function CoolArg(target: real, tol: real, timeoutS: real): Argument {
    Argument("A_cool", "plant", "overtemp_alarm", ["temp > T_HIGH"],
      ActionSpec("open_valve", map["valve" := JStr("V_cool"), "u" := JNum(0.7)]),
      ["d/dt temp < 0"],
      VerifySpec("in_band", map["metric" := JStr("temp"), "target" := JNum(target), "tol" := JNum(tol),
                                "timeout_s" := JNum(timeoutS)]),
      10, 200, "policy")
  }

  function WaitArg(tHigh: real): Argument {
    Argument("A_wait", "plant", "overtemp_alarm", ["temp > T_HIGH"],
      ActionSpec("noop", map[]),
      ["d/dt temp ~ 0"],
      VerifySpec("still_high", map["metric" := JStr("temp"), "threshold" := JNum(tHigh), "timeout_s" := JNum(10.0)]),
      1, 200, "safety")
  }

  function HeatArg(target: real, tol: real, timeoutS: real): Argument {
    Argument("A_heat", "plant", "overtemp_alarm", ["temp > T_HIGH"],
      ActionSpec("set_heater_power", map["p" := JNum(1.0)]),
      ["d/dt temp > 0"],
      VerifySpec("in_band", map["metric" := JStr("temp"), "target" := JNum(target), "tol" := JNum(tol),
                                "timeout_s" := JNum(timeoutS)]),
      0, 200)
  }

  /**
   * `generate_overtemp_AF`: the empty framework unless the temperature is
   * strictly above the threshold; otherwise the three arguments, every one
   * due within 200 ms, and the two attacks of cooling.
   */
  function GenerateOvertempAf(temp: real, tHigh: real, target: real, tol: real, timeoutS: real): (r: ArgFramework)
    ensures !(temp > tHigh) ==> r.args == map[] && r.attacks == {}
    ensures temp > tHigh ==> r.args.Keys == {"A_cool", "A_wait", "A_heat"}
    ensures temp > tHigh ==> r.attacks == {("A_cool", "A_wait"), ("A_cool", "A_heat")}
    ensures temp > tHigh ==> KeyedById(r.args)
    ensures temp > tHigh ==>
      (r.args["A_cool"].priority == 10 && r.args["A_wait"].priority == 1 && r.args["A_heat"].priority == 0
       && r.args["A_cool"].deadlineMs == 200 && r.args["A_wait"].deadlineMs == 200
       && r.args["A_heat"].deadlineMs == 200)
  {
    if !(temp > tHigh) then ArgFramework(map[], {})
    else
      ArgFramework(
        map["A_cool" := CoolArg(target, tol, timeoutS),
            "A_wait" := WaitArg(tHigh),
            "A_heat" := HeatArg(target, tol, timeoutS)],
        {("A_cool", "A_wait"), ("A_cool", "A_heat")})
  }

  /** Under an alarm only cooling is accepted, and the priority filter keeps both attacks. */
  lemma OvertempAccepted(temp: real, tHigh: real, target: real, tol: real, timeoutS: real)
    requires temp > tHigh
    ensures var af := GenerateOvertempAf(temp, tHigh, target, tol, timeoutS);
      GroundedExtension(af) == {"A_cool"} && PriorityFiltered(af.args, af.attacks) == af.attacks
  {
    var af := GenerateOvertempAf(temp, tHigh, target, tol, timeoutS);
    assert ("A_cool", "A_wait") in af.attacks && ("A_cool", "A_heat") in af.attacks;
    assert "A_cool" in GroundedExtension(af);
  }

  /** Without an alarm nothing is accepted. */
  lemma NoAlarmNothingAccepted(temp: real, tHigh: real, target: real, tol: real, timeoutS: real)
    requires !(temp > tHigh)
    ensures GroundedExtension(GenerateOvertempAf(temp, tHigh, target, tol, timeoutS)) == {}
  {
  }
}
