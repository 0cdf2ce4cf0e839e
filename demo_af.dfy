/** The demonstration framework: the over-temperature arguments with fixed verifier parameters. */
module DemoAf {
  import opened Json
  import opened Arguments
  import opened AfSolver

  function InBandTemp(): VerifySpec {
    VerifySpec("in_band", map["metric" := JStr("temp"), "target" := JNum(70.0), "tol" := JNum(0.5),
                              "timeout_s" := JNum(30.0)])
  }

  /** `make_demo_af`: cool (10), wait (1) and heat (0), cooling attacking the other two. */
  function MakeDemoAf(): (r: ArgFramework)
    ensures r.args.Keys == {"A_cool", "A_wait", "A_heat"}
    ensures r.attacks == {("A_cool", "A_wait"), ("A_cool", "A_heat")}
    ensures KeyedById(r.args)
    ensures r.args["A_cool"].priority == 10 && r.args["A_wait"].priority == 1 && r.args["A_heat"].priority == 0
  {
    ArgFramework(
      map["A_cool" := Argument("A_cool", "plant", "overtemp_alarm", ["temp > T_HIGH"],
                               ActionSpec("open_valve", map["valve" := JStr("V_cool"), "u" := JNum(0.6)]),
                               ["d/dt temp < 0"], InBandTemp(), 10, 200),
          "A_wait" := Argument("A_wait", "plant", "overtemp_alarm", ["temp > T_HIGH"],
                               ActionSpec("noop", map[]), ["d/dt temp ~ 0"],
                               VerifySpec("still_high", map["metric" := JStr("temp"), "threshold" := JNum(75.0),
                                                            "timeout_s" := JNum(10.0)]),
                               1, 200),
          "A_heat" := Argument("A_heat", "plant", "overtemp_alarm", ["temp > T_HIGH"],
                               ActionSpec("set_heater_power", map["p" := JNum(1.0)]),
                               ["d/dt temp > 0"], InBandTemp(), 0, 200)],
      {("A_cool", "A_wait"), ("A_cool", "A_heat")})
  }

  /** The expected extension is {A_cool}, and both attacks survive the priority filter. */
  lemma DemoAccepted()
    ensures GroundedExtension(MakeDemoAf()) == {"A_cool"}
    ensures PriorityFiltered(MakeDemoAf().args, MakeDemoAf().attacks) == MakeDemoAf().attacks
  {
    var af := MakeDemoAf();
    assert ("A_cool", "A_wait") in af.attacks && ("A_cool", "A_heat") in af.attacks;
    assert "A_cool" in GroundedExtension(af);
  }
}
