/**
 * The landing-policy rule set: an aggressive and a conservative policy,
 * the conservative one preferred and attacking the other.
 */
module DroneRules {
  import opened Json
  import opened Arguments
  import opened AfSolver

  /** The after-simulation check both policies carry. */
  function LandingCheck(zoneRadius: real, maxSpeed: real, maxTime: real): VerifySpec {
    VerifySpec("after_sim_verify_all",
      map["zone_r" := JNum(zoneRadius), "max_speed" := JNum(maxSpeed), "max_time" := JNum(maxTime)])
  }

  function PolicyArg(id: string, policy: string, priority: int, check: VerifySpec): Argument {
    Argument(id, "drone", "policy", [],
      ActionSpec("set_policy", map["name" := JStr(policy)]),
      ["policy_set:" + policy],
      check, priority, 0, "drone_policy", "policy")
  }

  /**
   * `generate_landing_AF` (its keyword defaults are 1.0, 0.6 and 20.0; the
   * landing demo passes 1.5, 0.6 and 20.0):
   * two policy arguments without preconditions, aggressive at priority 0 and
   * conservative at 1, with the single attack of conservative on aggressive.
   */
  function GenerateLandingAf(zoneRadius: real, maxSpeed: real, maxTime: real): (r: ArgFramework)
    ensures r.args.Keys == {"A_policy_aggr", "A_policy_cons"}
    ensures r.attacks == {("A_policy_cons", "A_policy_aggr")}
    ensures KeyedById(r.args)
    ensures r.args["A_policy_aggr"].priority == 0 && r.args["A_policy_cons"].priority == 1
    ensures r.args["A_policy_aggr"].pre == [] && r.args["A_policy_cons"].pre == []
    ensures r.args["A_policy_aggr"].verify == r.args["A_policy_cons"].verify
    ensures r.args["A_policy_aggr"].action.params == map["name" := JStr("aggressive")]
    ensures r.args["A_policy_cons"].action.params == map["name" := JStr("conservative")]
    ensures r.args["A_policy_aggr"].action.name == "set_policy" && r.args["A_policy_cons"].action.name == "set_policy"
    ensures r.args["A_policy_aggr"].deadlineMs == 0 && r.args["A_policy_cons"].deadlineMs == 0
    ensures r.args["A_policy_aggr"].verify == LandingCheck(zoneRadius, maxSpeed, maxTime)
  {
    var check := LandingCheck(zoneRadius, maxSpeed, maxTime);
    ArgFramework(
      map["A_policy_aggr" := PolicyArg("A_policy_aggr", "aggressive", 0, check),
          "A_policy_cons" := PolicyArg("A_policy_cons", "conservative", 1, check)],
      {("A_policy_cons", "A_policy_aggr")})
  }

  /** The attack survives the priority filter (1 >= 0), and only the conservative policy is accepted. */
  lemma LandingAccepted(zoneRadius: real, maxSpeed: real, maxTime: real)
    ensures var af := GenerateLandingAf(zoneRadius, maxSpeed, maxTime);
      PriorityFiltered(af.args, af.attacks) == af.attacks && GroundedExtension(af) == {"A_policy_cons"}
  {
    var af := GenerateLandingAf(zoneRadius, maxSpeed, maxTime);
    assert ("A_policy_cons", "A_policy_aggr") in af.attacks;
    assert "A_policy_cons" in GroundedExtension(af);
  }
}
