/**
 * The drone sweep tool: for every cell of a wind grid, choose the landing
 * policy through the framework, simulate and check it, and on failure
 * retry once with the other policy; the grid's policy, success and
 * touchdown-time maps record each cell's outcome.
 *
 * The simulator for a cell is the parameter `sims(j, i)`, for the gust
 * amplitude of row `j` and the wind speed of column `i`.
 */
module SweepDrone {
  import opened Wrappers
  import opened Json
  import opened Arguments
  import opened AfSolver
  import opened Planner
  import opened DroneRules
  import opened Landing

  /** What the policy choice gives: a policy (None when the plan names none), or the filter's KeyError. */
  datatype Choice = Chosen(policy: Option<Json>) | Raised

  /**
   * `choose_policy_via_AF` on a framework: filter the attacks by priority
   * (always, whatever the ablation mode), solve, plan, and take the policy
   * of the first `set_policy` step.
   */
  ghost function ChoiceSpec(af0: ArgFramework): (r: Choice)
    ensures r.Raised? <==> !EndpointsKnown(af0.args, af0.attacks)
  {
    if !EndpointsKnown(af0.args, af0.attacks) then Raised
    else
      var ext := GroundedExtension(ArgFramework(af0.args, PriorityFiltered(af0.args, af0.attacks)));
      var steps := PlanOfSet(af0.args, ext);
      match FirstSetPolicy(af0.args, steps)
      case None => Chosen(None)
      case Some(k) => Chosen(PolicyName(af0.args[steps[k].argId].action.params))
  }

  method ChoosePolicy(af0: ArgFramework) returns (r: Choice)
    ensures r == ChoiceSpec(af0)
  {
    var eff := FilterAttacksByPriority(af0.args, af0.attacks);
    if eff.Failure? {
      return Raised;
    }
    var ext := GroundedExtension(ArgFramework(af0.args, eff.value));
    var steps := OrderPlanFromSet(af0.args, ext);
    var k := SelectPolicy(af0.args, steps);
    if k.None? {
      return Chosen(None);
    }
    return Chosen(PolicyName(af0.args[steps[k.value].argId].action.params));
  }

  /** `choose_policy_via_AF(zone_r, max_speed, max_time)`. */
  method ChoosePolicyViaAf(zoneR: real, maxSpeed: real, maxTime: real) returns (r: Choice)
    ensures r == ChoiceSpec(GenerateLandingAf(zoneR, maxSpeed, maxTime))
  {
    r := ChoosePolicy(GenerateLandingAf(zoneR, maxSpeed, maxTime));
  }

  /** Whatever the bounds, the sweep's choice is the conservative policy. */
  lemma ConservativeChosen(zoneR: real, maxSpeed: real, maxTime: real)
    ensures ChoiceSpec(GenerateLandingAf(zoneR, maxSpeed, maxTime)) == Chosen(Some(JStr("conservative")))
  {
    var af := GenerateLandingAf(zoneR, maxSpeed, maxTime);
    LandingAccepted(zoneR, maxSpeed, maxTime);
    assert ChoiceShape(af);
    ShapedChoice(af);
  }

  /** What the choice needs to know of the landing framework. */
  ghost predicate ChoiceShape(af: ArgFramework) {
    && EndpointsKnown(af.args, af.attacks)
    && GroundedExtension(ArgFramework(af.args, PriorityFiltered(af.args, af.attacks))) == {"A_policy_cons"}
    && "A_policy_cons" in af.args
    && af.args["A_policy_cons"].action == ActionSpec("set_policy", map["name" := JStr("conservative")])
  }

  /** A framework of that shape plans the conservative step alone, and that step names the policy. */
  lemma ShapedChoice(af: ArgFramework)
    requires ChoiceShape(af)
    ensures ChoiceSpec(af) == Chosen(Some(JStr("conservative")))
  {
    SingleStepPlan(af.args, "A_policy_cons");
    assert IsSetPolicy(af.args, StepFor(af.args, "A_policy_cons"));
  }

  // ---------------------------------------------------------------------
  // One grid cell.

  /** A cell's outcome: the policy first tried, the policy last tried, its verdict and its touchdown time. */
  datatype CellOutcome = CellOutcome(initial: Json, final: Json, ok: bool, touchdown: real)

  /**
   * One cell: the chosen policy, or "conservative" when none was chosen,
   * is simulated and checked; on failure the opposite policy is simulated
   * and checked once, and its verdict stands.
   */
  function Cell(policy: Option<Json>, sim: Sim, zoneR: real, maxSpeed: real, maxTime: real): CellOutcome {
    var first := if policy.Some? then policy.value else JStr("conservative");
    var t := sim(Aggressive(first));
    if VerifyAfterSim(t, zoneR, maxSpeed, maxTime) then CellOutcome(first, first, true, t.time)
    else
      var second := Opposite(first);
      var t2 := sim(Aggressive(second));
      CellOutcome(first, second, VerifyAfterSim(t2, zoneR, maxSpeed, maxTime), t2.time)
  }

  /**
   * A cell starts from the chosen policy or the fallback, keeps it exactly
   * when its landing passes and otherwise switches to the opposite one;
   * the cell succeeds exactly when one of the two landings passes, and
   * its touchdown time is the last landing's.
   */
  lemma CellRetry(policy: Option<Json>, sim: Sim, zoneR: real, maxSpeed: real, maxTime: real)
    ensures var r := Cell(policy, sim, zoneR, maxSpeed, maxTime);
      && r.initial == (if policy.Some? then policy.value else JStr("conservative"))
      && (r.final == r.initial <==> VerifyAfterSim(sim(Aggressive(r.initial)), zoneR, maxSpeed, maxTime))
      && (r.final != r.initial ==> r.final == Opposite(r.initial))
      && (r.ok <==> VerifyAfterSim(sim(Aggressive(r.initial)), zoneR, maxSpeed, maxTime)
                    || VerifyAfterSim(sim(!Aggressive(r.initial)), zoneR, maxSpeed, maxTime))
      && r.touchdown == sim(Aggressive(r.final)).time
  {
  }

  /** The policy map's value for a cell: 1 for conservative, 0 for anything else. */
  function PolicyValue(final: Json): real {
    if final == JStr("conservative") then 1.0 else 0.0
  }

  /**
   * With the conservative policy chosen, a cell's policy value is 1
   * exactly when the conservative landing passes, and the cell succeeds
   * exactly when either landing passes.
   */
  lemma ConservativeCell(sim: Sim, zoneR: real, maxSpeed: real, maxTime: real)
    ensures var c := Cell(Some(JStr("conservative")), sim, zoneR, maxSpeed, maxTime);
      (PolicyValue(c.final) == 1.0 <==> VerifyAfterSim(sim(false), zoneR, maxSpeed, maxTime))
      && (c.ok <==> VerifyAfterSim(sim(false), zoneR, maxSpeed, maxTime)
                    || VerifyAfterSim(sim(true), zoneR, maxSpeed, maxTime))
  {
    var c := Cell(Some(JStr("conservative")), sim, zoneR, maxSpeed, maxTime);
    CellRetry(Some(JStr("conservative")), sim, zoneR, maxSpeed, maxTime);
    assert !Aggressive(c.initial);
    if c.final != c.initial {
      assert c.final == JStr("aggressive");
    }
  }

  // ---------------------------------------------------------------------
  // The sweep.

  /**
   * `sweep` over a grid of `gustN` rows and `vxN` columns: the maps start
   * at -1 (policy), 0 (success) and `maxTime + 1` (touchdown time), and
   * every cell is filled from its own outcome. The choice is made afresh
   * for every cell, so a framework the filter rejects raises at the first
   * cell and an empty grid raises nothing.
   */
  method Sweep(gustN: nat, vxN: nat, sims: (nat, nat) -> Sim, zoneR: real, maxSpeed: real, maxTime: real)
    returns (raised: bool, policyMap: array2<real>, successMap: array2<real>, ttdMap: array2<real>)
    ensures fresh(policyMap) && fresh(successMap) && fresh(ttdMap)
    ensures raised <==> gustN > 0 && vxN > 0 && ChoiceSpec(GenerateLandingAf(zoneR, maxSpeed, maxTime)).Raised?
    ensures !raised ==>
      && policyMap.Length0 == gustN && policyMap.Length1 == vxN
      && successMap.Length0 == gustN && successMap.Length1 == vxN
      && ttdMap.Length0 == gustN && ttdMap.Length1 == vxN
    ensures !raised ==> forall j, i | 0 <= j < gustN && 0 <= i < vxN ::
      CellFilled(policyMap, successMap, ttdMap, j, i,
                 CellOf(ChoiceSpec(GenerateLandingAf(zoneR, maxSpeed, maxTime)), sims(j, i), zoneR, maxSpeed, maxTime))
  {
    var af0 := GenerateLandingAf(zoneR, maxSpeed, maxTime);
    raised, policyMap, successMap, ttdMap := SweepGrid(af0, gustN, vxN, sims, zoneR, maxSpeed, maxTime);
  }

  /** The sweep with the choice made on `af0` in every cell. */
  method SweepGrid(af0: ArgFramework, gustN: nat, vxN: nat, sims: (nat, nat) -> Sim,
                   zoneR: real, maxSpeed: real, maxTime: real)
    returns (raised: bool, policyMap: array2<real>, successMap: array2<real>, ttdMap: array2<real>)
    ensures fresh(policyMap) && fresh(successMap) && fresh(ttdMap)
    ensures raised <==> gustN > 0 && vxN > 0 && ChoiceSpec(af0).Raised?
    ensures !raised ==>
      && policyMap.Length0 == gustN && policyMap.Length1 == vxN
      && successMap.Length0 == gustN && successMap.Length1 == vxN
      && ttdMap.Length0 == gustN && ttdMap.Length1 == vxN
    ensures !raised ==> forall j, i | 0 <= j < gustN && 0 <= i < vxN ::
      CellFilled(policyMap, successMap, ttdMap, j, i, CellOf(ChoiceSpec(af0), sims(j, i), zoneR, maxSpeed, maxTime))
  {
    policyMap := new real[gustN, vxN]((_, _) => -1.0);
    successMap := new real[gustN, vxN]((_, _) => 0.0);
    ttdMap := new real[gustN, vxN]((_, _) => maxTime + 1.0);
    var j := 0;
    while j < gustN
      invariant 0 <= j <= gustN
      invariant j > 0 && vxN > 0 ==> ChoiceSpec(af0).Chosen?
      invariant forall j', i | 0 <= j' < j && 0 <= i < vxN ::
        CellFilled(policyMap, successMap, ttdMap, j', i, CellOf(ChoiceSpec(af0), sims(j', i), zoneR, maxSpeed, maxTime))
    {
      raised := FillRow(af0, j, sims, zoneR, maxSpeed, maxTime, policyMap, successMap, ttdMap);
      if raised {
        return;
      }
      j := j + 1;
    }
    raised := false;
  }

  /** Row `j` of the sweep: every cell of the row, left to right; other rows are untouched. */
  method FillRow(af0: ArgFramework, j: nat, sims: (nat, nat) -> Sim, zoneR: real, maxSpeed: real, maxTime: real,
                 policyMap: array2<real>, successMap: array2<real>, ttdMap: array2<real>)
    returns (raised: bool)
    requires policyMap != successMap && policyMap != ttdMap && successMap != ttdMap
    requires j < policyMap.Length0 && j < successMap.Length0 && j < ttdMap.Length0
    requires successMap.Length0 == policyMap.Length0 && ttdMap.Length0 == policyMap.Length0
    requires successMap.Length1 == policyMap.Length1 && ttdMap.Length1 == policyMap.Length1
    modifies policyMap, successMap, ttdMap
    ensures raised <==> policyMap.Length1 > 0 && ChoiceSpec(af0).Raised?
    ensures !raised ==> forall i | 0 <= i < policyMap.Length1 ::
      CellFilled(policyMap, successMap, ttdMap, j, i, CellOf(ChoiceSpec(af0), sims(j, i), zoneR, maxSpeed, maxTime))
    ensures forall j', i | 0 <= j' < policyMap.Length0 && j' != j && 0 <= i < policyMap.Length1 ::
      policyMap[j', i] == old(policyMap[j', i]) && successMap[j', i] == old(successMap[j', i])
      && ttdMap[j', i] == old(ttdMap[j', i])
  {
    var i := 0;
    while i < policyMap.Length1
      invariant 0 <= i <= policyMap.Length1
      invariant i > 0 ==> ChoiceSpec(af0).Chosen?
      invariant forall i' | 0 <= i' < i ::
        CellFilled(policyMap, successMap, ttdMap, j, i', CellOf(ChoiceSpec(af0), sims(j, i'), zoneR, maxSpeed, maxTime))
      invariant forall j', i' | 0 <= j' < policyMap.Length0 && j' != j && 0 <= i' < policyMap.Length1 ::
        policyMap[j', i'] == old(policyMap[j', i']) && successMap[j', i'] == old(successMap[j', i'])
        && ttdMap[j', i'] == old(ttdMap[j', i'])
    {
      raised := FillCell(af0, j, i, sims, zoneR, maxSpeed, maxTime, policyMap, successMap, ttdMap);
      if raised {
        return;
      }
      i := i + 1;
    }
    return false;
  }

  /** Cell `(j, i)`: choose the policy, land once or twice, and record the outcome in the three maps. */
  method FillCell(af0: ArgFramework, j: nat, i: nat, sims: (nat, nat) -> Sim, zoneR: real, maxSpeed: real,
                  maxTime: real, policyMap: array2<real>, successMap: array2<real>, ttdMap: array2<real>)
    returns (raised: bool)
    requires policyMap != successMap && policyMap != ttdMap && successMap != ttdMap
    requires j < policyMap.Length0 && i < policyMap.Length1
    requires successMap.Length0 == policyMap.Length0 && ttdMap.Length0 == policyMap.Length0
    requires successMap.Length1 == policyMap.Length1 && ttdMap.Length1 == policyMap.Length1
    modifies policyMap, successMap, ttdMap
    ensures raised <==> ChoiceSpec(af0).Raised?
    ensures !raised ==>
      CellFilled(policyMap, successMap, ttdMap, j, i, CellOf(ChoiceSpec(af0), sims(j, i), zoneR, maxSpeed, maxTime))
    ensures forall j', i' | 0 <= j' < policyMap.Length0 && 0 <= i' < policyMap.Length1 && (j' != j || i' != i) ::
      policyMap[j', i'] == old(policyMap[j', i']) && successMap[j', i'] == old(successMap[j', i'])
      && ttdMap[j', i'] == old(ttdMap[j', i'])
  {
    var choice := ChoosePolicy(af0);
    if choice.Raised? {
      return true;
    }
    var c := Cell(choice.policy, sims(j, i), zoneR, maxSpeed, maxTime);
    policyMap[j, i] := PolicyValue(c.final);
    successMap[j, i] := if c.ok then 1.0 else 0.0;
    ttdMap[j, i] := c.touchdown;
    return false;
  }

  /** The outcome of a cell under a choice that did not raise. */
  function CellOf(choice: Choice, sim: Sim, zoneR: real, maxSpeed: real, maxTime: real): CellOutcome {
    Cell(if choice.Chosen? then choice.policy else None, sim, zoneR, maxSpeed, maxTime)
  }

  /**
   * On the landing framework the sweep never raises, and every cell runs
   * the conservative landing first.
   */
  lemma SweepCellConservative(sim: Sim, zoneR: real, maxSpeed: real, maxTime: real)
    ensures !ChoiceSpec(GenerateLandingAf(zoneR, maxSpeed, maxTime)).Raised?
    ensures CellOf(ChoiceSpec(GenerateLandingAf(zoneR, maxSpeed, maxTime)), sim, zoneR, maxSpeed, maxTime)
      == Cell(Some(JStr("conservative")), sim, zoneR, maxSpeed, maxTime)
  {
    ConservativeChosen(zoneR, maxSpeed, maxTime);
  }

  /** The three maps hold cell `(j, i)`'s policy value, success and touchdown time. */
  ghost predicate CellFilled(policyMap: array2<real>, successMap: array2<real>, ttdMap: array2<real>,
                             j: nat, i: nat, c: CellOutcome)
    reads policyMap, successMap, ttdMap
  {
    && j < policyMap.Length0 && i < policyMap.Length1
    && j < successMap.Length0 && i < successMap.Length1
    && j < ttdMap.Length0 && i < ttdMap.Length1
    && policyMap[j, i] == PolicyValue(c.final)
    && successMap[j, i] == (if c.ok then 1.0 else 0.0)
    && ttdMap[j, i] == c.touchdown
  }
}
