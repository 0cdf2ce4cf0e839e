/**
 * What the two single-step plant demos share: how a run ends, the command
 * a plan step sends to the plant, the plant's response as an oracle, and
 * the verdicts of the two polling verifiers stated over that response.
 */
module SingleStep {
  import opened Wrappers
  import opened Json
  import Verify

  /**
   * How a run ends: metrics are logged with a status, steps executed and
   * solver iterations; or the run returns without logging metrics; or it
   * raises.
   */
  datatype Report =
    | Logged(pass: bool, stepsExecuted: nat, afIters: nat)
    | Unlogged
    | Raised(error: string)

  /** The plant command a step sends; `NoCommand` when its action name is not recognised. */
  datatype Command =
    | OpenValve(valve: Json, u: real)
    | SetHeaterPower(p: real)
    | OpenRelief(u: real)
    | Noop
    | NoCommand

  /**
   * The plant's response: the metric sample after `k` simulation steps
   * following a command. The plant's dynamics are not part of this model.
   */
  type Plant = Command -> nat -> real

  /** `float(x)` fails on a value that is neither a number nor a boolean. */
  const NotAFloat := "ValueError: could not convert to float"

  /** The verdict of `in_band` on the samples: some sample within the timeout is within `tol` of `target`. */
  ghost predicate InBandHolds(metric: nat -> real, target: real, tol: real, timeout: real, dt: real) {
    exists k: nat :: k as real * dt <= timeout && Verify.Abs(metric(k) - target) <= tol
  }

  /** The verdict of `reach_threshold`: some sample within the timeout is on the `direction` side of `target`. */
  ghost predicate ThresholdHolds(metric: nat -> real, target: real, direction: string, timeout: real, dt: real) {
    exists k: nat :: k as real * dt <= timeout
      && ((direction == "down" && metric(k) <= target) || (direction == "up" && metric(k) >= target))
  }

  /** `in_band` on the samples, reduced to its verdict. */
  method CheckInBand(metric: nat -> real, target: real, tol: real, timeout: real, dt: real) returns (ok: bool)
    requires dt > 0.0
    ensures ok == InBandHolds(metric, target, tol, timeout, dt)
  {
    var res := Verify.InBand(metric, target, tol, timeout, dt);
    ok := res.passed;
  }

  /** `reach_threshold` on the samples, reduced to its verdict. */
  method CheckThreshold(metric: nat -> real, target: real, direction: string, timeout: real, dt: real)
    returns (ok: bool)
    requires dt > 0.0
    ensures ok == ThresholdHolds(metric, target, direction, timeout, dt)
  {
    var res := Verify.ReachThreshold(metric, target, direction, timeout, dt);
    ok := res.passed;
  }
}
