/**
 * Per-phase timing rows and deadline classification. Clock readings
 * are inputs: the session's start time and, for each measured block,
 * the readings taken before and after it.
 */
module Timing {
  import opened Wrappers

  /** One row of the timing log; a row without a deadline records -1.0. */
  datatype TimingEvent = TimingEvent(
    iter: nat, phase: string, stepId: string, stepLabel: string,
    tMs: real, dtMs: real, deadlineMs: real, status: string)

  /** `hard_ratio or 1.0`: a zero ratio falls back to 1.0. */
  function EffectiveRatio(hardRatio: real): real {
    if hardRatio == 0.0 then 1.0 else hardRatio
  }

  /**
   * Deadline status of a block that took `dt` ms: empty without a
   * deadline, else PASS within it, SOFTMISS within the hard limit
   * `ratio * deadline`, HARDMISS beyond both.
   */
  function Classify(dt: real, deadline: Option<real>, hardRatio: real): (s: string)
    ensures s == "" <==> deadline.None?
    ensures s == "PASS" <==> deadline.Some? && dt <= deadline.value
    ensures s == "SOFTMISS" <==>
      deadline.Some? && deadline.value < dt <= EffectiveRatio(hardRatio) * deadline.value
    ensures s == "HARDMISS" <==>
      deadline.Some? && deadline.value < dt && EffectiveRatio(hardRatio) * deadline.value < dt
  {
    match deadline
    case None => ""
    case Some(d) =>
      if dt <= d then "PASS"
      else if dt <= EffectiveRatio(hardRatio) * d then "SOFTMISS"
      else "HARDMISS"
  }

  function Severity(status: string): nat {
    if status == "SOFTMISS" then 1 else if status == "HARDMISS" then 2 else 0
  }

  /** A slower block never gets a better status under the same deadline. */
  lemma ClassifyMonotone(dt1: real, dt2: real, deadline: Option<real>, hardRatio: real)
    requires dt1 <= dt2
    ensures Severity(Classify(dt1, deadline, hardRatio)) <= Severity(Classify(dt2, deadline, hardRatio))
  {
  }

  /** With the default ratio (or any ratio up to 1) and a non-negative deadline there is no soft band. */
  lemma NoSoftBandWithoutSlack(dt: real, d: real, hardRatio: real)
    requires d >= 0.0 && EffectiveRatio(hardRatio) <= 1.0
    ensures Classify(dt, Some(d), hardRatio) != "SOFTMISS"
  {
    assert EffectiveRatio(hardRatio) * d <= d;
  }

  /** The timing log of one run: rows in the order blocks finished. */
  class TimingSession {
    var rows: seq<TimingEvent>
    var iterIdx: nat
    const t0: real

    /** A session starts at `startMs` when given, else at the clock reading `nowMs`. */
    constructor (startMs: Option<real>, nowMs: real)
      ensures rows == [] && iterIdx == 0
      ensures t0 == (if startMs.Some? then startMs.value else nowMs)
    {
      rows := [];
      iterIdx := 0;
      t0 := if startMs.Some? then startMs.value else nowMs;
    }

    method NewIter()
      modifies this
      ensures iterIdx == old(iterIdx) + 1 && rows == old(rows)
    {
      iterIdx := iterIdx + 1;
    }

    /**
     * Record a block measured from `t1` to `t2`: one row appended, stamped
     * with the current iteration, its offset from the session start, its
     * duration and its deadline status. The row is recorded whether or not
     * the block itself succeeded.
     */
    method Measure(phase: string, stepId: string, stepLabel: string,
                   deadline: Option<real>, hardRatio: real, t1: real, t2: real)
      returns (ev: TimingEvent)
      modifies this
      ensures ev.dtMs == t2 - t1 && ev.tMs == t2 - t0 && ev.iter == iterIdx
      ensures ev.deadlineMs == (if deadline.Some? then deadline.value else -1.0)
      ensures ev.status == Classify(t2 - t1, deadline, hardRatio)
      ensures ev.phase == phase && ev.stepId == stepId && ev.stepLabel == stepLabel
      ensures rows == old(rows) + [ev] && iterIdx == old(iterIdx)
    {
      var dt := t2 - t1;
      var status := "";
      if deadline.Some? {
        var hard := EffectiveRatio(hardRatio) * deadline.value;
        if dt <= deadline.value {
          status := "PASS";
        } else if dt <= hard {
          status := "SOFTMISS";
        } else {
          status := "HARDMISS";
        }
      }
      ev := TimingEvent(iterIdx, phase, stepId, stepLabel, t2 - t0, dt,
        if deadline.Some? then deadline.value else -1.0, status);
      rows := rows + [ev];
    }
  }
}
