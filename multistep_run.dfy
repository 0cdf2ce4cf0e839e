/**
 * The multistep desktop demo's execution. The language model's arguments
 * and attacks are solved once (with the ablation switches applied), the
 * accepted arguments are planned, and the plan runs through the
 * precondition-gated queue. A step is actuated, its effects are recorded,
 * and then it is checked; a failed check either ends the run (no
 * diagnosis) or adds a diagnosis argument that defeats the failed step,
 * re-solves, re-plans and replaces the queue. The pop budget is four per
 * step of the first plan and is never reset.
 *
 * Creating directories and writing files always succeed here (the demo
 * does not look at their result); a process's exit code comes from
 * `exitCode`, and the checks look at the workspace `ws`.
 */
module MultistepRun {
  import opened Wrappers
  import opened Json
  import opened Arguments
  import opened AfSolver
  import opened Planner
  import PlanQueue
  import opened Ablation
  import opened MultistepAf
  import opened MultistepChecks

  /** What the workspace shows the checks, and a process's exit code by command and directory. */
  datatype World = World(ws: Workspace, exitCode: (seq<Json>, Json) -> int)

  /** What attempting one ready step came to. */
  datatype StepResult =
    | Verified(facts: set<string>)      // actuated and every check passed
    | CheckFailed(facts: set<string>)   // actuated, but a check did not pass
    | ProcFailed                        // the process exited non-zero
    | Unsupported                       // an action the demo does not know
    | Crash(message: string)            // a parameter lookup or a check raised

  /** `add_effects`. */
  function AddEffects(facts: set<string>, effects: seq<string>): (r: set<string>)
    ensures forall f :: f in r <==> f in facts || f in effects
  {
    facts + set e | e in effects
  }

  /** The outcome of checking a step once its effects are recorded. */
  function Checked(w: World, a: Argument, facts: set<string>): (r: StepResult)
    ensures r.Verified? <==> VerifyAllSpec(w.ws, Verifiers(a.verify)) == Success(true)
    ensures r.CheckFailed? <==> VerifyAllSpec(w.ws, Verifiers(a.verify)) == Success(false)
    ensures r.Verified? || r.CheckFailed? ==> r.facts == facts
    ensures !r.ProcFailed? && !r.Unsupported?
  {
    match VerifyAllSpec(w.ws, Verifiers(a.verify))
    case Failure(m) => Crash(m)
    case Success(ok) => if ok then Verified(facts) else CheckFailed(facts)
  }

  /** The command a `run_proc` step runs, with the duplicated directory prefix removed. */
  function ProcCommand(params: map<string, Json>): Option<seq<Json>> {
    if "cmd" !in params then None
    else match CmdList(params["cmd"])
      case None => None
      case Some(cmd) => Some(NormCmd(cmd, CwdOf(params), false))
  }

  /**
   * Attempting one ready step. `create_dir` and `write_file` need a
   * `path`; `run_proc` needs a `cmd` and a string `cwd` (any other value,
   * None included, raises TypeError when it is joined to the workspace
   * root, before the process runs) and stops the run on a non-zero exit
   * code; each of these records its effects before it is checked. A
   * `noop` step records nothing and is checked. Any other action is
   * unsupported.
   */
  function Attempt(w: World, a: Argument, facts: set<string>): (r: StepResult)
    ensures r.Verified? || r.CheckFailed? ==>
      r.facts == (if a.action.name == "noop" then facts else AddEffects(facts, a.effects))
    ensures r.Verified? ==> VerifyAllSpec(w.ws, Verifiers(a.verify)) == Success(true)
    ensures r.CheckFailed? ==> VerifyAllSpec(w.ws, Verifiers(a.verify)) == Success(false)
    ensures r.Unsupported? <==> a.action.name !in {"create_dir", "write_file", "run_proc", "noop"}
    ensures r.ProcFailed? <==>
      a.action.name == "run_proc" && ProcCommand(a.action.params).Some? && CwdOf(a.action.params).JStr?
      && w.exitCode(ProcCommand(a.action.params).value, CwdOf(a.action.params)) != 0
    ensures a.action.name == "run_proc" && ProcCommand(a.action.params).Some? && !CwdOf(a.action.params).JStr? ==>
      r == Crash("TypeError: cwd")
  {
    var name := a.action.name;
    var params := a.action.params;
    if name == "create_dir" || name == "write_file" then
      if "path" !in params then Crash("KeyError: path") else Checked(w, a, AddEffects(facts, a.effects))
    else if name == "run_proc" then
      if "cmd" !in params then Crash("KeyError: cmd")
      else if CmdList(params["cmd"]).None? then Crash("TypeError: cmd")
      else if !CwdOf(params).JStr? then Crash("TypeError: cwd")
      else if w.exitCode(ProcCommand(params).value, CwdOf(params)) != 0 then ProcFailed
      else Checked(w, a, AddEffects(facts, a.effects))
    else if name == "noop" then Checked(w, a, facts)
    else Unsupported
  }

  /** How a run ended. */
  datatype Ending = Pass | Fail(reason: string) | Raised(message: string)

  /** The run's metrics: how it ended, the steps actuated, the solver rounds, and the queue pops. */
  datatype Report = Report(ending: Ending, stepsExecuted: nat, afIters: nat, pops: nat)

  /** The loop's state. */
  datatype State = State(args: map<string, Argument>, reasons: Reasons, queue: seq<PlanStep>, facts: set<string>,
                         steps: nat, afIters: nat, pops: nat)

  const VerifyFailed := "verify failed (no diagnosis)"
  const ProcessFailed := "process failed"
  const Unmet := "unmet preconditions remain"
  const UnknownEndpoint := "KeyError"

  function UnsupportedAction(name: string): string {
    "unsupported action:" + name
  }

  /** The attacks the solver sees: every reasoned edge, priority-filtered unless the filter is switched off. */
  function Effective(mode: Mode, args: map<string, Argument>, reasons: Reasons): set<Edge> {
    if mode.noPriority then reasons.Keys else PriorityFiltered(args, reasons.Keys)
  }

  /**
   * What one turn does, case by case: an unknown endpoint raises, an
   * unready step goes to the back of the queue, a verified step continues
   * on the attempt's facts, a failed check stops the run exactly when
   * diagnosis is off, and every other outcome stops it with its reason.
   */
  lemma StepCases(mode: Mode, w: World, s: State)
    requires s.queue != []
    ensures s.queue[0].argId !in s.args ==> Step(mode, w, s) == Stop(Report(Raised(UnknownEndpoint), s.steps, s.afIters, s.pops + 1))
    ensures s.queue[0].argId in s.args && !PlanQueue.PreOk(s.args[s.queue[0].argId].pre, s.facts) ==>
      Step(mode, w, s) == Go(s.(queue := s.queue[1..] + [s.queue[0]], pops := s.pops + 1))
    ensures s.queue[0].argId in s.args && PlanQueue.PreOk(s.args[s.queue[0].argId].pre, s.facts) ==>
      var a := s.args[s.queue[0].argId];
      var popped := s.(queue := s.queue[1..], pops := s.pops + 1);
      match Attempt(w, a, s.facts)
      case Verified(f) => Step(mode, w, s) == Go(popped.(facts := f, steps := s.steps + 1))
      case CheckFailed(f) =>
        (mode.noDiag <==> Step(mode, w, s).Stop? && Step(mode, w, s).report.ending == Fail(VerifyFailed))
        && (!mode.noDiag ==> Step(mode, w, s) == Diagnosis(popped.(facts := f, steps := s.steps + 1), a))
      case ProcFailed => Step(mode, w, s) == Stop(Report(Fail(ProcessFailed), s.steps + 1, s.afIters, s.pops + 1))
      case Unsupported => Step(mode, w, s) == Stop(Report(Fail(UnsupportedAction(a.action.name)), s.steps, s.afIters, s.pops + 1))
      case Crash(m) => Step(mode, w, s) == Stop(Report(Raised(m), s.steps, s.afIters, s.pops + 1))
  {
  }

  /**
   * Diagnosis after `a` failed its check: add `D_<id>` and its attack
   * (with the reason "diagnosis"), re-solve, and replace the queue with
   * the plan of the new extension.
   */
  ghost function Diagnose(mode: Mode, s: State, a: Argument): (r: State)
    ensures r.facts == s.facts && r.steps == s.steps && r.pops == s.pops && r.afIters == s.afIters + 1
    ensures r.args == s.args[MakeDiagArg(a).id := MakeDiagArg(a)]
    ensures r.reasons == s.reasons[(MakeDiagArg(a).id, a.id) := JStr("diagnosis")]
  {
    var d := MakeDiagArg(a);
    var args := s.args[d.id := d];
    var reasons := s.reasons[(d.id, a.id) := JStr("diagnosis")];
    var ext := GroundedExtension(ArgFramework(args, Effective(mode, args, reasons)));
    s.(args := args, reasons := reasons, queue := PlanOfSet(args, ext), afIters := s.afIters + 1)
  }

  /** One pop of the queue: the run stops with a report, goes on from a new state, or diagnoses a failed step. */
  datatype Turn = Stop(report: Report) | Go(next: State) | Diagnosis(checked: State, failed: Argument)

  /**
   * One iteration: pop the head; an unknown id raises; a step whose
   * preconditions do not hold goes to the back; a ready step is attempted.
   * A step that passes its checks continues with its facts; one that fails
   * them ends the run without diagnosis and is diagnosed otherwise; a
   * failed process or an unsupported action fails the run, and a crash
   * raises.
   */
  function Step(mode: Mode, w: World, s: State): (r: Turn)
    requires s.queue != []
    ensures r.Stop? ==> r.report.pops == s.pops + 1 && r.report.afIters == s.afIters
                        && s.steps <= r.report.stepsExecuted <= s.steps + 1
    ensures r.Go? ==> r.next.pops == s.pops + 1 && s.steps <= r.next.steps <= s.steps + 1
                      && r.next.afIters == s.afIters && r.next.args == s.args && r.next.reasons == s.reasons
    ensures r.Diagnosis? ==> !mode.noDiag && r.checked.pops == s.pops + 1 && r.checked.steps == s.steps + 1
                             && r.checked.afIters == s.afIters && r.checked.args == s.args
                             && r.checked.reasons == s.reasons
                             && s.queue[0].argId in s.args && r.failed == s.args[s.queue[0].argId]
    ensures r.Go? && r.next.facts != s.facts ==> r.next.steps == s.steps + 1
  {
    var step := s.queue[0];
    var popped := s.(queue := s.queue[1..], pops := s.pops + 1);
    if step.argId !in s.args then Stop(Report(Raised(UnknownEndpoint), s.steps, s.afIters, popped.pops))
    else
      var a := s.args[step.argId];
      if !PlanQueue.PreOk(a.pre, s.facts) then Go(popped.(queue := popped.queue + [step]))
      else
        match Attempt(w, a, s.facts)
        case Verified(f) => Go(popped.(facts := f, steps := s.steps + 1))
        case CheckFailed(f) =>
          if mode.noDiag then Stop(Report(Fail(VerifyFailed), s.steps + 1, s.afIters, popped.pops))
          else Diagnosis(popped.(facts := f, steps := s.steps + 1), a)
        case ProcFailed => Stop(Report(Fail(ProcessFailed), s.steps + 1, s.afIters, popped.pops))
        case Unsupported => Stop(Report(Fail(UnsupportedAction(a.action.name)), s.steps, s.afIters, popped.pops))
        case Crash(m) => Stop(Report(Raised(m), s.steps, s.afIters, popped.pops))
  }

  /**
   * After diagnosis the failed step is not planned again, under the
   * priority filter or without it: its diagnosis argument outranks it, so
   * the new attack survives the filter and the failed argument is attacked.
   */
  lemma DiagnosisDropsFailed(mode: Mode, s: State, a: Argument)
    requires a.id in s.args && s.args[a.id] == a
    ensures var r := Diagnose(mode, s, a);
      (MakeDiagArg(a).id, a.id) in Effective(mode, r.args, r.reasons)
      && forall k | 0 <= k < |r.queue| :: r.queue[k].argId != a.id
  {
    var r := Diagnose(mode, s, a);
    var d := MakeDiagArg(a);
    assert r.reasons.Keys == s.reasons.Keys + {(d.id, a.id)};
    DiagDefeatsFailed(s.args, s.reasons.Keys, a);
    var ext := GroundedExtension(ArgFramework(r.args, Effective(mode, r.args, r.reasons)));
    assert a.id !in ext;
    PlanMembers(r.args, multiset(ext), r.queue);
  }

  /** The loop from state `s` with `budget` pops left: it passes exactly when the queue empties in time. */
  ghost function Loop(mode: Mode, w: World, s: State, budget: nat): (r: Report)
    ensures r.pops <= s.pops + budget
    ensures s.steps <= r.stepsExecuted && r.stepsExecuted + s.pops <= s.steps + r.pops
    ensures s.afIters <= r.afIters && r.afIters + s.pops <= s.afIters + r.pops
    ensures mode.noDiag ==> r.afIters == s.afIters
    decreases budget, 0
  {
    if s.queue == [] then Report(Pass, s.steps, s.afIters, s.pops)
    else if budget == 0 then Report(Fail(Unmet), s.steps, s.afIters, s.pops)
    else LoopBody(mode, w, s, budget - 1)
  }

  /** One pass of the loop's body on a non-empty queue, then the loop with `budget` pops left. */
  ghost function LoopBody(mode: Mode, w: World, s: State, budget: nat): (r: Report)
    requires s.queue != []
    ensures r.pops <= s.pops + budget + 1
    ensures s.steps <= r.stepsExecuted && r.stepsExecuted + s.pops <= s.steps + r.pops
    ensures s.afIters <= r.afIters && r.afIters + s.pops <= s.afIters + r.pops
    ensures mode.noDiag ==> r.afIters == s.afIters
    decreases budget, 1
  {
    match Step(mode, w, s)
    case Stop(report) => report
    case Go(next) => Loop(mode, w, next, budget)
    case Diagnosis(checked, failed) => Loop(mode, w, Diagnose(mode, checked, failed), budget)
  }

  /** A loop with a step queued and budget left pops at least once. */
  lemma LoopProgress(mode: Mode, w: World, s: State, budget: nat)
    requires s.queue != [] && budget > 0
    ensures Loop(mode, w, s, budget).pops > s.pops
  {
    var t := Step(mode, w, s);
    if t.Diagnosis? {
      var d := Diagnose(mode, t.checked, t.failed);
      assert Loop(mode, w, s, budget) == Loop(mode, w, d, budget - 1);
    }
  }

  /** Attempting a ready step as the shared queue sees it when diagnosis is off. */
  function Exec(w: World, a: Argument, facts: set<string>): (r: PlanQueue.Outcome)
    ensures r.Done? <==> Attempt(w, a, facts).Verified?
    ensures r.Done? ==> r.facts == Attempt(w, a, facts).facts
  {
    match Attempt(w, a, facts)
    case Verified(next) => PlanQueue.Done(next)
    case CheckFailed(_) => PlanQueue.Stop(VerifyFailed)
    case ProcFailed => PlanQueue.Stop(ProcessFailed)
    case Unsupported => PlanQueue.Stop(UnsupportedAction(a.action.name))
    case Crash(m) => PlanQueue.Raise(m)
  }

  function ExecOf(w: World): (Argument, set<string>) -> PlanQueue.Outcome {
    (a: Argument, facts: set<string>) => Exec(w, a, facts)
  }

  /** A verified step only adds facts. */
  lemma ExecGrows(w: World)
    ensures PlanQueue.Grows(ExecOf(w))
  {
    forall a: Argument, f: set<string> | ExecOf(w)(a, f).Done?
      ensures f <= ExecOf(w)(a, f).facts
    {
      assert ExecOf(w)(a, f) == Exec(w, a, f);
    }
  }

  /**
   * With diagnosis off the multistep loop is the shared queue loop with
   * `Exec` as its step: the same pops, a pass exactly when the queue
   * empties, and the same ending otherwise.
   */
  /** A multistep report `r` begun from `s` tells what the queue run `d` tells. */
  ghost predicate Agrees(r: Report, s: State, d: PlanQueue.Run) {
    r.pops == s.pops + d.pops && r.afIters == s.afIters
    && (r.ending == Pass <==> d.verdict.Complete?)
    && (d.verdict.Complete? || d.verdict.Unscheduled? ==> r.stepsExecuted == s.steps + |d.executed|)
    && (d.verdict.Unscheduled? ==> r.ending == Fail(Unmet))
    && (d.verdict.Failed? ==> r.ending == Fail(d.verdict.reason))
    && (d.verdict.Raised? ==> r.ending == Raised(d.verdict.message))
  }

  /**
   * With diagnosis off the multistep loop is the shared queue loop with
   * `Exec` as its step: the same pops, a pass exactly when the queue
   * empties, and the same ending otherwise.
   */
  lemma {:induction false} LoopIsDrain(mode: Mode, w: World, s: State, budget: nat)
    requires mode.noDiag
    ensures Agrees(Loop(mode, w, s, budget), s, PlanQueue.Drain(s.args, s.queue, s.facts, budget, ExecOf(w)))
    decreases budget, 1
  {
    if s.queue == [] || budget == 0 || s.queue[0].argId !in s.args {
      EndAgrees(mode, w, s, budget);
    } else {
      var a := s.args[s.queue[0].argId];
      if !PlanQueue.PreOk(a.pre, s.facts) {
        UnreadyAgrees(mode, w, s, budget);
      } else if Attempt(w, a, s.facts).Verified? {
        VerifiedAgrees(mode, w, s, budget);
      } else {
        StopAgrees(mode, w, s, budget);
      }
    }
  }

  /** An empty queue, a spent budget or an unknown endpoint ends both loops the same way. */
  lemma EndAgrees(mode: Mode, w: World, s: State, budget: nat)
    requires mode.noDiag && (s.queue == [] || budget == 0 || s.queue[0].argId !in s.args)
    ensures Agrees(Loop(mode, w, s, budget), s, PlanQueue.Drain(s.args, s.queue, s.facts, budget, ExecOf(w)))
  {
  }

  lemma AgreesAfterPop(r: Report, s: State, next: State, d: PlanQueue.Run)
    requires Agrees(r, next, d)
    requires next.pops == s.pops + 1 && next.afIters == s.afIters && next.steps == s.steps
    ensures Agrees(r, s, PlanQueue.AfterPop(d))
  {
  }

  lemma AgreesAfterExec(r: Report, s: State, next: State, id: string, d: PlanQueue.Run)
    requires Agrees(r, next, d)
    requires next.pops == s.pops + 1 && next.afIters == s.afIters && next.steps == s.steps + 1
    ensures Agrees(r, s, PlanQueue.AfterExec(id, d))
  {
  }

  /** An unready head is requeued by both loops. */
  lemma UnreadyUnfolds(mode: Mode, w: World, s: State, budget: nat)
    requires mode.noDiag && s.queue != [] && budget != 0 && s.queue[0].argId in s.args
    requires !PlanQueue.PreOk(s.args[s.queue[0].argId].pre, s.facts)
    ensures var next := s.(queue := s.queue[1..] + [s.queue[0]], pops := s.pops + 1);
      Loop(mode, w, s, budget) == Loop(mode, w, next, budget - 1)
      && PlanQueue.Drain(s.args, s.queue, s.facts, budget, ExecOf(w))
         == PlanQueue.AfterPop(PlanQueue.Drain(s.args, next.queue, s.facts, budget - 1, ExecOf(w)))
  {
    StepCases(mode, w, s);
  }

  /** A verified head is executed by both loops. */
  lemma VerifiedUnfolds(mode: Mode, w: World, s: State, budget: nat)
    requires mode.noDiag && s.queue != [] && budget != 0 && s.queue[0].argId in s.args
    requires PlanQueue.PreOk(s.args[s.queue[0].argId].pre, s.facts)
    requires Attempt(w, s.args[s.queue[0].argId], s.facts).Verified?
    ensures var f := Attempt(w, s.args[s.queue[0].argId], s.facts).facts;
      var next := s.(queue := s.queue[1..], pops := s.pops + 1, facts := f, steps := s.steps + 1);
      Loop(mode, w, s, budget) == Loop(mode, w, next, budget - 1)
      && PlanQueue.Drain(s.args, s.queue, s.facts, budget, ExecOf(w))
         == PlanQueue.AfterExec(s.queue[0].argId, PlanQueue.Drain(s.args, next.queue, f, budget - 1, ExecOf(w)))
  {
    var a := s.args[s.queue[0].argId];
    var f := Attempt(w, a, s.facts).facts;
    StepCases(mode, w, s);
    assert Step(mode, w, s) == Go(s.(queue := s.queue[1..], pops := s.pops + 1, facts := f, steps := s.steps + 1));
    assert ExecOf(w)(a, s.facts) == PlanQueue.Done(f);
  }

  lemma UnreadyAgrees(mode: Mode, w: World, s: State, budget: nat)
    requires mode.noDiag && s.queue != [] && budget != 0 && s.queue[0].argId in s.args
    requires !PlanQueue.PreOk(s.args[s.queue[0].argId].pre, s.facts)
    ensures Agrees(Loop(mode, w, s, budget), s, PlanQueue.Drain(s.args, s.queue, s.facts, budget, ExecOf(w)))
    decreases budget, 0
  {
    LoopIsDrain(mode, w, s.(queue := s.queue[1..] + [s.queue[0]], pops := s.pops + 1), budget - 1);
    UnreadyStep(mode, w, s, budget);
  }

  lemma UnreadyStep(mode: Mode, w: World, s: State, budget: nat)
    requires mode.noDiag && s.queue != [] && budget != 0 && s.queue[0].argId in s.args
    requires !PlanQueue.PreOk(s.args[s.queue[0].argId].pre, s.facts)
    requires var next := s.(queue := s.queue[1..] + [s.queue[0]], pops := s.pops + 1);
      Agrees(Loop(mode, w, next, budget - 1), next, PlanQueue.Drain(s.args, next.queue, s.facts, budget - 1, ExecOf(w)))
    ensures Agrees(Loop(mode, w, s, budget), s, PlanQueue.Drain(s.args, s.queue, s.facts, budget, ExecOf(w)))
  {
    var next := s.(queue := s.queue[1..] + [s.queue[0]], pops := s.pops + 1);
    UnreadyUnfolds(mode, w, s, budget);
    AgreesAfterPop(Loop(mode, w, next, budget - 1), s, next,
                   PlanQueue.Drain(s.args, next.queue, s.facts, budget - 1, ExecOf(w)));
  }

  lemma VerifiedAgrees(mode: Mode, w: World, s: State, budget: nat)
    requires mode.noDiag && s.queue != [] && budget != 0 && s.queue[0].argId in s.args
    requires PlanQueue.PreOk(s.args[s.queue[0].argId].pre, s.facts)
    requires Attempt(w, s.args[s.queue[0].argId], s.facts).Verified?
    ensures Agrees(Loop(mode, w, s, budget), s, PlanQueue.Drain(s.args, s.queue, s.facts, budget, ExecOf(w)))
    decreases budget, 0
  {
    var f := Attempt(w, s.args[s.queue[0].argId], s.facts).facts;
    var next := s.(queue := s.queue[1..], pops := s.pops + 1, facts := f, steps := s.steps + 1);
    LoopIsDrain(mode, w, next, budget - 1);
    VerifiedUnfolds(mode, w, s, budget);
    AgreesAfterExec(Loop(mode, w, next, budget - 1), s, next, s.queue[0].argId,
                    PlanQueue.Drain(s.args, next.queue, f, budget - 1, ExecOf(w)));
  }

  /** A ready head whose attempt does not verify ends both loops the same way. */
  lemma StopAgrees(mode: Mode, w: World, s: State, budget: nat)
    requires mode.noDiag && s.queue != [] && budget != 0 && s.queue[0].argId in s.args
    requires PlanQueue.PreOk(s.args[s.queue[0].argId].pre, s.facts)
    requires !Attempt(w, s.args[s.queue[0].argId], s.facts).Verified?
    ensures Agrees(Loop(mode, w, s, budget), s, PlanQueue.Drain(s.args, s.queue, s.facts, budget, ExecOf(w)))
  {
    var a := s.args[s.queue[0].argId];
    StepCases(mode, w, s);
    assert ExecOf(w)(a, s.facts) == Exec(w, a, s.facts);
  }

  /**
   * With diagnosis off, a passing run executed every queued step exactly
   * as often as it was queued, each one verified and ready on the facts
   * the run ended with.
   */
  lemma NoDiagPass(mode: Mode, w: World, s: State, budget: nat)
    requires mode.noDiag && Loop(mode, w, s, budget).ending == Pass
    ensures var d := PlanQueue.Drain(s.args, s.queue, s.facts, budget, ExecOf(w));
      multiset(d.executed) == multiset(PlanQueue.Ids(s.queue))
      && Loop(mode, w, s, budget).stepsExecuted == s.steps + |s.queue|
      && s.facts <= d.facts
      && forall k | 0 <= k < |d.executed| ::
           d.executed[k] in s.args && PlanQueue.PreOk(s.args[d.executed[k]].pre, d.facts)
  {
    var d := PlanQueue.Drain(s.args, s.queue, s.facts, budget, ExecOf(w));
    LoopIsDrain(mode, w, s, budget);
    assert d.verdict.Complete?;
    PlanQueue.CompleteRunsEveryStep(s.args, s.queue, s.facts, budget, ExecOf(w));
    assert |d.executed| == |multiset(d.executed)| == |multiset(PlanQueue.Ids(s.queue))| == |s.queue|;
    ExecGrows(w);
    PlanQueue.ExecutedStepsWereReady(s.args, s.queue, s.facts, budget, ExecOf(w));
  }

  /**
   * The first solve. Reading the attack list raises on an entry whose ends
   * cannot be hashed; the demo then collects `(a[0], a[1])` from every
   * entry once more, which raises on a dictionary, on a list or string
   * shorter than two, and on a number, a boolean or None. The language
   * model's arguments are keyed by id and its reasoned attacks kept (the
   * rule-based framework is switched off). Without the priority switch the
   * reasoned edges are filtered; with it every edge read counts. Without
   * the framework switch the extension is the unattacked arguments; with
   * it, every argument.
   */
  ghost function Start(mode: Mode, llmArgs: seq<Argument>, raw: seq<Json>): (r: Result<State, string>)
    ensures r.Success? ==> r.value.facts == {} && r.value.steps == 0 && r.value.afIters == 1 && r.value.pops == 0
    ensures r.Success? ==> r.value.args == ById(llmArgs) && r.value.reasons == LlmReasons(raw)
    ensures r.Failure? <==> FirstError(raw, EntryError).Some? || FirstError(raw, PairError).Some?
    ensures FirstError(raw, EntryError).Some? ==> r == Failure(FirstError(raw, EntryError).value)
    ensures r.Success? ==> r.value.reasons == map[]
    ensures r.Success? && !mode.noPriority ==> r.value.queue == PlanOfSet(ById(llmArgs), ById(llmArgs).Keys)
  {
    match FirstError(raw, EntryError)
    case Some(e) => Failure(e)
    case None =>
      match FirstError(raw, PairError)
      case Some(e) => Failure(e)
      case None =>
        var merged := MergeAf(ById(llmArgs), LlmEdges(raw), LlmReasons(raw), map[], {}, map[]);
        MergeWithoutRules(ById(llmArgs), LlmEdges(raw), LlmReasons(raw));
        PairsGiveNoReasons(raw);
        var args := ById(llmArgs);
        var eff := if mode.noPriority then merged.edges else PriorityFiltered(args, merged.reasons.Keys);
        var ext := if mode.noAf then args.Keys else GroundedExtension(ArgFramework(args, eff));
        assert !mode.noPriority ==> ext == args.Keys by {
          if !mode.noPriority && !mode.noAf {
            GroundedNoAttacks(ArgFramework(args, eff));
          }
        }
        Success(State(args, merged.reasons, PlanOfSet(args, ext), {}, 0, 1, 0))
  }

  /** The whole demo. */
  ghost function MainSpec(mode: Mode, w: World, llmArgs: seq<Argument>, raw: seq<Json>): (r: Report)
    ensures Start(mode, llmArgs, raw).Success? ==> r.pops <= 4 * |Start(mode, llmArgs, raw).value.queue|
    ensures r.stepsExecuted <= r.pops && r.afIters <= 1 + r.pops
    ensures mode.noDiag ==> r.afIters <= 1
    ensures Start(mode, llmArgs, raw).Failure? ==> r.ending.Raised? && r.pops == 0
    ensures r.ending.Raised? && r.pops == 0 ==> Start(mode, llmArgs, raw).Failure?
  {
    match Start(mode, llmArgs, raw)
    case Failure(m) => Report(Raised(m), 0, 0, 0)
    case Success(s) =>
      if s.queue != [] then LoopProgress(mode, w, s, 4 * |s.queue|); Loop(mode, w, s, 4 * |s.queue|)
      else Loop(mode, w, s, 4 * |s.queue|)
  }

  /**
   * With diagnosis off, a passing demo started, executed each step of its
   * first plan as often as the plan lists it and nothing else, and every
   * executed step was verified and ready on the final facts.
   */
  lemma MainNoDiagPass(mode: Mode, w: World, llmArgs: seq<Argument>, raw: seq<Json>)
    requires mode.noDiag && MainSpec(mode, w, llmArgs, raw).ending == Pass
    ensures Start(mode, llmArgs, raw).Success?
    ensures var s := Start(mode, llmArgs, raw).value;
      var d := PlanQueue.Drain(s.args, s.queue, {}, 4 * |s.queue|, ExecOf(w));
      multiset(d.executed) == multiset(PlanQueue.Ids(s.queue))
      && MainSpec(mode, w, llmArgs, raw).stepsExecuted == |s.queue|
      && forall k | 0 <= k < |d.executed| ::
           d.executed[k] in s.args && PlanQueue.PreOk(s.args[d.executed[k]].pre, d.facts)
  {
    var s := Start(mode, llmArgs, raw).value;
    NoDiagPass(mode, w, s, 4 * |s.queue|);
  }

  // ---------------------------------------------------------------------
  // The demo as it runs.

  /** Attempting one ready step, the checks run through `VerifyAll`. */
  method AttemptStep(w: World, a: Argument, facts: set<string>) returns (r: StepResult)
    ensures r == Attempt(w, a, facts)
  {
    var name := a.action.name;
    var params := a.action.params;
    var next := facts;
    if name == "create_dir" || name == "write_file" {
      if "path" !in params {
        return Crash("KeyError: path");
      }
      next := AddEffects(facts, a.effects);
    } else if name == "run_proc" {
      if "cmd" !in params {
        return Crash("KeyError: cmd");
      }
      var cmd := CmdList(params["cmd"]);
      if cmd.None? {
        return Crash("TypeError: cmd");
      }
      var cwd := CwdOf(params);
      if !cwd.JStr? {
        return Crash("TypeError: cwd");
      }
      if w.exitCode(NormCmd(cmd.value, cwd, false), cwd) != 0 {
        return ProcFailed;
      }
      next := AddEffects(facts, a.effects);
    } else if name != "noop" {
      return Unsupported;
    }
    var ok, _ := VerifyAll(w.ws, Verifiers(a.verify));
    match ok
    case Failure(m) => r := Crash(m);
    case Success(pass) => r := if pass then Verified(next) else CheckFailed(next);
  }

  /** Adding the diagnosis argument and its attack keeps every reasoned edge between known ids. */
  lemma DiagKeepsEndpoints(args: map<string, Argument>, reasons: Reasons, a: Argument)
    requires a.id in args && EndpointsKnown(args, reasons.Keys)
    ensures var d := MakeDiagArg(a);
      EndpointsKnown(args[d.id := d], reasons[(d.id, a.id) := JStr("diagnosis")].Keys)
  {
  }

  /** The diagnosis round on the loop's state; the filter cannot raise, since every reasoned edge names a known id. */
  method Rediagnose(mode: Mode, s: State, a: Argument) returns (r: State)
    requires KeyedById(s.args) && a.id in s.args
    requires !mode.noPriority ==> EndpointsKnown(s.args, s.reasons.Keys)
    ensures r == Diagnose(mode, s, a)
    ensures KeyedById(r.args)
    ensures !mode.noPriority ==> EndpointsKnown(r.args, r.reasons.Keys)
  {
    var d := MakeDiagArg(a);
    var args := s.args[d.id := d];
    var reasons := s.reasons[(d.id, a.id) := JStr("diagnosis")];
    var eff: set<Edge>;
    if mode.noPriority {
      eff := reasons.Keys;
    } else {
      DiagKeepsEndpoints(s.args, s.reasons, a);
      var filtered := FilterAttacksWithInfo(args, reasons);
      eff := filtered.value.0;
    }
    var ext := GroundedExtension(ArgFramework(args, eff));
    var queue := OrderPlanFromSet(args, ext);
    r := s.(args := args, reasons := reasons, queue := queue, afIters := s.afIters + 1);
    DiagnoseKeeps(mode, s, a);
  }

  /** The diagnosis round keeps the arguments keyed by id and, with priorities on, every reasoned edge between known ids. */
  lemma DiagnoseKeeps(mode: Mode, s: State, a: Argument)
    requires KeyedById(s.args) && a.id in s.args
    requires !mode.noPriority ==> EndpointsKnown(s.args, s.reasons.Keys)
    ensures KeyedById(Diagnose(mode, s, a).args)
    ensures !mode.noPriority ==> EndpointsKnown(Diagnose(mode, s, a).args, Diagnose(mode, s, a).reasons.Keys)
  {
    if !mode.noPriority {
      DiagKeepsEndpoints(s.args, s.reasons, a);
    }
  }

  /** One iteration of the queue loop, the ready step attempted through `AttemptStep`. */
  method StepOnce(mode: Mode, w: World, s: State) returns (r: Turn)
    requires s.queue != []
    ensures r == Step(mode, w, s)
  {
    var step := s.queue[0];
    var popped := s.(queue := s.queue[1..], pops := s.pops + 1);
    if step.argId !in s.args {
      return Stop(Report(Raised(UnknownEndpoint), s.steps, s.afIters, popped.pops));
    }
    var a := s.args[step.argId];
    if !PlanQueue.PreOk(a.pre, s.facts) {
      return Go(popped.(queue := popped.queue + [step]));
    }
    var res := AttemptStep(w, a, s.facts);
    match res
    case Verified(f) =>
      r := Go(popped.(facts := f, steps := s.steps + 1));
    case CheckFailed(f) =>
      if mode.noDiag {
        r := Stop(Report(Fail(VerifyFailed), s.steps + 1, s.afIters, popped.pops));
      } else {
        r := Diagnosis(popped.(facts := f, steps := s.steps + 1), a);
      }
    case ProcFailed =>
      r := Stop(Report(Fail(ProcessFailed), s.steps + 1, s.afIters, popped.pops));
    case Unsupported =>
      r := Stop(Report(Fail(UnsupportedAction(a.action.name)), s.steps, s.afIters, popped.pops));
    case Crash(m) =>
      r := Stop(Report(Raised(m), s.steps, s.afIters, popped.pops));
  }

  /** One iteration of the queue loop as the loop sees it: the run ends with `report`, or goes on from `next`. */
  method Advance(mode: Mode, w: World, s: State, budget: nat) returns (done: bool, report: Report, next: State)
    requires s.queue != [] && budget > 0 && KeyedById(s.args)
    requires !mode.noPriority ==> EndpointsKnown(s.args, s.reasons.Keys)
    ensures done ==> report == Loop(mode, w, s, budget)
    ensures !done ==> Loop(mode, w, next, budget - 1) == Loop(mode, w, s, budget) && next.pops == s.pops + 1
    ensures !done ==> KeyedById(next.args) && (!mode.noPriority ==> EndpointsKnown(next.args, next.reasons.Keys))
  {
    var turn := StepOnce(mode, w, s);
    match turn
    case Stop(r) =>
      return true, r, s;
    case Go(n) =>
      return false, Report(Pass, 0, 0, 0), n;
    case Diagnosis(checked, failed) =>
      next := Rediagnose(mode, checked, failed);
      return false, Report(Pass, 0, 0, 0), next;
  }

  /** The queue loop, with `maxIters` pops allowed from a state that has not popped yet. */
  method RunLoop(mode: Mode, w: World, start: State, maxIters: nat) returns (r: Report)
    requires start.pops == 0 && KeyedById(start.args)
    requires !mode.noPriority ==> EndpointsKnown(start.args, start.reasons.Keys)
    ensures r == Loop(mode, w, start, maxIters)
  {
    var s := start;
    while s.queue != [] && s.pops < maxIters
      invariant s.pops <= maxIters
      invariant KeyedById(s.args)
      invariant !mode.noPriority ==> EndpointsKnown(s.args, s.reasons.Keys)
      invariant Loop(mode, w, s, maxIters - s.pops) == Loop(mode, w, start, maxIters)
      decreases maxIters - s.pops
    {
      var done, report, next := Advance(mode, w, s, maxIters - s.pops);
      if done {
        return report;
      }
      s := next;
    }
    LoopEnds(mode, w, s, maxIters - s.pops);
    if s.queue != [] {
      r := Report(Fail(Unmet), s.steps, s.afIters, s.pops);
    } else {
      r := Report(Pass, s.steps, s.afIters, s.pops);
    }
  }

  /** With the queue empty the loop passes; with the budget spent it fails as unmet. */
  lemma LoopEnds(mode: Mode, w: World, s: State, budget: nat)
    requires s.queue == [] || budget == 0
    ensures Loop(mode, w, s, budget)
      == if s.queue == [] then Report(Pass, s.steps, s.afIters, s.pops) else Report(Fail(Unmet), s.steps, s.afIters, s.pops)
  {
  }

  /**
   * `main` from the language model's output on: read the attacks, key the
   * arguments by id, merge, solve, plan, and run the queue with diagnosis.
   */
  method MultistepMain(env: Option<string>, w: World, llmArgs: seq<Argument>, raw: seq<Json>) returns (r: Report)
    ensures r == MainSpec(ModeOf(env), w, llmArgs, raw)
  {
    var mode := ModeOf(env);
    var err, edgesLlm, infoLlm := NormalizeLlmAttacks(raw);
    if err.Some? {
      return Report(Raised(err.value), 0, 0, 0);
    }
    var pairs := FirstError(raw, PairError);
    if pairs.Some? {
      return Report(Raised(pairs.value), 0, 0, 0);
    }
    PairsGiveNoReasons(raw);
    var argsLlm := ById(llmArgs);
    var merged := MergeAf(argsLlm, edgesLlm, infoLlm, map[], {}, map[]);
    MergeWithoutRules(argsLlm, edgesLlm, infoLlm);
    var args := argsLlm;
    var eff: set<Edge>;
    if mode.noPriority {
      eff := merged.edges;
    } else {
      var res := FilterAttacksWithInfo(args, merged.reasons);
      eff := res.value.0;
    }
    var ext: set<string>;
    if mode.noAf {
      ext := args.Keys;
    } else {
      ext := GroundedExtension(ArgFramework(args, eff));
    }
    var queue := OrderPlanFromSet(args, ext);
    var start := State(args, merged.reasons, queue, {}, 0, 1, 0);
    assert Start(mode, llmArgs, raw) == Success(start);
    r := RunLoop(mode, w, start, 4 * |queue|);
  }
}
