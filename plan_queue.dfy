/**
 * The precondition-gated execution queue the desktop demos share: pop the
 * first plan step; if one of its preconditions is not yet a known fact,
 * put it back at the end; otherwise execute it. The number of pops is
 * capped at four times the plan's length, and a queue that is not empty
 * when the loop ends means some step never became executable.
 *
 * What executing a step does (the actuation, its verification and the
 * facts it adds) is the caller's `exec`, so every demo shares this loop.
 */
module PlanQueue {
  import opened Arguments
  import opened Planner

  /** `pre_ok`: every precondition is a known fact. */
  predicate PreOk(pre: seq<string>, facts: set<string>) {
    forall p | p in pre :: p in facts
  }

  /** What executing one step came to. */
  datatype Outcome =
    | Done(facts: set<string>)   // verified; the fact set afterwards
    | Stop(reason: string)       // the step's action or check failed: the run ends
    | Raise(message: string)     // the demo raises

  /** How a run ended. */
  datatype Verdict =
    | Complete                                // the queue emptied
    | Unscheduled(remaining: seq<PlanStep>)   // the pop budget ran out first
    | Failed(argId: string, reason: string)
    | Raised(message: string)

  /** A run: how it ended, the facts at the end, the ids executed in order, and the pops made. */
  datatype Run = Run(verdict: Verdict, facts: set<string>, executed: seq<string>, pops: nat)

  /** A step a plan refers to but the framework does not hold: `af.args[step.arg_id]` raises. */
  const UnknownStep := "KeyError"

  function Ids(q: seq<PlanStep>): (r: seq<string>)
    ensures |r| == |q| && forall k | 0 <= k < |q| :: r[k] == q[k].argId
  {
    if q == [] then [] else [q[0].argId] + Ids(q[1..])
  }

  /** The run that continues after one more pop. */
  function AfterPop(r: Run): Run {
    r.(pops := r.pops + 1)
  }

  /** The run that continues after `id` was popped and executed. */
  function AfterExec(id: string, r: Run): Run {
    r.(executed := [id] + r.executed, pops := r.pops + 1)
  }

  /**
   * The loop from a given queue and fact set with `budget` pops left.
   */
  function Drain(args: map<string, Argument>, queue: seq<PlanStep>, facts: set<string>, budget: nat,
                 exec: (Argument, set<string>) -> Outcome): (r: Run)
    ensures |r.executed| <= r.pops <= budget
    ensures r.verdict.Unscheduled? ==> r.verdict.remaining != []
    decreases budget
  {
    if queue == [] then Run(Complete, facts, [], 0)
    else if budget == 0 then Run(Unscheduled(queue), facts, [], 0)
    else
      var step := queue[0];
      if step.argId !in args then Run(Raised(UnknownStep), facts, [], 1)
      else if !PreOk(args[step.argId].pre, facts) then
        AfterPop(Drain(args, queue[1..] + [step], facts, budget - 1, exec))
      else
        match exec(args[step.argId], facts)
        case Done(next) => AfterExec(step.argId, Drain(args, queue[1..], next, budget - 1, exec))
        case Stop(reason) => Run(Failed(step.argId, reason), facts, [], 1)
        case Raise(message) => Run(Raised(message), facts, [], 1)
  }

  /** A completed run executed every step of the queue exactly as often as it occurs, and nothing else. */
  lemma {:induction false} CompleteRunsEveryStep(args: map<string, Argument>, queue: seq<PlanStep>,
                                                 facts: set<string>, budget: nat,
                                                 exec: (Argument, set<string>) -> Outcome)
    requires Drain(args, queue, facts, budget, exec).verdict.Complete?
    ensures multiset(Drain(args, queue, facts, budget, exec).executed) == multiset(Ids(queue))
    decreases budget
  {
    if queue != [] {
      var step := queue[0];
      CompleteHead(args, queue, facts, budget, exec);
      if !PreOk(args[step.argId].pre, facts) {
        CompleteRunsEveryStep(args, queue[1..] + [step], facts, budget - 1, exec);
        SkipCount(queue, Drain(args, queue, facts, budget, exec), Drain(args, queue[1..] + [step], facts, budget - 1, exec));
      } else {
        var next := exec(args[step.argId], facts).facts;
        CompleteRunsEveryStep(args, queue[1..], next, budget - 1, exec);
        ExecCount(queue, Drain(args, queue, facts, budget, exec), Drain(args, queue[1..], next, budget - 1, exec));
      }
    }
  }

  /** Pushing the head back leaves the steps to execute as they were. */
  lemma SkipCount(queue: seq<PlanStep>, outer: Run, inner: Run)
    requires queue != [] && outer == AfterPop(inner)
    requires multiset(inner.executed) == multiset(Ids(queue[1..] + [queue[0]]))
    ensures multiset(outer.executed) == multiset(Ids(queue))
  {
    var id, t := queue[0].argId, Ids(queue[1..]);
    assert Ids(queue) == [id] + t;
    IdsSnoc(queue[1..], queue[0]);
    assert multiset(t + [id]) == multiset(t) + multiset{id};
    assert multiset([id] + t) == multiset{id} + multiset(t);
  }

  /** The ids of a queue with one more step at the back. */
  lemma IdsSnoc(queue: seq<PlanStep>, step: PlanStep)
    ensures Ids(queue + [step]) == Ids(queue) + [step.argId]
  {
    var l, r := Ids(queue + [step]), Ids(queue) + [step.argId];
    assert |l| == |r|;
    forall k | 0 <= k < |l|
      ensures l[k] == r[k]
    {
      if k < |queue| {
        assert (queue + [step])[k] == queue[k];
      }
    }
  }

  /** Executing the head adds it to what the rest of the queue executes. */
  lemma ExecCount(queue: seq<PlanStep>, outer: Run, inner: Run)
    requires queue != [] && outer == AfterExec(queue[0].argId, inner)
    requires multiset(inner.executed) == multiset(Ids(queue[1..]))
    ensures multiset(outer.executed) == multiset(Ids(queue))
  {
    assert Ids(queue) == [queue[0].argId] + Ids(queue[1..]);
  }

  /**
   * How a completed run began: the head step was known and popped within
   * the budget, and it was either pushed back or executed successfully.
   */
  lemma CompleteHead(args: map<string, Argument>, queue: seq<PlanStep>, facts: set<string>, budget: nat,
                     exec: (Argument, set<string>) -> Outcome)
    requires queue != [] && Drain(args, queue, facts, budget, exec).verdict.Complete?
    ensures budget > 0 && queue[0].argId in args
    ensures var a := args[queue[0].argId];
      if !PreOk(a.pre, facts) then
        Drain(args, queue, facts, budget, exec) == AfterPop(Drain(args, queue[1..] + [queue[0]], facts, budget - 1, exec))
        && Drain(args, queue[1..] + [queue[0]], facts, budget - 1, exec).verdict.Complete?
      else
        exec(a, facts).Done?
        && Drain(args, queue, facts, budget, exec)
           == AfterExec(queue[0].argId, Drain(args, queue[1..], exec(a, facts).facts, budget - 1, exec))
        && Drain(args, queue[1..], exec(a, facts).facts, budget - 1, exec).verdict.Complete?
  {
  }

  /** `exec` only ever adds facts. */
  ghost predicate Grows(exec: (Argument, set<string>) -> Outcome) {
    forall a, f :: exec(a, f).Done? ==> f <= exec(a, f).facts
  }

  /**
   * When steps only add facts, the facts never shrink, and every step the
   * run executed is an argument whose preconditions hold in the final facts.
   */
  lemma {:induction false} ExecutedStepsWereReady(args: map<string, Argument>, queue: seq<PlanStep>,
                                                  facts: set<string>, budget: nat,
                                                  exec: (Argument, set<string>) -> Outcome)
    requires Grows(exec)
    ensures var r := Drain(args, queue, facts, budget, exec);
      facts <= r.facts
      && forall k | 0 <= k < |r.executed| :: r.executed[k] in args && PreOk(args[r.executed[k]].pre, r.facts)
    decreases budget
  {
    if queue != [] && budget != 0 && queue[0].argId in args {
      var step := queue[0];
      if !PreOk(args[step.argId].pre, facts) {
        ExecutedStepsWereReady(args, queue[1..] + [step], facts, budget - 1, exec);
      } else if exec(args[step.argId], facts).Done? {
        var next := exec(args[step.argId], facts).facts;
        ExecutedStepsWereReady(args, queue[1..], next, budget - 1, exec);
        var r := Drain(args, queue, facts, budget, exec);
        var rest := Drain(args, queue[1..], next, budget - 1, exec);
        assert r.executed == [step.argId] + rest.executed;
        assert PreOk(args[step.argId].pre, r.facts);
      }
    }
  }

  /**
   * Every step of `queue` is ready, in queue order, given the facts `fs`
   * its predecessors left, and executing it leaves the next fact set.
   */
  ghost predicate ReadyChain(args: map<string, Argument>, queue: seq<PlanStep>, fs: seq<set<string>>,
                             exec: (Argument, set<string>) -> Outcome)
    decreases queue
  {
    |fs| == |queue| + 1
    && (queue != [] ==>
          queue[0].argId in args && PreOk(args[queue[0].argId].pre, fs[0])
          && exec(args[queue[0].argId], fs[0]) == Done(fs[1])
          && ReadyChain(args, queue[1..], fs[1..], exec))
  }

  /** A step ready on the facts before it, ahead of a ready rest, extends the chain by one. */
  lemma ReadyLink(args: map<string, Argument>, queue: seq<PlanStep>, fs: seq<set<string>>, k: nat,
                  exec: (Argument, set<string>) -> Outcome)
    requires k < |queue| && |fs| == |queue| + 1
    requires queue[k].argId in args && PreOk(args[queue[k].argId].pre, fs[k])
    requires exec(args[queue[k].argId], fs[k]) == Done(fs[k + 1])
    requires ReadyChain(args, queue[k + 1..], fs[k + 1..], exec)
    ensures ReadyChain(args, queue[k..], fs[k..], exec)
  {
    assert queue[k..][1..] == queue[k + 1..] && fs[k..][1..] == fs[k + 1..];
  }

  /**
   * When every step of the queue is ready in queue order and executes, the
   * run completes without pushing anything back: one pop per step, and the
   * steps executed in plan order.
   */
  lemma {:induction false} ReadyInOrder(args: map<string, Argument>, queue: seq<PlanStep>,
                                        fs: seq<set<string>>, budget: nat,
                                        exec: (Argument, set<string>) -> Outcome)
    requires ReadyChain(args, queue, fs, exec) && budget >= |queue|
    ensures Drain(args, queue, fs[0], budget, exec) == Run(Complete, fs[|queue|], Ids(queue), |queue|)
    decreases queue
  {
    if queue != [] {
      ReadyInOrder(args, queue[1..], fs[1..], budget - 1, exec);
      assert Ids(queue) == [queue[0].argId] + Ids(queue[1..]);
    }
  }

  /** A ready head step whose execution stops the run ends it at the first pop, executing nothing. */
  lemma StopsAtHead(args: map<string, Argument>, queue: seq<PlanStep>, facts: set<string>, budget: nat,
                    exec: (Argument, set<string>) -> Outcome)
    requires queue != [] && budget > 0 && queue[0].argId in args && PreOk(args[queue[0].argId].pre, facts)
    requires exec(args[queue[0].argId], facts).Stop?
    ensures Drain(args, queue, facts, budget, exec)
      == Run(Failed(queue[0].argId, exec(args[queue[0].argId], facts).reason), facts, [], 1)
  {
  }

  /**
   * The loop as the demos write it: pop the front, push it back when it
   * is not ready, otherwise execute it; stop when the queue is empty or
   * four pops per plan step have been made.
   */
  method RunQueue(args: map<string, Argument>, steps: seq<PlanStep>, initial: set<string>,
                  exec: (Argument, set<string>) -> Outcome)
    returns (r: Run)
    ensures r == Drain(args, steps, initial, 4 * |steps|, exec)
  {
    var queue := steps;
    var facts := initial;
    var executed: seq<string> := [];
    var iters := 0;
    var maxIters := 4 * |steps|;
    while queue != [] && iters < maxIters
      invariant iters <= maxIters
      invariant Resume(executed, iters, Drain(args, queue, facts, maxIters - iters, exec))
        == Drain(args, steps, initial, maxIters, exec)
      decreases maxIters - iters
    {
      ghost var before := Drain(args, queue, facts, maxIters - iters, exec);
      iters := iters + 1;
      var step := queue[0];
      queue := queue[1..];
      if step.argId !in args {
        return Run(Raised(UnknownStep), facts, executed, iters);
      }
      var a := args[step.argId];
      if !PreOk(a.pre, facts) {
        queue := queue + [step];
        continue;
      }
      var outcome := exec(a, facts);
      match outcome
      case Done(next) =>
        ResumeExec(executed, iters - 1, step.argId, Drain(args, queue, next, maxIters - iters, exec));
        facts := next;
        executed := executed + [step.argId];
      case Stop(reason) =>
        return Run(Failed(step.argId, reason), facts, executed, iters);
      case Raise(message) =>
        return Run(Raised(message), facts, executed, iters);
    }
    if queue != [] {
      r := Run(Unscheduled(queue), facts, executed, iters);
    } else {
      r := Run(Complete, facts, executed, iters);
    }
  }

  /** A run that resumes after `done` executed ids and `pops` pops. */
  function Resume(done: seq<string>, pops: nat, r: Run): Run {
    r.(executed := done + r.executed, pops := pops + r.pops)
  }

  lemma ResumeExec(done: seq<string>, pops: nat, id: string, r: Run)
    ensures Resume(done, pops, AfterExec(id, r)) == Resume(done + [id], pops + 1, r)
  {
    assert done + ([id] + r.executed) == (done + [id]) + r.executed;
  }
}
