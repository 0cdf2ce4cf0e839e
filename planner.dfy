/**
 * The planner: turn accepted argument ids into plan steps ordered by
 * earliest deadline, then highest priority, then id. Because the key is
 * the whole step, the plan does not depend on the order the ids come in.
 */
module Planner {
  import opened Wrappers
  import opened Arguments
  import opened PyStr

  datatype PlanStep = PlanStep(argId: string, priority: int, deadlineMs: int)

  /** The step the planner makes for id `i`. */
  function StepFor(args: map<string, Argument>, i: string): PlanStep
    requires i in args
  {
    PlanStep(i, args[i].priority, args[i].deadlineMs)
  }

  /** `st` is the step of some argument of `args`. */
  predicate Belongs(args: map<string, Argument>, st: PlanStep) {
    st.argId in args && st == StepFor(args, st.argId)
  }

  /** Sort-key order: deadline ascending, then priority descending, then id ascending. */
  predicate StepLeq(a: PlanStep, b: PlanStep) {
    a.deadlineMs < b.deadlineMs
    || (a.deadlineMs == b.deadlineMs
        && (a.priority > b.priority || (a.priority == b.priority && LexLeq(a.argId, b.argId))))
  }

  lemma StepTotal(a: PlanStep, b: PlanStep)
    ensures StepLeq(a, b) || StepLeq(b, a)
  {
    LexTotal(a.argId, b.argId);
  }

  lemma StepTransitive(a: PlanStep, b: PlanStep, c: PlanStep)
    requires StepLeq(a, b) && StepLeq(b, c)
    ensures StepLeq(a, c)
  {
    if a.deadlineMs == b.deadlineMs == c.deadlineMs && a.priority == b.priority == c.priority {
      LexTransitive(a.argId, b.argId, c.argId);
    }
  }

  /** Two steps with the same key are the same step. */
  lemma StepAntisymmetric(a: PlanStep, b: PlanStep)
    requires StepLeq(a, b) && StepLeq(b, a)
    ensures a == b
  {
    LexAntisymmetric(a.argId, b.argId);
  }

  predicate Sorted(s: seq<PlanStep>) {
    forall i, j | 0 <= i < j < |s| :: StepLeq(s[i], s[j])
  }

  function Insert(x: PlanStep, s: seq<PlanStep>): seq<PlanStep> {
    if s == [] then [x]
    else if StepLeq(x, s[0]) then [x] + s
    else [s[0]] + Insert(x, s[1..])
  }

  lemma {:induction false} InsertSorted(x: PlanStep, s: seq<PlanStep>)
    requires Sorted(s)
    ensures multiset(Insert(x, s)) == multiset(s) + multiset{x}
    ensures Sorted(Insert(x, s))
  {
    if s == [] {
    } else if StepLeq(x, s[0]) {
      assert s == [s[0]] + s[1..];
      forall j | 0 <= j < |s|
        ensures StepLeq(x, s[j])
      {
        if j > 0 {
          StepTransitive(x, s[0], s[j]);
        }
      }
    } else {
      StepTotal(x, s[0]);
      InsertSorted(x, s[1..]);
      assert s == [s[0]] + s[1..];
      var t := Insert(x, s[1..]);
      forall k | 0 <= k < |t|
        ensures StepLeq(s[0], t[k])
      {
        assert t[k] in multiset(s[1..]) + multiset{x};
        if t[k] != x {
          assert t[k] in s[1..];
        }
      }
    }
  }

  /** Insertion sort by the step key. */
  function SortSteps(s: seq<PlanStep>): (r: seq<PlanStep>)
    ensures Sorted(r)
    ensures multiset(r) == multiset(s)
  {
    if s == [] then []
    else
      var t := SortSteps(s[1..]);
      InsertSorted(s[0], t);
      assert s == [s[0]] + s[1..];
      Insert(s[0], t)
  }

  /** The first element of a sorted sequence is below every element. */
  lemma SortedHeadLeast(a: seq<PlanStep>, x: PlanStep)
    requires Sorted(a) && a != [] && x in multiset(a)
    ensures StepLeq(a[0], x)
  {
    var i :| 0 <= i < |a| && a[i] == x;
    if i == 0 {
      StepTotal(x, x);
    }
  }

  lemma TailMultiset(a: seq<PlanStep>)
    requires a != []
    ensures multiset(a[1..]) == multiset(a) - multiset{a[0]}
  {
    assert a == [a[0]] + a[1..];
  }

  /** Sorted sequences holding the same steps are equal. */
  lemma {:induction false} SortedUnique(a: seq<PlanStep>, b: seq<PlanStep>)
    requires Sorted(a) && Sorted(b)
    requires multiset(a) == multiset(b)
    ensures a == b
  {
    if a == [] {
      assert |b| == |multiset(b)|;
    } else {
      assert |b| == |multiset(b)| && b != [];
      SortedHeadLeast(a, b[0]);
      SortedHeadLeast(b, a[0]);
      StepAntisymmetric(a[0], b[0]);
      TailMultiset(a);
      TailMultiset(b);
      SortedUnique(a[1..], b[1..]);
      assert a == [a[0]] + a[1..] && b == [b[0]] + b[1..];
    }
  }

  /** The steps of the known ids, in input order; unknown ids are dropped. */
  function Project(args: map<string, Argument>, ids: seq<string>): seq<PlanStep> {
    if ids == [] then []
    else (if ids[0] in args then [StepFor(args, ids[0])] else []) + Project(args, ids[1..])
  }

  /**
   * `r` is a plan for the ids `m`: sorted by the key, and holding the step
   * of every known id as many times as the id occurs, and nothing else.
   */
  ghost predicate IsPlanOf(args: map<string, Argument>, m: multiset<string>, r: seq<PlanStep>) {
    Sorted(r)
    && forall st :: multiset(r)[st] == (if Belongs(args, st) then m[st.argId] else 0)
  }

  lemma {:induction false} ProjectCount(args: map<string, Argument>, ids: seq<string>)
    ensures forall st ::
      multiset(Project(args, ids))[st] == (if Belongs(args, st) then multiset(ids)[st.argId] else 0)
  {
    if ids != [] {
      ProjectCount(args, ids[1..]);
      assert ids == [ids[0]] + ids[1..];
    }
  }

  /** Every step of a plan is the step of one of the requested, known ids. */
  lemma PlanMembers(args: map<string, Argument>, m: multiset<string>, r: seq<PlanStep>)
    requires IsPlanOf(args, m, r)
    ensures forall k | 0 <= k < |r| :: Belongs(args, r[k]) && r[k].argId in m
  {
    forall k | 0 <= k < |r|
      ensures Belongs(args, r[k]) && r[k].argId in m
    {
      assert r[k] in multiset(r);
    }
  }

  /** A plan is determined by the multiset of ids it is made from. */
  lemma PlanUnique(args: map<string, Argument>, m: multiset<string>, r1: seq<PlanStep>, r2: seq<PlanStep>)
    requires IsPlanOf(args, m, r1) && IsPlanOf(args, m, r2)
    ensures r1 == r2
  {
    assert multiset(r1) == multiset(r2);
    SortedUnique(r1, r2);
  }

  /**
   * The plan for `ids`: one step per known id (repeated ids repeat), each
   * carrying its argument's priority and deadline, in key order.
   */
  function OrderPlan(args: map<string, Argument>, ids: seq<string>): (r: seq<PlanStep>)
    ensures IsPlanOf(args, multiset(ids), r)
    ensures forall k | 0 <= k < |r| :: Belongs(args, r[k]) && r[k].argId in ids
  {
    var p := Project(args, ids);
    ProjectCount(args, ids);
    var r := SortSteps(p);
    PlanMembers(args, multiset(ids), r);
    r
  }

  /** Reordering the ids does not change the plan. */
  lemma OrderIndependent(args: map<string, Argument>, ids1: seq<string>, ids2: seq<string>)
    requires multiset(ids1) == multiset(ids2)
    ensures OrderPlan(args, ids1) == OrderPlan(args, ids2)
  {
    PlanUnique(args, multiset(ids1), OrderPlan(args, ids1), OrderPlan(args, ids2));
  }

  /** When the known ids' steps already come in key order, the plan is exactly those steps. */
  lemma SortedProjection(args: map<string, Argument>, ids: seq<string>)
    requires Sorted(Project(args, ids))
    ensures OrderPlan(args, ids) == Project(args, ids)
  {
    ProjectCount(args, ids);
    PlanUnique(args, multiset(ids), OrderPlan(args, ids), Project(args, ids));
  }

  /** Some listing of a finite id set, each member once. */
  ghost function Listing(ids: set<string>): (r: seq<string>)
    ensures multiset(r) == multiset(ids)
    decreases |ids|
  {
    if ids == {} then []
    else
      var i :| i in ids;
      assert multiset(ids) == multiset(ids - {i}) + multiset{i};
      [i] + Listing(ids - {i})
  }

  /** The plan for an id set; which listing of the set is used does not matter. */
  ghost function PlanOfSet(args: map<string, Argument>, ids: set<string>): (r: seq<PlanStep>)
    ensures IsPlanOf(args, multiset(ids), r)
  {
    OrderPlan(args, Listing(ids))
  }

  /** Any listing of an id set gives its plan. */
  lemma PlanOfSetListed(args: map<string, Argument>, ids: set<string>, order: seq<string>)
    requires multiset(order) == multiset(ids)
    ensures PlanOfSet(args, ids) == OrderPlan(args, order)
  {
    OrderIndependent(args, order, Listing(ids));
  }

  /** The plan of a single id is its step. */
  lemma SingleStepPlan(args: map<string, Argument>, id: string)
    requires id in args
    ensures PlanOfSet(args, {id}) == [StepFor(args, id)]
  {
    assert Project(args, [id]) == [StepFor(args, id)];
    SortedProjection(args, [id]);
    PlanOfSetListed(args, {id}, [id]);
  }

  /**
   * The head of a plan is the step of a requested id whose step precedes
   * the step of every requested, known id.
   */
  lemma PlanHead(args: map<string, Argument>, m: multiset<string>, r: seq<PlanStep>, x: string)
    requires IsPlanOf(args, m, r)
    requires x in args && x in m
    requires forall y | y in m && y in args :: StepLeq(StepFor(args, x), StepFor(args, y))
    ensures |r| >= 1 && r[0] == StepFor(args, x)
  {
    var sx := StepFor(args, x);
    assert multiset(r)[sx] == m[x];
    assert sx in multiset(r);
    SortedHeadLeast(r, sx);
    PlanMembers(args, m, r);
    StepAntisymmetric(r[0], sx);
  }

  /** The id of the first step of the plan of `ids`; None when no id is known. */
  ghost function PlanHeadId(args: map<string, Argument>, ids: set<string>): (r: Option<string>)
    ensures r.Some? ==> r.value in args && r.value in ids
    ensures r.None? <==> forall i | i in ids :: i !in args
  {
    var steps := PlanOfSet(args, ids);
    PlanMembers(args, multiset(ids), steps);
    if steps == [] then
      assert forall i | i in ids && i in args :: StepFor(args, i) in multiset(steps);
      None
    else Some(steps[0].argId)
  }

  /** The head of the plan is the requested id whose step precedes every other requested, known id's. */
  lemma PlanHeadIdIs(args: map<string, Argument>, ids: set<string>, x: string)
    requires x in args && x in ids
    requires forall y | y in ids && y in args :: StepLeq(StepFor(args, x), StepFor(args, y))
    ensures PlanHeadId(args, ids) == Some(x)
  {
    PlanHead(args, multiset(ids), PlanOfSet(args, ids), x);
  }

  /** The plan for an id set, read in whatever order the set yields its members. */
  method OrderPlanFromSet(args: map<string, Argument>, ids: set<string>) returns (r: seq<PlanStep>)
    ensures r == PlanOfSet(args, ids)
    ensures IsPlanOf(args, multiset(ids), r)
    ensures forall k | 0 <= k < |r| :: Belongs(args, r[k]) && r[k].argId in ids
  {
    var order: seq<string> := [];
    var rest := ids;
    while rest != {}
      invariant rest <= ids
      invariant multiset(order) + multiset(rest) == multiset(ids)
      decreases rest
    {
      var i :| i in rest;
      assert multiset(rest) == multiset(rest - {i}) + multiset{i};
      order := order + [i];
      rest := rest - {i};
    }
    assert multiset(order) == multiset(ids);
    r := OrderPlan(args, order);
    OrderIndependent(args, order, Listing(ids));
    forall k | 0 <= k < |r|
      ensures r[k].argId in ids
    {
      assert r[k].argId in order;
      assert r[k].argId in multiset(ids);
    }
  }

  /** The id of the first step of the plan of `ids`, if there is one. */
  method FirstPlanned(args: map<string, Argument>, ids: set<string>) returns (r: Option<string>)
    ensures r == PlanHeadId(args, ids)
  {
    var steps := OrderPlanFromSet(args, ids);
    if steps == [] {
      return None;
    }
    return Some(steps[0].argId);
  }
}
