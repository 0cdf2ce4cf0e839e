/**
 * The argumentation solver: the accepted set the engine computes (every
 * argument nobody attacks), the priority filter on attacks, and, beside
 * them, the least fixpoint of Dung's characteristic function, which the
 * accepted set is the first step of.
 */
module AfSolver {
  import opened Wrappers
  import opened Arguments
  import opened SetFacts

  /** The ids some edge attacks. */
  function Targets(attacks: set<Edge>): (r: set<string>)
    ensures forall t :: t in r <==> exists a :: (a, t) in attacks
  {
    set e | e in attacks :: e.1
  }

  /**
   * The accepted set: exactly the arguments of the framework that no edge
   * targets. Edges between unknown ids are tolerated.
   */
  function GroundedExtension(af: ArgFramework): (r: set<string>)
    ensures r <= af.args.Keys
    ensures forall x :: x in r <==> x in af.args && forall a :: (a, x) !in af.attacks
  {
    af.args.Keys - Targets(af.attacks)
  }

  /** No two accepted arguments attack each other, and a self-attacker is never accepted. */
  lemma GroundedConflictFree(af: ArgFramework)
    ensures forall a, b | a in GroundedExtension(af) && b in GroundedExtension(af) :: (a, b) !in af.attacks
    ensures forall x | (x, x) in af.attacks :: x !in GroundedExtension(af)
  {
  }

  /** With no attacks every argument is accepted. */
  lemma GroundedNoAttacks(af: ArgFramework)
    requires af.attacks == {}
    ensures GroundedExtension(af) == af.args.Keys
  {
  }

  /** Every id an attack mentions names an argument. */
  predicate EndpointsKnown(args: map<string, Argument>, attacks: set<Edge>) {
    forall e | e in attacks :: e.0 in args && e.1 in args
  }

  /** The edges the priority filter keeps: the attacker's priority is at least the target's. */
  function PriorityFiltered(args: map<string, Argument>, attacks: set<Edge>): set<Edge> {
    set e | e in attacks && e.0 in args && e.1 in args && args[e.0].priority >= args[e.1].priority
  }

  /** Looking up an id the framework does not hold raises `KeyError(id)`. */
  datatype LookupError = KeyError(key: string)

  /**
   * Drop every attack whose attacker has strictly lower priority than its
   * target. An edge naming an unknown id fails with that id, the attacker
   * being looked up first.
   */
  method FilterAttacksByPriority(args: map<string, Argument>, attacks: set<Edge>)
    returns (r: Result<set<Edge>, LookupError>)
    ensures r.Success? <==> EndpointsKnown(args, attacks)
    ensures r.Success? ==> r.value == PriorityFiltered(args, attacks)
    ensures r.Failure? ==> r.error.key !in args
    ensures r.Failure? ==>
      exists e | e in attacks :: r.error.key == e.0 || (e.0 in args && r.error.key == e.1)
  {
    var kept: set<Edge> := {};
    var rest := attacks;
    while rest != {}
      invariant rest <= attacks
      invariant EndpointsKnown(args, attacks - rest)
      invariant kept == PriorityFiltered(args, attacks - rest)
      decreases rest
    {
      var e :| e in rest;
      if e.0 !in args {
        return Failure(KeyError(e.0));
      }
      if e.1 !in args {
        return Failure(KeyError(e.1));
      }
      if args[e.0].priority >= args[e.1].priority {
        kept := kept + {e};
      }
      rest := rest - {e};
    }
    assert attacks - rest == attacks;
    return Success(kept);
  }

  /** The filter keeps a subset and is idempotent: filtering its output changes nothing. */
  lemma FilterIdempotent(args: map<string, Argument>, attacks: set<Edge>)
    ensures PriorityFiltered(args, attacks) <= attacks
    ensures PriorityFiltered(args, PriorityFiltered(args, attacks)) == PriorityFiltered(args, attacks)
  {
  }

  /** An attack between equal priorities survives the filter; a lower-priority attacker's does not. */
  lemma FilterTies(args: map<string, Argument>, attacks: set<Edge>, e: Edge)
    requires e in attacks && e.0 in args && e.1 in args
    ensures args[e.0].priority == args[e.1].priority ==> e in PriorityFiltered(args, attacks)
    ensures args[e.0].priority < args[e.1].priority ==> e !in PriorityFiltered(args, attacks)
  {
  }

  // ---------------------------------------------------------------------
  // Dung's grounded semantics, for comparison with the accepted set above.

  /** Every attacker of `x` is itself attacked by a member of `s`. */
  predicate Defended(attacks: set<Edge>, s: set<string>, x: string) {
    forall e | e in attacks && e.1 == x :: exists c | c in s :: (c, e.0) in attacks
  }

  /** The characteristic function F(S): the arguments S defends. */
  function Characteristic(af: ArgFramework, s: set<string>): (r: set<string>)
    ensures r <= af.args.Keys
  {
    set x | x in af.args.Keys && Defended(af.attacks, s, x)
  }

  /** F applied `n` times to the empty set. */
  function Iterate(af: ArgFramework, n: nat): (r: set<string>)
    ensures r <= af.args.Keys
  {
    if n == 0 then {} else Characteristic(af, Iterate(af, n - 1))
  }

  /** The grounded extension proper: F iterated as often as there are arguments. */
  function GroundedLfp(af: ArgFramework): set<string> {
    Iterate(af, |af.args.Keys|)
  }

  /** The accepted set is F(∅): the arguments with no attacker at all. */
  lemma ShortcutIsFirstStep(af: ArgFramework)
    ensures GroundedExtension(af) == Characteristic(af, {})
  {
    forall x | x in af.args.Keys
      ensures x in GroundedExtension(af) <==> Defended(af.attacks, {}, x)
    {
      if !Defended(af.attacks, {}, x) {
        var e :| e in af.attacks && e.1 == x;
        assert (e.0, x) in af.attacks;
      }
    }
  }

  lemma CharacteristicMonotone(af: ArgFramework, s: set<string>, t: set<string>)
    requires s <= t
    ensures Characteristic(af, s) <= Characteristic(af, t)
  {
  }

  lemma {:induction false} IterateGrows(af: ArgFramework, n: nat)
    ensures Iterate(af, n) <= Iterate(af, n + 1)
  {
    if n > 0 {
      IterateGrows(af, n - 1);
      CharacteristicMonotone(af, Iterate(af, n - 1), Iterate(af, n));
    }
  }

  lemma {:induction false} IterateMonotone(af: ArgFramework, m: nat, n: nat)
    requires m <= n
    ensures Iterate(af, m) <= Iterate(af, n)
    decreases n - m
  {
    if m < n {
      IterateGrows(af, m);
      IterateMonotone(af, m + 1, n);
    }
  }

  /** The accepted set lies inside the grounded extension. */
  lemma ShortcutWithinLfp(af: ArgFramework)
    ensures GroundedExtension(af) <= GroundedLfp(af)
  {
    ShortcutIsFirstStep(af);
    if |af.args.Keys| == 0 {
      assert af.args.Keys == {};
    } else {
      IterateMonotone(af, 1, |af.args.Keys|);
    }
  }

  /** Once two consecutive iterates agree, the next one agrees too. */
  lemma IterateStable(af: ArgFramework, n: nat)
    requires Iterate(af, n) == Iterate(af, n + 1)
    ensures Iterate(af, n + 1) == Iterate(af, n + 2)
  {
    var b := Iterate(af, n);
    var c := Iterate(af, n + 1);
    assert Iterate(af, n + 2) == Characteristic(af, c);
    assert c == Characteristic(af, b);
  }

  /** The counting step behind stabilisation, on three consecutive iterates. */
  lemma ProgressStep(a: set<string>, b: set<string>, c: set<string>, n: nat)
    requires b <= c
    requires a == b || |b| >= n
    requires a == b ==> b == c
    ensures b == c || |c| >= n + 1
  {
    if b != c {
      StrictSubsetCard(b, c);
    }
  }

  /** Each step either has stabilised or has added at least one argument per step so far. */
  lemma {:induction false} IterateProgress(af: ArgFramework, n: nat)
    ensures Iterate(af, n) == Iterate(af, n + 1) || |Iterate(af, n + 1)| >= n + 1
  {
    IterateGrows(af, n);
    if n == 0 {
      assert Iterate(af, 0) == {};
    } else {
      IterateProgress(af, n - 1);
      if Iterate(af, n - 1) == Iterate(af, n) {
        IterateStable(af, n - 1);
      }
      ProgressStep(Iterate(af, n - 1), Iterate(af, n), Iterate(af, n + 1), n);
    }
  }

  /** The grounded extension is a fixpoint of F. */
  lemma LfpIsFixpoint(af: ArgFramework)
    ensures Characteristic(af, GroundedLfp(af)) == GroundedLfp(af)
  {
    var n := |af.args.Keys|;
    IterateProgress(af, n);
    if Iterate(af, n) != Iterate(af, n + 1) {
      SubsetCard(Iterate(af, n + 1), af.args.Keys);
      assert false;
    }
  }

  /** It is the least one: every set that F does not grow contains it. */
  lemma {:induction false} LfpLeast(af: ArgFramework, s: set<string>, n: nat)
    requires Characteristic(af, s) <= s
    ensures Iterate(af, n) <= s
  {
    if n > 0 {
      LfpLeast(af, s, n - 1);
      CharacteristicMonotone(af, Iterate(af, n - 1), s);
    }
  }

  /** No attack has both ends in `s`. */
  predicate ConflictFree(attacks: set<Edge>, s: set<string>) {
    forall e | e in attacks :: !(e.0 in s && e.1 in s)
  }

  /** F maps conflict-free sets to conflict-free sets. */
  lemma CharacteristicConflictFree(af: ArgFramework, s: set<string>)
    requires ConflictFree(af.attacks, s)
    ensures ConflictFree(af.attacks, Characteristic(af, s))
  {
  }

  lemma {:induction false} IterateConflictFree(af: ArgFramework, n: nat)
    ensures ConflictFree(af.attacks, Iterate(af, n))
  {
    if n > 0 {
      IterateConflictFree(af, n - 1);
      CharacteristicConflictFree(af, Iterate(af, n - 1));
    }
  }

  /** The grounded extension is conflict-free; in particular it holds no self-attacker. */
  lemma LfpConflictFree(af: ArgFramework)
    ensures ConflictFree(af.attacks, GroundedLfp(af))
    ensures forall x | (x, x) in af.attacks :: x !in GroundedLfp(af)
  {
    IterateConflictFree(af, |af.args.Keys|);
  }

  /**
   * On the chain A attacks B attacks C the two differ: the accepted set is
   * {A}, while the grounded extension also holds C, which A defends.
   */
  lemma ChainGap(af: ArgFramework)
    requires af.args.Keys == {"A", "B", "C"}
    requires af.attacks == {("A", "B"), ("B", "C")}
    ensures GroundedExtension(af) == {"A"}
    ensures GroundedLfp(af) == {"A", "C"}
  {
    assert |af.args.Keys| == 3;
    assert Iterate(af, 0) == {};
    assert !Defended(af.attacks, {}, "B");
    assert !Defended(af.attacks, {}, "C");
    assert Iterate(af, 1) == {"A"};
    assert ("A", "B") in af.attacks;
    assert Defended(af.attacks, {"A"}, "C");
    assert !Defended(af.attacks, {"A"}, "B");
    assert Iterate(af, 2) == {"A", "C"};
    assert Defended(af.attacks, {"A", "C"}, "C");
    assert !Defended(af.attacks, {"A", "C"}, "B");
    assert Iterate(af, 3) == {"A", "C"};
  }
}
