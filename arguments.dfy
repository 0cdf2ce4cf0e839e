/**
 * The argument data model: an argument proposes one action under
 * preconditions, promises effects, names the check that confirms them,
 * and carries a priority, a deadline and provenance. An argumentation
 * framework is a map of arguments by id plus a set of directed attacks.
 */
module Arguments {
  import opened Wrappers
  import opened Json

  /** An action name plus its keyword parameters. */
  datatype ActionSpec = ActionSpec(name: string, params: map<string, Json>)

  /** A verifier name plus its keyword parameters. */
  datatype VerifySpec = VerifySpec(name: string, params: map<string, Json>)

  /**
   * One argument. `priority` defaults to 0, `deadlineMs` to 0 and `source`
   * to "rule". `role` is the extra keyword every domain rule set passes;
   * the dataclass as declared has no such field (see `ConstructAsDeclared`),
   * and the model adds it with the empty role as its default.
   */
  datatype Argument = Argument(
    id: string,
    domain: string,
    topic: string,
    pre: seq<string>,
    action: ActionSpec,
    effects: seq<string>,
    verify: VerifySpec,
    priority: int := 0,
    deadlineMs: int := 0,
    source: string := "rule",
    role: string := "")

  /** A directed attack `(attacker, target)` between argument ids. */
  type Edge = (string, string)

  datatype ArgFramework = ArgFramework(args: map<string, Argument>, attacks: set<Edge>)

  /** The no-parameter verifier every diagnosis argument carries. */
  function NoopVerify(): VerifySpec {
    VerifySpec("noop", map[])
  }

  /** Every argument is stored under its own id. */
  predicate KeyedById(args: map<string, Argument>) {
    forall k | k in args :: args[k].id == k
  }

  /** An argument built with the optional fields left out takes the documented defaults. */
  lemma DefaultFields(id: string, domain: string, topic: string, action: ActionSpec, verify: VerifySpec)
    ensures var a := Argument(id, domain, topic, [], action, [], verify);
      a.priority == 0 && a.deadlineMs == 0 && a.source == "rule" && a.role == ""
  {
  }

  /** The keyword arguments the `Argument` dataclass declares. */
  const DeclaredFields: set<string> :=
    {"id", "domain", "topic", "pre", "action", "effects", "verify", "priority", "deadline_ms", "source"}

  /** Python's message for a keyword the constructor does not declare. */
  function UnexpectedKeyword(k: string): string {
    "TypeError: __init__() got an unexpected keyword argument '" + k + "'"
  }

  /**
   * Calling the dataclass constructor as declared with these keywords, in
   * call order: None when it builds the argument, otherwise the TypeError
   * raised for the first keyword it does not declare.
   */
  function ConstructAsDeclared(keywords: seq<string>): (r: Option<string>)
    ensures r.None? <==> forall i | 0 <= i < |keywords| :: keywords[i] in DeclaredFields
    ensures r.Some? ==> exists i | 0 <= i < |keywords| ::
      keywords[i] !in DeclaredFields && r.value == UnexpectedKeyword(keywords[i])
  {
    if keywords == [] then None
    else if keywords[0] !in DeclaredFields then Some(UnexpectedKeyword(keywords[0]))
    else
      var rest := ConstructAsDeclared(keywords[1..]);
      assert forall i | 1 <= i < |keywords| :: keywords[i] == keywords[1..][i - 1];
      rest
  }

  /** Every constructor call that passes `role=` raises as the dataclass is declared. */
  lemma RoleKeywordRaises(keywords: seq<string>)
    requires "role" in keywords
    ensures ConstructAsDeclared(keywords) ==
      Some(UnexpectedKeyword(keywords[FirstUndeclared(keywords)]))
    ensures ConstructAsDeclared(keywords).Some?
  {
    FirstUndeclaredIsFirst(keywords);
  }

  /** The index of the first keyword the dataclass does not declare. */
  function FirstUndeclared(keywords: seq<string>): (i: nat)
    requires exists k | k in keywords :: k !in DeclaredFields
    ensures i < |keywords| && keywords[i] !in DeclaredFields
    ensures forall j | 0 <= j < i :: keywords[j] in DeclaredFields
  {
    if keywords[0] !in DeclaredFields then 0
    else
      assert exists k | k in keywords[1..] :: k !in DeclaredFields by {
        var k :| k in keywords && k !in DeclaredFields;
        assert k != keywords[0];
      }
      1 + FirstUndeclared(keywords[1..])
  }

  lemma {:induction false} FirstUndeclaredIsFirst(keywords: seq<string>)
    requires exists k | k in keywords :: k !in DeclaredFields
    ensures ConstructAsDeclared(keywords) ==
      Some(UnexpectedKeyword(keywords[FirstUndeclared(keywords)]))
  {
    if keywords[0] in DeclaredFields {
      assert exists k | k in keywords[1..] :: k !in DeclaredFields by {
        var k :| k in keywords && k !in DeclaredFields;
        assert k != keywords[0];
      }
      FirstUndeclaredIsFirst(keywords[1..]);
    }
  }
}
