/**
 * Arguments as the language-model planner emits them, and their conversion
 * to core arguments.
 */
module LlmSchema {
  import opened Wrappers
  import opened Json
  import opened Arguments

  /**
   * A planner argument: action and verifier still as raw dictionaries.
   * Priority and deadline default to 0, the source to "llm_planner" and the
   * role to "planner".
   */
  datatype LlmArgument = LlmArgument(
    id: string,
    domain: string,
    topic: string,
    pre: seq<string>,
    action: map<string, Json>,
    effects: seq<string>,
    verify: map<string, Json>,
    priority: int := 0,
    deadlineMs: int := 0,
    source: string := "llm_planner",
    role: string := "planner")

  /** Why a dictionary cannot become an action or verifier spec. */
  datatype SpecError = MissingName | NameNotString | ParamsNotDict

  /** `d["name"]` and `d.get("params", {})`, as a name and a parameter map. */
  function SpecParts(d: map<string, Json>): (r: Result<(string, map<string, Json>), SpecError>)
    ensures r.Failure? <==> "name" !in d || !d["name"].JStr? || ("params" in d && !d["params"].JObj?)
    ensures r.Success? ==> "name" in d && d["name"] == JStr(r.value.0)
    ensures r.Success? ==> r.value.1 == (if "params" in d then d["params"].obj else map[])
    ensures "name" !in d ==> r == Failure(MissingName)
  {
    if "name" !in d then Failure(MissingName)
    else if !d["name"].JStr? then Failure(NameNotString)
    else if "params" in d && !d["params"].JObj? then Failure(ParamsNotDict)
    else Success((d["name"].s, if "params" in d then d["params"].obj else map[]))
  }

  /**
   * `to_core`: the same id, domain, topic, preconditions, effects, priority,
   * deadline, source and role, with the action and verifier dictionaries
   * turned into specs.
   */
  function ToCore(arg: LlmArgument): (r: Result<Argument, SpecError>)
    ensures r.Success? <==> SpecParts(arg.action).Success? && SpecParts(arg.verify).Success?
    ensures r.Success? ==>
      var a := r.value;
      a.id == arg.id && a.domain == arg.domain && a.topic == arg.topic && a.pre == arg.pre
      && a.effects == arg.effects && a.priority == arg.priority && a.deadlineMs == arg.deadlineMs
      && a.source == arg.source && a.role == arg.role
      && a.action == ActionSpec(SpecParts(arg.action).value.0, SpecParts(arg.action).value.1)
      && a.verify == VerifySpec(SpecParts(arg.verify).value.0, SpecParts(arg.verify).value.1)
  {
    match SpecParts(arg.action)
    case Failure(e) => Failure(e)
    case Success(act) =>
      match SpecParts(arg.verify)
      case Failure(e) => Failure(e)
      case Success(ver) =>
        Success(Argument(arg.id, arg.domain, arg.topic, arg.pre, ActionSpec(act.0, act.1), arg.effects,
                         VerifySpec(ver.0, ver.1), arg.priority, arg.deadlineMs, arg.source, arg.role))
  }

  /** A planner argument built with the defaults converts to a core argument from "llm_planner" in role "planner". */
  lemma DefaultsCarryOver(id: string, domain: string, topic: string, name: string, check: string)
    ensures var arg := LlmArgument(id, domain, topic, [], map["name" := JStr(name)], [], map["name" := JStr(check)]);
      ToCore(arg) == Success(Argument(id, domain, topic, [], ActionSpec(name, map[]), [],
                                      VerifySpec(check, map[]), 0, 0, "llm_planner", "planner"))
  {
  }
}
