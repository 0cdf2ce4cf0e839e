/**
 * The adapter between a planner provider and the core: it accepts either an
 * argument list or an (arguments, attacks) pair from the provider and
 * converts every argument.
 */
module LlmAdapter {
  import opened Wrappers
  import opened Json
  import opened Arguments
  import opened LlmSchema

  /** What a provider returns: a pair of arguments and raw attacks, or just the arguments. */
  datatype ProviderOutput =
    | Pair(args: seq<LlmArgument>, attacks: seq<Json>)
    | ArgsOnly(args: seq<LlmArgument>)

  /** `[to_core(a) for a in llm_args]`: fails with the first argument that does not convert. */
  function ConvertAll(args: seq<LlmArgument>): (r: Result<seq<Argument>, SpecError>)
    ensures r.Success? <==> forall i | 0 <= i < |args| :: ToCore(args[i]).Success?
    ensures r.Success? ==> |r.value| == |args|
    ensures r.Success? ==> forall i | 0 <= i < |args| :: r.value[i] == ToCore(args[i]).value
    ensures r.Failure? ==> exists i | 0 <= i < |args| ::
      (ToCore(args[i]) == Failure(r.error) && forall j | 0 <= j < i :: ToCore(args[j]).Success?)
  {
    if args == [] then Success([])
    else
      match ToCore(args[0])
      case Failure(e) => Failure(e)
      case Success(a) =>
        match ConvertAll(args[1..])
        case Failure(e) =>
          assert exists i | 1 <= i < |args| ::
            (ToCore(args[i]) == Failure(e) && forall j | 0 <= j < i :: ToCore(args[j]).Success?) by {
            var k :| 0 <= k < |args| - 1 && ToCore(args[1..][k]) == Failure(e)
              && forall j | 0 <= j < k :: ToCore(args[1..][j]).Success?;
            assert ToCore(args[k + 1]) == Failure(e);
            forall j | 0 <= j < k + 1
              ensures ToCore(args[j]).Success?
            {
              if j > 0 {
                assert args[j] == args[1..][j - 1];
              }
            }
          }
          Failure(e)
        case Success(rest) => Success([a] + rest)
  }

  /**
   * `generate_arguments`: the provider's output split into arguments and
   * attacks (no attacks when it returned only arguments), every argument
   * converted in order, the attacks passed through unchanged.
   */
  function GenerateArguments(out: ProviderOutput): (r: Result<(seq<Argument>, seq<Json>), SpecError>)
    ensures r.Success? <==> ConvertAll(out.args).Success?
    ensures r.Success? ==> r.value.0 == ConvertAll(out.args).value
    ensures r.Success? ==> r.value.1 == (if out.Pair? then out.attacks else [])
  {
    match ConvertAll(out.args)
    case Failure(e) => Failure(e)
    case Success(core) => Success((core, if out.Pair? then out.attacks else []))
  }
}
