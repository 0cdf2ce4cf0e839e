# Argumentation-based action selection, modelled in Dafny

The repository picks actions for an autonomous agent through argumentation. Each candidate action is an *argument*: an id, preconditions, an action, effects, a verifier, a priority and a deadline. Arguments *attack* one another. Three steps decide what runs:

- A priority filter drops every attack whose attacker ranks below its target.
- A solver computes the accepted set.
- A planner orders the accepted arguments by deadline, then priority, then id.

The demos then execute the plan, check the effect with a verifier and, in two of them, add a diagnosis argument that attacks the failed one and reason again. This project models:

- **The kernel:** the argument records, the attack filter, the solver and the planner.
- **The rule sets:** the fixed frameworks for the plant, drone, scraper and agent-OS domains.
- **The runs:** the single-step plant demos, the landing demo with its diagnosis round, and the three queue-driven desktop demos.
- **The verifier primitives:** bounded polling, the JSON-pointer walk, and the pure checks.
- **The language-model glue:** JSON-block extraction, configuration merging, schema conversion and adapter normalisation.
- **The helpers beside them:** ablation switches, per-source counters, the deadline classifier, the plant model's argument handling, and the drone sweep's policy choice and retry rule.
- **The report tool's text processing.**

Layout:

- Each core source file is one module.
- `Wrappers` (Option/Result), `PyStr` (the Python string operations used), `Json` (parsed JSON values with Python's `==`) and `SetFacts` are shared helpers.
- Python behaviour that matters is spelled out: `Json.Get` is `dict.get`, `dict.get` on a value that is not a dict raises, `float()` reads numbers, booleans and decimal text, lists and dicts cannot be hashed, iterating a non-iterable raises, and `dict(zip(...))` keeps the last value for a repeated key.

Where the code departs from the textbook notion or does not do what it evidently means, the model says so:

- **The accepted set.** Dung's grounded extension is the least fixpoint of the characteristic function. `grounded_extension` instead returns the arguments that nothing attacks (core/af_solver.py:3-6), and the model follows the code. `AfSolver.GroundedLfp` defines the fixpoint separately, and the model proves three facts about it:
  - it is a conflict-free fixpoint and the least one;
  - the code's set is its first iterate and always lies inside it;
  - the two differ on the chain A→B→C.
- **Unknown attack ends.** Nothing checks, when a framework is built, that an attack names known arguments. The solver tolerates unknown ends. `filter_attacks_by_priority` indexes `args[a]` and `args[b]` and so raises `KeyError`. The model does the same.
- **The `role` keyword.** Every rule set, the landing demo's diagnosis argument and the schema conversion construct `Argument` with a `role=` keyword, but the dataclass (core/arguments.py:14-27) declares no such field, so each of those calls raises `TypeError`. `Arguments.ConstructAsDeclared` models the constructor as declared. The rest of the model gives `Argument` a `role` field defaulting to `""`, the value `summarize_sources` reads through `getattr`. See "## Findings" and the lines under "## Left out".
- **The multistep demo as written.** It cannot run: it reads an undefined name (demos/scenario3_desktop_multistep_llm.py:186) and calls `.add` on a list (:288). It also replaces `args` with the language-model arguments alone (:232). The model runs the loop as the surrounding code evidently intends, with the arguments merged and the attack information kept as a list. It keeps the demo's second reading of the attack pairs (:231), which raises on entries the first reading accepts. It records the three defects under "## Left out".
- **Polling with a non-positive step.** The polling loop (core/verify.py:48-57) never ends when `dt <= 0` and `timeout >= 0`, since `t` never passes the timeout. Every caller passes 0.1. The model's polling checks require `dt > 0`.

Time, the plant, the simulator, the process and file checks, the language model and `json.loads` are parameters (oracles) of the runs that use them.

## Model

| member | source | states |
|---|---|---|
| Ablation.GetAblation | core/ablation.py:3-10 | the mode is always one of the four names; unset gives "none"; otherwise it is the stripped, lower-cased value when that names a mode and "none" when it does not |
| Ablation.SwitchesExclusive | core/ablation.py:12-14 | at most one of `is_no_af`, `is_no_diag`, `is_no_priority` holds, and none holds exactly in mode "none" |
| Ablation.ModeOf | core/ablation.py:12-14 | the three switches a run reads are the three predicates, and no two are on together |
| Ablation.CaseAndSpaceTolerant | core/ablation.py:7 | "  NO_AF\n" selects "no_af": surrounding whitespace and case do not matter |
| Ablation.PaddingAndCaseIgnored | core/ablation.py:7-10 | for any whitespace before and after and any value whose lower-case form names a mode, the mode is that lower-case name |
| PyStr.StripPadding | core/ablation.py:7 | `strip()` removes exactly the whitespace padding around a non-empty string that neither starts nor ends with whitespace |
| Ablation.StripPadded | core/ablation.py:7 | stripping "  NO_AF\n" leaves "NO_AF" |
| Ablation.LowerUpper | core/ablation.py:7 | lower-casing "NO_AF" gives "no_af" |
| Ablation.NearMissIsNone | core/ablation.py:8-9 | a near miss such as "no-af" falls back to "none" |
| Arguments.DefaultFields | core/arguments.py:14-27 | an argument built without the optional fields has priority 0, deadline 0 and source "rule", and the model's added role is "" |
| Arguments.ConstructAsDeclared | core/arguments.py:14-27 | the dataclass as declared builds an argument exactly when every keyword is one of its ten fields, and otherwise raises TypeError naming an undeclared keyword |
| Arguments.RoleKeywordRaises | core/arguments.py:14-27 | every constructor call passing `role=` raises TypeError, for the first undeclared keyword |
| Arguments.FirstUndeclared | core/arguments.py:14-27 | the first keyword of a call that the dataclass does not declare |
| AfSolver.Targets | core/af_solver.py:4 | a name is attacked exactly when some edge ends at it |
| AfSolver.GroundedExtension | core/af_solver.py:3-6 | the accepted set is exactly the framework's ids that no edge targets |
| AfSolver.GroundedConflictFree | core/af_solver.py:3-6 | no accepted argument attacks another, and a self-attacker is never accepted |
| AfSolver.GroundedNoAttacks | core/af_solver.py:3-6 | with no attacks every argument is accepted |
| AfSolver.FilterAttacksByPriority | core/af_solver.py:8-16 | succeeds exactly when every edge names known arguments, and then keeps exactly the edges whose attacker's priority is at least the target's; otherwise it fails with an unknown id from some edge, the attacker being looked up first |
| AfSolver.FilterIdempotent | core/af_solver.py:8-16 | the filter keeps a subset of the attacks, and filtering twice is filtering once |
| AfSolver.FilterTies | core/af_solver.py:14 | an attack between equal priorities survives; one from a lower-priority attacker does not |
| AfSolver.ShortcutIsFirstStep | core/af_solver.py:3-6 | the accepted set is the characteristic function applied to the empty set |
| AfSolver.ShortcutWithinLfp | core/af_solver.py:3-6 | the accepted set lies inside the least-fixpoint grounded extension |
| AfSolver.IterateProgress | core/af_solver.py:3-6 | each iterate of the characteristic function has either stabilised or grown by one argument per step, so the iteration settles within the number of arguments |
| AfSolver.LfpIsFixpoint | core/af_solver.py:3-6 | the least-fixpoint extension is a fixpoint of the characteristic function |
| AfSolver.LfpLeast | core/af_solver.py:3-6 | every iterate lies inside any set the characteristic function does not grow, so the fixpoint is the least one |
| AfSolver.LfpConflictFree | core/af_solver.py:3-6 | the least-fixpoint extension is conflict-free and holds no self-attacker |
| AfSolver.ChainGap | core/af_solver.py:3-6 | on A→B→C the accepted set is {A}, while the least fixpoint is {A, C} |
| Planner.StepAntisymmetric | core/planner.py:13 | two steps with equal sort keys are the same step, so the key order is total on steps |
| Planner.InsertSorted | core/planner.py:13 | inserting into a sorted sequence keeps it sorted |
| Planner.SortSteps | core/planner.py:13 | the sort returns a sorted permutation of its input |
| Planner.SortedUnique | core/planner.py:13 | two sorted sequences holding the same steps are equal |
| Planner.OrderPlan | core/planner.py:11-14 | the plan is sorted by (deadline ascending, priority descending, id ascending) and holds one step per known id, repeats included, with that argument's priority and deadline |
| Planner.PlanMembers | core/planner.py:11-14 | every step of a plan is the step of a requested, known id |
| Planner.PlanUnique | core/planner.py:11-14 | a plan is determined by the multiset of ids it is made from |
| Planner.OrderIndependent | core/planner.py:11-14 | reordering the ids does not change the plan |
| Planner.SortedProjection | core/planner.py:11-14 | when the known ids' steps already come in key order, the plan is exactly those steps |
| Planner.PlanOfSetListed | core/planner.py:11-14 | every listing of an id set gives the same plan |
| Planner.SingleStepPlan | core/planner.py:11-14 | the plan of one known id is its step |
| Planner.PlanHead | core/planner.py:11-14 | the plan's head is the step of a requested id whose step precedes every other requested, known id's step |
| Planner.PlanHeadIdIs | core/planner.py:11-14 | the first planned id of a set is its member whose step precedes every other member's |
| Planner.OrderPlanFromSet | core/planner.py:11-14 | planning an id set, whatever order the set yields its members in, gives the plan of that set |
| Planner.FirstPlanned | core/planner.py:11-14 | the first planned id, or none when no id is known |
| Verify.Poll | core/verify.py:48-57 | the shared polling loop: readings are samples 0, 1, … each taken within the timeout; a pass stops at the first good reading at its own time; a failure saw no good reading and stops at the first time past the timeout |
| Verify.PollPassIff | core/verify.py:48-57 | a poll passes exactly when some sample time within the timeout gives a good reading |
| Verify.BoundaryCounts | core/verify.py:50 | a good reading taken exactly at t == timeout still passes |
| Verify.FileExists | core/verify.py:4-11 | `file_exists` passes exactly when the path is present at some look within the timeout |
| Verify.FileHashEqual | core/verify.py:13-28 | `file_hash_equal` passes exactly when some look within the timeout finds the file with the expected digest |
| Verify.InBand | core/verify.py:41-57 | `in_band` passes exactly when some sample within the timeout is within `tol` of `target` |
| Verify.ReachThreshold | core/verify.py:60-76 | `reach_threshold` passes exactly when some sample within the timeout is on the `direction` side of `target`; any other direction never passes |
| Verify.ProcExitcodeOk | core/verify.py:30-37 | PASS exactly when the process completed with exit code 0; a timeout is FAIL; any other exception propagates |
| Verify.StdoutContains | core/verify.py:80-92 | PASS exactly when the process exited 0 and its stdout contains the text; every exception is FAIL |
| Verify.EmptyNeedle | core/verify.py:80-92 | with the default empty text only the exit code decides |
| Verify.StdoutRegex | core/verify.py:94-106 | PASS exactly when the process exited 0 and the regex engine found the pattern in its stdout; `MultistepChecks.CommandCheck` feeds it the workspace's search answer |
| Verify.PointerTokens | core/verify.py:119 | the walk's tokens are exactly the non-empty "/"-separated pieces of the pointer |
| Verify.PyIndex | core/verify.py:121-122 | Python list indexing: defined exactly for -len ≤ i < len, negative indices counting from the end |
| Verify.WalkMissingKey | core/verify.py:124 | a missing key reads as `None` instead of failing |
| Verify.WalkLastElement | core/verify.py:120-122 | the token "-1" selects a list's last element |
| Verify.WalkThroughNull | core/verify.py:124 | reaching `None` before the last token makes the walk fail |
| Verify.JsonFieldEquals | core/verify.py:108-128 | FAIL with "file_missing" when the file is absent; otherwise PASS exactly when the file parses, the walk succeeds and the value reached equals `expected` under Python's `==`; an error is reported exactly when something on the way raised |
| Verify.MissingKeyEqualsNull | core/verify.py:119-125 | expecting `null` at an absent key passes |
| Verify.DirContains | core/verify.py:130-133 | PASS exactly when the path is an existing directory whose entry count is at least `min_files`; used by `MultistepChecks.PathCheck` |
| Verify.DirContainsAntitone | core/verify.py:130-133 | asking for fewer entries never turns a pass into a failure |
| Verify.DirContainsNoMinimum | core/verify.py:130-133 | with `min_files` at most 0 only an existing directory is needed |
| Verify.FileGlobExists | core/verify.py:135-138 | PASS exactly when the glob yields at least one path; used by `MultistepChecks.PathCheck` |
| Timing.Classify | core/timing.py:52-60 | no deadline gives ""; PASS exactly within the deadline; SOFTMISS exactly beyond it but within `(hard_ratio or 1.0) * deadline`; HARDMISS exactly beyond both |
| Timing.ClassifyMonotone | core/timing.py:52-60 | a slower block never gets a better status under the same deadline |
| Timing.NoSoftBandWithoutSlack | core/timing.py:54-58 | with a ratio of at most 1 (the default included) and a non-negative deadline there is no SOFTMISS |
| Timing.TimingSession.constructor | core/timing.py:25-30 | a session starts with no rows, iteration 0, and its start time from `start_ms` or the clock |
| Timing.TimingSession.NewIter | core/timing.py:32-33 | the iteration counter goes up by one and the rows are unchanged |
| Timing.TimingSession.Measure | core/timing.py:46-71 | exactly one row is appended, carrying the current iteration, the offset from the session start, the duration, the deadline or -1.0, and the classified status |
| LoggingUtils.KeptEdgesFromEntries | core/logging_utils.py:3-10 | every kept edge is the first two items of an entry with at least two items; when every entry is well formed, none is dropped |
| LoggingUtils.NormalizeAttacks | core/logging_utils.py:3-10 | the loop returns exactly the kept edges, in entry order |
| LoggingUtils.TallyArguments | core/logging_utils.py:18-34 | after the first pass every key holds its arguments' count and accepted count, with no attacks yet |
| LoggingUtils.TallyAttacks | core/logging_utils.py:36-60 | after the second pass every key's out- and in-counts are the number of edges whose attacker or target is tallied under it, an unknown id under ("unknown", "") |
| LoggingUtils.InsertKeySorted | core/logging_utils.py:63 | inserting a new key into a strictly sorted key list keeps it strictly sorted |
| LoggingUtils.SortKeys | core/logging_utils.py:63 | `sorted(summary.keys())`: every key once, in increasing tuple order |
| LoggingUtils.AcceptedWithinTotal | core/logging_utils.py:32-34 | a key's accepted count never exceeds its total, so `max(total - accepted, 0)` is the plain difference |
| LoggingUtils.SummaryRows | core/logging_utils.py:18-60 | after both passes the summary holds exactly the keys of some argument or attack endpoint, each with that key's counts |
| LoggingUtils.BuildRows | core/logging_utils.py:62-78 | one row per key, in the order of the keys |
| LoggingUtils.RowsMeetSummary | core/logging_utils.py:62-79 | rows built in sorted key order cover exactly the summary's keys, once each, and every row holds its key's counts, rejections and acceptance rate |
| LoggingUtils.SummarizeSources | core/logging_utils.py:12-79 | one row per (source, role) that some argument or attack endpoint is tallied under, in key order; each row holds the key's total, accepted, rejected, rate, attacks out and attacks in, counted from the arguments and edges directly |
| LlmUtils.StripControlChars | llm/utils.py:4-6 | the result is no longer than the input and holds no C0 control other than tab, LF and CR |
| LlmUtils.StripControlCounts | llm/utils.py:4-6 | every character the filter keeps occurs in the result exactly as often as in the input |
| LlmUtils.StripControlAppend | llm/utils.py:4-6 | the filter distributes over concatenation |
| LlmUtils.StripControlClean | llm/utils.py:4-6 | text without such controls passes unchanged |
| LlmUtils.StripControlIdempotent | llm/utils.py:4-6 | filtering twice is filtering once |
| LlmUtils.ScanBalanced | llm/utils.py:8-38 | the loop with its bracket stack, string flag and escape flag returns or raises what the character-by-character scan specifies |
| LlmUtils.ScanFromOpener | llm/utils.py:8-38 | a successful scan from an opening bracket returns the text from it up to and including a closer matching it |
| LlmUtils.ScanErrors | llm/utils.py:28-30 | a closer at the start raises "Unbalanced JSON"; starting at the end raises "No balanced JSON found" |
| LlmUtils.ScanIsClosed | llm/utils.py:34-36 | the returned text scans to itself: one complete bracketed value with nothing after it |
| LlmUtils.StringsAreSkipped | llm/utils.py:16-25 | a bracket inside a string literal is ignored |
| LlmUtils.EscapedQuoteIsSkipped | llm/utils.py:17-20 | a backslash inside a literal escapes the next character, a quote included |
| LlmUtils.MismatchRaises | llm/utils.py:31-33 | a closer of the wrong kind raises "Mismatched JSON brackets" |
| LlmUtils.ExtractJsonBlock | llm/utils.py:40-70 | the whole text when it parses after the control filter; otherwise the fenced body when there is one and it parses; otherwise the scanner stage on the filtered fenced body, or on the raw text when there is no fence |
| LlmUtils.ScanStageRun | llm/utils.py:63-70 | the scanner starts at the first `{`, or at the first `[` only when there is no `{`; with neither it raises "No JSON object/array found" |
| LlmUtils.BraceBeforeBracket | llm/utils.py:64-68 | a `{` anywhere wins over an earlier `[` |
| LlmUtils.NoBracketNoJson | llm/utils.py:63-70 | text with no bracket raises the "no JSON" error |
| LlmUtils.NormalizeToArguments | llm/utils.py:74-84 | a list is returned as it is; an object whose "arguments" is a list gives that list; anything else raises, and only then |
| LlmUtils.NormalizeIdempotent | llm/utils.py:74-84 | normalising the normalised list returns it unchanged |
| LlmConfig.MergeSpec | llm/config.py:15-22 | the merge holds every key of either side |
| LlmConfig.Merge | llm/config.py:15-22 | the loop that copies `a` and writes `b`'s entries one at a time, recursing where both sides hold a dictionary, yields the recursive merge |
| LlmConfig.MergeEmptyRight | llm/config.py:15-22 | merging nothing in keeps `a` |
| LlmConfig.MergeEmptyLeft | llm/config.py:15-22 | merging into nothing gives `b` |
| LlmConfig.MergeIdempotent | llm/config.py:15-22 | merging a dictionary with itself changes nothing, at any depth |
| LlmConfig.MergePrecedence | llm/config.py:17-21 | `b` wins unless both values are dictionaries, in which case they are merged; keys only `a` has keep `a`'s value |
| LlmConfig.LoadLlmConfig | llm/config.py:24-52 | no file gives the defaults; a top level that is not an object raises; otherwise provider and model are replaced when present, `parameters` and `openai` are merged over the defaults when given as dictionaries, and the lmstudio block is built from the flat keys and then the nested block |
| LlmConfig.LoadLmStudio | llm/config.py:41-46 | the lmstudio block applies the flat `base_url` and `api_key` first and merges the nested block over them |
| LlmConfig.BaseUrlPrecedence | llm/config.py:41-46 | the lmstudio `base_url` comes from a plain value in the nested block, else from the flat key, else from the default |
| LlmSchema.SpecParts | llm/schema.py:20-22 | a spec dictionary converts exactly when it has a string "name" and its "params", if present, is a dictionary; the params default to empty |
| LlmSchema.ToCore | llm/schema.py:16-25 | conversion succeeds exactly when the action and the verifier convert, and copies id, domain, topic, preconditions, effects, priority, deadline, source and role unchanged |
| LlmSchema.DefaultsCarryOver | llm/schema.py:12-15 | an argument built with the defaults becomes a core argument with priority 0, deadline 0, source "llm_planner" and role "planner" |
| LlmAdapter.ConvertAll | llm/adapter.py:16 | all arguments convert, in order and one for one, or the first one that does not convert decides the error |
| LlmAdapter.GenerateArguments | llm/adapter.py:8-17 | the provider's output split into arguments and attacks (no attacks when only arguments came back), every argument converted, the attacks passed through unchanged |
| PlantRules.GenerateOvertempAf | domains/plant/rules.py:4-52 | the empty framework unless the temperature is strictly above the threshold; otherwise cool, wait and heat, each keyed by its id, at priorities 10, 1 and 0, all due within 200 ms, with cooling attacking the other two |
| PlantRules.OvertempAccepted | domains/plant/rules.py:47-51 | under an alarm only cooling is accepted, and the priority filter keeps both attacks |
| PlantRules.NoAlarmNothingAccepted | domains/plant/rules.py:6-8 | without an alarm nothing is accepted |
| PlantOverpressureRules.GenerateOverpressureAf | domains/plant/rules_overpressure.py:3-54 | the empty framework unless the pressure is strictly above the threshold; otherwise relief, inflow reduction and wait, each keyed by its id and requiring the alarm, with relief attacking the other two |
| PlantOverpressureRules.OverpressureAccepted | domains/plant/rules_overpressure.py:49-53 | under an alarm only relief is accepted, and the priority filter keeps both attacks |
| DroneRules.GenerateLandingAf | domains/drone/rules.py:12-44 | two `set_policy` arguments without preconditions, aggressive at priority 0 and conservative at 1, sharing one after-simulation check, with conservative attacking aggressive |
| DroneRules.LandingAccepted | domains/drone/rules.py:41-43 | the attack survives the priority filter and only the conservative policy is accepted |
| DemoAf.MakeDemoAf | demos/demo_af_grounded.py:4-46 | cool (10), wait (1) and heat (0), each keyed by its id, with cooling attacking the other two |
| DemoAf.DemoAccepted | demos/demo_af_grounded.py:48-52 | the extension the demo prints is {A_cool}, and both attacks survive the priority filter |
| ScraperRules.ScraperFramework | domains/desktop/rules_scraper.py:7-47 | the five tasks keyed by id with their priorities and deadlines, the precondition chain (the test run needs the scraper and the tests written, the scraper run needs the tests passed), the expected hashes in the checks, and the four gating attacks |
| ScraperRules.GenerateScraperAf | domains/desktop/rules_scraper.py:3-47 | the framework exactly when all three expected hashes are given; otherwise a KeyError naming the first missing one, in the order scraper, tests, output (a missing `out_sha` alone gives KeyError `out_sha`) |
| ScraperRules.ScraperAccepted | domains/desktop/rules_scraper.py:44-45 | all four attacks survive the priority filter, and the extension is the three writers |
| ScraperRules.InsertionOrderProject | domains/desktop/rules_scraper.py:12-42 | with these deadlines the steps, in insertion order, are already in key order |
| ScraperRules.ScraperPlan | domains/desktop/rules_scraper.py:12-42 | planning all five ids, in any order, gives html, scraper, tests, the test run, then the scraper run |
| AgentOsRules.GenerateAgentOsAf | domains/desktop/rules_agentos.py:3-47 | a run/check pair and one attack of the check on the run for each listed goal, ide hello first; a listed goal whose artifact path is missing raises KeyError for the first such one, and only then |
| AgentOsRules.NoGoalsEmpty | domains/desktop/rules_agentos.py:3-47 | without goals the framework is empty |
| AgentOsRules.GoalShape | domains/desktop/rules_agentos.py:8-44 | each run argument has priority 20 and no precondition; each check has priority 15 and the run's effect as its only precondition |
| AgentOsRules.AgentOsAccepted | domains/desktop/rules_agentos.py:25-45 | the priority filter would drop every attack (15 < 20), and the extension holds the checks and no run |
| PlanQueue.Drain | demos/scenario3_scraper.py:94-105 | the queue loop as a function of the queue, the facts and the pops left: never more executed steps than pops, never more pops than the budget, and a run cut off by the budget leaves a non-empty queue |
| PlanQueue.CompleteRunsEveryStep | demos/scenario3_scraper.py:94-158 | a run that empties its queue executed every step exactly as often as it occurs in the queue, and nothing else |
| PlanQueue.ExecutedStepsWereReady | demos/scenario3_scraper.py:61-105 | when executing only adds facts, the facts never shrink and every executed step's preconditions hold in the final facts |
| PlanQueue.ReadyInOrder | demos/scenario3_scraper.py:94-105 | when each step is ready on the facts its predecessors left and executes, the run completes with one pop per step, executing the steps in plan order |
| PlanQueue.StopsAtHead | demos/scenario3_scraper.py:127-128 | a ready head step whose check fails ends the run at the first pop, executing nothing |
| PlanQueue.RunQueue | demos/scenario3_scraper.py:94-158 | the imperative loop (pop the front, push back when not ready, otherwise execute; at most four pops per plan step) produces exactly the run the queue function describes |
| ScraperRun.UpdateFacts | demos/scenario3_scraper.py:64-80 | the facts grow by the fact the action kind implies and by every declared effect, and by nothing else |
| ScraperRun.ScraperStep | demos/scenario3_scraper.py:107-153 | a write is checked by its own file check, the test run by its exit code, the scraper run by its exit code and then its output hash; facts change only when every check passed; it raises exactly for an unknown action or a write with an unknown check |
| ScraperRun.ScraperCompleteRunsAll | demos/scenario3_scraper.py:94-160 | a completed scraper run executed each of the five steps exactly once |
| ScraperRun.ScraperMain | demos/scenario3_scraper.py:42-158 | `main` plans every argument, not only the accepted ones, and runs the queue with a budget of 20 pops |
| ScraperRun.FactsChain | demos/scenario3_scraper.py:64-80 | after the writes the scraper and test files are known facts, after the test run the tests have passed, and after the scraper run its output exists |
| ScraperRun.ReadyFrom | demos/scenario3_scraper.py:94-105 | with every check passing, steps that are stored under their ids, executable and ready on the facts before them form a ready chain |
| ScraperRun.AllChecksPass | demos/scenario3_scraper.py:94-160 | when every check passes, whatever the workspace held, the run completes: five pops, the five steps once each in plan order, and the facts record the passed tests and the output |
| AgentOsRun.UpdateFacts | demos/scenario3_agentos.py:38-40 | a successful run of either known goal records its artifact; any other step records nothing |
| AgentOsRun.AgentOsStep | demos/scenario3_agentos.py:54-71 | a `run_goal` step passes exactly when its goal exits 0 and only it adds facts; otherwise a `file_exists` check passes exactly when the artifact turns up; `noop` does nothing; anything else raises |
| AgentOsRun.InitialFacts | demos/scenario3_agentos.py:31-35 | the starting facts record exactly the artifacts already on disk |
| AgentOsRun.AgentOsMain | demos/scenario3_agentos.py:16-75 | a missing artifact path of a listed goal raises first; then both paths are looked up, so a missing one raises even for a goal not listed; otherwise the run is the queue over every argument, accepted or not, with four pops per step |
| AgentOsRun.BothGoalsPlan | demos/scenario3_agentos.py:27 | with both goals the plan is hello run, hello check, search run, search check, whatever order the ids come in |
| AgentOsRun.AllSucceed | demos/scenario3_agentos.py:42-75 | with both goals, every goal exiting 0 and every artifact found, the run completes in four pops whatever was on disk, each run before its check, and both artifacts end up recorded |
| AgentOsRun.HelloFailureStops | demos/scenario3_agentos.py:57-59 | a failing hello run ends the demo at the first pop, before any artifact is checked |
| AgentOsRun.RunsPlannedThoughRejected | demos/scenario3_agentos.py:25-27 | the solver never accepts a goal run, since its check attacks it, yet the demo executes it first, because it plans every argument |
| MultistepAf.EntryEdge | demos/scenario3_desktop_multistep_llm.py:188-194 | a raw attack entry names an edge only as a list of at least two ids or a dictionary with `from` and `to` |
| MultistepAf.EntryReason | demos/scenario3_desktop_multistep_llm.py:195-197 | a reason is taken only from a dictionary entry whose `reason` is truthy |
| MultistepAf.FirstError | demos/scenario3_desktop_multistep_llm.py:186-197 | none exactly when no entry raises; otherwise the error of an entry before which none raises |
| MultistepAf.FirstErrorAt | demos/scenario3_desktop_multistep_llm.py:186-197 | the first raising entry decides the error |
| MultistepAf.PairReadClean | demos/scenario3_desktop_multistep_llm.py:231 | an entry the pair reading accepts raises nothing on the first reading and gives no reason |
| MultistepAf.PairsGiveNoReasons | demos/scenario3_desktop_multistep_llm.py:231 | when the pair reading accepts every entry, no attack carries a reason |
| MultistepAf.AddEdge | demos/scenario3_desktop_multistep_llm.py:189-194 | one entry adds exactly the edge it names, and nothing else changes |
| MultistepAf.EdgeSource | demos/scenario3_desktop_multistep_llm.py:186-194 | every edge read comes from some entry that names it |
| MultistepAf.EdgePresent | demos/scenario3_desktop_multistep_llm.py:186-194 | every entry that names an edge contributes it |
| MultistepAf.AddReason | demos/scenario3_desktop_multistep_llm.py:195-197 | one entry records its reason for its edge, overwriting an earlier one, and leaves every other edge's reason alone |
| MultistepAf.LlmReasons | demos/scenario3_desktop_multistep_llm.py:184-197 | only edges that were read can carry a reason |
| MultistepAf.ReasonSource | demos/scenario3_desktop_multistep_llm.py:192-197 | an edge has a reason only when some entry gives it one |
| MultistepAf.ReasonPresent | demos/scenario3_desktop_multistep_llm.py:192-197 | every edge some entry gives a reason ends up with one |
| MultistepAf.LastReasonWins | demos/scenario3_desktop_multistep_llm.py:196-197 | the reason kept for an edge is the one given by the last entry giving it one |
| MultistepAf.NormalizeLlmAttacks | demos/scenario3_desktop_multistep_llm.py:184-197 | the loop raises TypeError at the first entry whose ends cannot be hashed, and otherwise computes exactly the edges and reasons stated entry by entry above |
| MultistepAf.ById | demos/scenario3_desktop_multistep_llm.py:199 | the id map holds exactly the ids of the list, each under its own id, each taken from the list |
| MultistepAf.ByIdLastWins | demos/scenario3_desktop_multistep_llm.py:199 | for a repeated id the last argument with that id is kept |
| MultistepAf.MergeAf | demos/scenario3_desktop_multistep_llm.py:29-54 | arguments, edges and reasons are unions of the two sides; the language model's side wins every clash |
| MultistepAf.MergeWithoutRules | demos/scenario3_desktop_multistep_llm.py:27-54 | with the rules switched off the merge changes nothing |
| MultistepAf.FilterAttacksWithInfo | demos/scenario3_desktop_multistep_llm.py:56-61 | it succeeds exactly when every reasoned edge names known ids; then it keeps the priority-filtered reasoned edges and exactly their reasons, and an edge without a reason never survives |
| MultistepAf.MakeDiagArg | demos/scenario3_desktop_multistep_llm.py:81-91 | the diagnosis argument has id `D_` plus the failed id, outranks it by one, keeps its domain, and needs, does, checks and promises nothing |
| MultistepAf.DiagDefeatsFailed | demos/scenario3_desktop_multistep_llm.py:287-301 | adding the diagnosis and its attack defeats the failed argument, with or without the priority filter, whatever else is attacked |
| MultistepChecks.FirstMissing | demos/scenario3_desktop_multistep_llm.py:494-517 | the first parameter a verifier looks up and does not find, or none exactly when all are present |
| MultistepChecks.CmdList | demos/scenario3_desktop_multistep_llm.py:349 | `list(cmd)` keeps a list as it is and turns a string into its characters |
| MultistepChecks.CwdPrefix | demos/scenario3_desktop_multistep_llm.py:350-353 | a real directory gives the prefix; `"."` and `""` never do; None is skipped by the check runner (474) but becomes `"None/"` in the action runner (352), which then raises before running anything |
| MultistepChecks.StripCwd | demos/scenario3_desktop_multistep_llm.py:352-355 | only the script path can change, only by dropping the `"<cwd>/"` prefix, and it does whenever the prefix is there |
| MultistepChecks.StripCwdRoundTrip | demos/scenario3_desktop_multistep_llm.py:474-477 | a script written as `"<cwd>/<script>"` is run as `<script>` |
| MultistepChecks.RunOneCheck | demos/scenario3_desktop_multistep_llm.py:467-518 | `noop` passes; an unknown name is SKIPPED; only a known check can raise; the command checks and the path checks give exactly what `CommandCheck` and `PathCheck` state |
| MultistepChecks.RunDir | demos/scenario3_desktop_multistep_llm.py:478 | `cwd or "."`: a falsy value gives ".", a string is kept, and a truthy non-string raises TypeError in `Path(...)` |
| MultistepChecks.CommandCheck | demos/scenario3_desktop_multistep_llm.py:500-508 | `cmd` is read first (KeyError when missing); a command that cannot be listed or a bad directory raises TypeError; `proc_exitcode_ok` passes exactly when the process completes with exit 0 and raises exactly when it raises; the stdout checks raise only on parameters and pass only on exit 0 with the text or pattern in stdout |
| MultistepChecks.StdoutContainsValue | demos/scenario3_desktop_multistep_llm.py:503-505 | once the command is read, `stdout_contains` raises KeyError without `must_include`, fails on a text that is not a string, and otherwise gives exactly the verdict of `stdout_contains` on the command's outcome |
| MultistepChecks.StdoutRegexValue | demos/scenario3_desktop_multistep_llm.py:506-508 | once the command is read, `stdout_regex` raises KeyError without `pattern` and otherwise gives exactly the verdict of `stdout_regex` on the command's outcome and the search answer |
| MultistepChecks.PathParam | demos/scenario3_desktop_multistep_llm.py:494-516 | `Path(acts_root, params[key])` fails with KeyError on a missing key and TypeError on a non-string, and otherwise is the string |
| MultistepChecks.PathCheck | demos/scenario3_desktop_multistep_llm.py:494-517 | the path is read first; a pass needs a readable path; the polling checks pass only on the workspace's verdict; `json_field_equals` passes only when the walk reaches a value equal to `expected`; `dir_contains` passes only on a directory with at least `min_files` entries and raises exactly when a directory meets a `min_files` that is not a number; the glob check passes only on a match |
| MultistepChecks.PathCheckValue | demos/scenario3_desktop_multistep_llm.py:494-517 | once the parameters are read, each path check gives exactly its verifier's verdict: the polling verdict (TypeError for a non-numeric timeout), the JSON walk's status (FAIL for a non-string pointer), the directory count against `min_files`, and the glob count or the glob's exception |
| MultistepChecks.VerifyAllSpec | demos/scenario3_desktop_multistep_llm.py:93-107 | a list of checks succeeds exactly when every check passes |
| MultistepChecks.SkippedFails | demos/scenario3_desktop_multistep_llm.py:492-518 | a check with an unknown name fails the step, since SKIPPED is not PASS |
| MultistepChecks.VerifyAll | demos/scenario3_desktop_multistep_llm.py:93-107 | the loop stops at the first check that does not pass, having run exactly the checks before it and that one |
| MultistepRun.AddEffects | demos/scenario3_desktop_multistep_llm.py:263-264 | the facts afterwards are exactly the old facts and the step's effects |
| MultistepRun.Checked | demos/scenario3_desktop_multistep_llm.py:380-381 | a step counts as verified exactly when all its checks pass, and as failed exactly when a check fails without raising; a checked step keeps its facts |
| MultistepRun.Attempt | demos/scenario3_desktop_multistep_llm.py:274-450 | effects are recorded before checking, except for `noop`; the verdict is that of the checks; a `run_proc` raises TypeError when its `cwd` is not a string, and otherwise stops the run exactly when its normalised command exits non-zero; exactly the four known actions are supported |
| MultistepRun.Diagnose | demos/scenario3_desktop_multistep_llm.py:286-309 | diagnosis adds `D_<id>` and its attack with the reason `diagnosis`, counts one more solve, and keeps the facts and counters |
| MultistepRun.Step | demos/scenario3_desktop_multistep_llm.py:267-450 | one pop executes at most one step; continuing keeps the framework; diagnosis happens only with diagnosis on, and names the popped argument |
| MultistepRun.StepCases | demos/scenario3_desktop_multistep_llm.py:267-450 | an unready step goes to the back of the queue (272); a verified step continues on the attempt's facts; a failed check stops the run with "verify failed (no diagnosis)" exactly when diagnosis is off (282-283) and otherwise diagnoses the popped argument; a failed process, an unsupported action and an exception stop it with their own reasons (377, 448) |
| MultistepRun.DiagnosisDropsFailed | demos/scenario3_desktop_multistep_llm.py:287-309 | after diagnosis the failed step is not in the new plan, with or without the priority filter |
| MultistepRun.Loop | demos/scenario3_desktop_multistep_llm.py:266-465 | the loop pops at most its budget, executes at most one step per pop, solves at most once more per pop, and never re-solves without diagnosis |
| MultistepRun.LoopBody | demos/scenario3_desktop_multistep_llm.py:267-450 | one pass of the loop body followed by the rest of the loop keeps the same bounds, counting the pass's own pop |
| MultistepRun.LoopProgress | demos/scenario3_desktop_multistep_llm.py:267-269 | a loop with a step queued and budget left pops at least once |
| MultistepRun.Exec | demos/scenario3_desktop_multistep_llm.py:274-450 | attempting a step, seen as a queue step, continues exactly when the step verifies, on the attempt's facts |
| MultistepRun.ExecGrows | demos/scenario3_desktop_multistep_llm.py:263-264 | a verified step never removes a fact |
| MultistepRun.LoopIsDrain | demos/scenario3_desktop_multistep_llm.py:266-465 | with diagnosis off the loop is the shared queue loop of the planner: the same pops, a pass exactly when the queue loop completes, "unmet preconditions remain" when its budget runs out (456), and the same failure or exception otherwise |
| MultistepRun.NoDiagPass | demos/scenario3_desktop_multistep_llm.py:266-465 | with diagnosis off a passing loop executed each queued step as often as it was queued and nothing else, each verified and ready on the final facts, and the facts only grew |
| MultistepRun.Start | demos/scenario3_desktop_multistep_llm.py:181-247 | the first solve raises exactly when an entry's ends cannot be hashed or the second pair reading (:231) fails on an entry; a successful one has no reasons, keys the arguments by id, and with the priority filter on (the default) plans every language-model argument |
| MultistepRun.MainSpec | demos/scenario3_desktop_multistep_llm.py:159-465 | the run pops at most four times the first plan's length; it raises before any pop exactly when the first solve raises |
| MultistepRun.MainNoDiagPass | demos/scenario3_desktop_multistep_llm.py:159-465 | with diagnosis off a passing demo started, executed every step of its first plan once per listing and nothing else, counts exactly that many steps, and each executed step was ready on the final facts |
| MultistepRun.AttemptStep | demos/scenario3_desktop_multistep_llm.py:274-450 | running a ready step through the check loop gives exactly its stated outcome |
| MultistepRun.DiagKeepsEndpoints | demos/scenario3_desktop_multistep_llm.py:288-291 | adding the diagnosis keeps every reasoned edge between known ids |
| MultistepRun.Rediagnose | demos/scenario3_desktop_multistep_llm.py:286-309 | the diagnosis round computes the stated state and cannot raise, since every reasoned edge names a known id |
| MultistepRun.DiagnoseKeeps | demos/scenario3_desktop_multistep_llm.py:288-298 | diagnosis keeps the arguments keyed by id and the edges between known ids |
| MultistepRun.StepOnce | demos/scenario3_desktop_multistep_llm.py:267-450 | one loop iteration computes exactly the stated step |
| MultistepRun.Advance | demos/scenario3_desktop_multistep_llm.py:267-450 | one iteration either ends the run with the loop's report or moves to a state from which the loop gives the same report |
| MultistepRun.RunLoop | demos/scenario3_desktop_multistep_llm.py:266-465 | the queue loop computes exactly the stated report |
| MultistepRun.LoopEnds | demos/scenario3_desktop_multistep_llm.py:452-465 | an empty queue passes; a spent budget with steps left fails as unmet preconditions |
| MultistepRun.MultistepMain | demos/scenario3_desktop_multistep_llm.py:159-465 | the demo computes exactly the stated run |
| OverpressureRun.Actuate | demos/scenario1_overpressure.py:85-90 | `open_relief` opens to `float(u)` (0.9 by default) and raises ValueError exactly when it does not convert; `set_inflow` always raises AttributeError, since the actuators have no such method and the lookup comes first; `noop` and unknown names succeed without a command |
| OverpressureRun.Number | demos/scenario1_overpressure.py:98-111 | `float(params[key])` succeeds exactly when the key is there and converts, a number giving itself, and raises KeyError or ValueError otherwise |
| OverpressureRun.Text | demos/scenario1_overpressure.py:99 | a string direction is kept as it is; any other value can be neither `down` nor `up` |
| OverpressureRun.Verdict | demos/scenario1_overpressure.py:94-114 | `in_band` and `reach_threshold` give the polling verdict exactly when their parameters are all there and convert under `float()`, `target` first; any other verifier raises ValueError |
| OverpressureRun.Check | demos/scenario1_overpressure.py:94-114 | the dispatch computes exactly that verdict |
| OverpressureRun.Execute | demos/scenario1_overpressure.py:82-127 | a logged run executed exactly one step after a successful command, in one solver iteration |
| OverpressureRun.RunSpec | demos/scenario1_overpressure.py:56-127 | a run logs FAIL with no step exactly when nothing is admitted; an admission the solver rejects entirely ends without metrics |
| OverpressureRun.Run | demos/scenario1_overpressure.py:56-127 | the run after sensing computes exactly that report |
| OverpressureRun.OverpressureMain | demos/scenario1_overpressure.py:20-127 | only the solver switch affects the run |
| OverpressureRun.AlarmRun | demos/scenario1_overpressure.py:20-127 | above 2.0 bar, in every mode, relief opens to 0.9 and the run passes exactly when the pressure comes within 0.05 of 1.2 before 30 s, in one step |
| OverpressureRun.AlarmShapeHolds | domains/plant/rules_overpressure.py:3-54 | above the threshold only relief is accepted among the three arguments, all with deadline 200 |
| OverpressureRun.ShapedRun | demos/scenario1_overpressure.py:56-127 | any framework of that shape runs the relief step, whichever ids are admitted |
| OverpressureRun.ReliefRun | demos/scenario1_overpressure.py:82-127 | the relief step opens to 0.9 and checks the 0.05 band around the target |
| OverpressureRun.BypassKeepsFullPlan | demos/scenario1_overpressure.py:56-82 | bypassing the solver changes only which plan is kept; its head is then taken over every argument |
| OvertempRun.Actuate | demos/scenario1_overtemp.py:91-96 | `open_valve` (valve `V_cool` and `u` 0.7 by default) and `set_heater_power` (`p` 0.0) raise exactly when their number does not convert under `float()`; `noop` and unknown names send no change |
| OvertempRun.RunSpec | demos/scenario1_overtemp.py:57-114 | a run logs FAIL with no step exactly when nothing is admitted; it can only raise on a parameter that does not convert |
| OvertempRun.Run | demos/scenario1_overtemp.py:57-114 | the run after sensing computes exactly that report |
| OvertempRun.OvertempMain | demos/scenario1_overtemp.py:20-114 | only the solver switch affects the run |
| OvertempRun.AlarmRun | demos/scenario1_overtemp.py:20-114 | above 80, in every mode, the cooling valve opens to 0.7 and the run passes exactly when the temperature enters 70 ± 0.5 within 30 s, in one step |
| OvertempRun.AlarmShapeHolds | domains/plant/rules.py:4-52 | above the threshold only cooling is accepted, and it opens `V_cool` to 0.7 |
| OvertempRun.ShapedRun | demos/scenario1_overtemp.py:73-114 | any framework of that shape runs the cooling step |
| OvertempRun.CoolCommand | demos/scenario1_overtemp.py:91-92 | the cooling action opens `V_cool` to 0.7 |
| OvertempRun.QuietRun | demos/scenario1_overtemp.py:62-66 | at or below the threshold the run logs FAIL with no step |
| OvertempRun.BypassOverridden | demos/scenario1_overtemp.py:57-81 | bypassing the solver only matters when the solver accepts nothing: the bypass then ends without metrics where the solver logs FAIL |
| SingleStep.CheckInBand | core/verify.py:41-57 | the band verdict is that some sample within the timeout lies within `tol` of the target |
| SingleStep.CheckThreshold | core/verify.py:60-76 | the threshold verdict is that some sample within the timeout is on the given side of the target |
| Landing.VerifyAfterSim | demos/scenario2_landing.py:109-119 | a landing passes exactly when it ends on the ground inside the zone, no faster than the bound and no later than the time limit |
| Landing.VerifyMonotone | demos/scenario2_landing.py:109-119 | a landing that passes under some bounds passes under looser ones |
| Landing.SpeedComponents | demos/scenario2_landing.py:114-115 | a landing that is slow enough is slow enough in each direction |
| Landing.FirstSetPolicy | demos/scenario2_landing.py:160-168 | the position of the first `set_policy` step, or none exactly when the plan has none |
| Landing.SelectPolicy | demos/scenario2_landing.py:160-168 | the scan of the plan finds exactly that position |
| Landing.PolicyName | demos/scenario2_landing.py:164-170 | a policy is taken exactly when the step's params hold a non-null `name`, and it is that value |
| Landing.Opposite | demos/scenario2_landing.py:232 | the second attempt simulates the other policy: the aggressive one exactly when the first was not |
| Landing.Bound | demos/scenario2_landing.py:180-184 | a bound is read exactly when its key is there and holds a number |
| Landing.Bounds | demos/scenario2_landing.py:109-116 | all three bounds come from the aggressive policy's check, whichever policy runs; all three are looked up (184) before any is compared, so a missing bound raises KeyError before a non-numeric one raises TypeError, and the comparisons meet zone, speed and time in that order |
| Landing.MissingBeforeNotNumeric | demos/scenario2_landing.py:184 | a missing speed bound raises KeyError even when the zone radius before it is a string |
| Landing.LandingDiagArg | demos/scenario2_landing.py:208-216 | the diagnosis argument is `D_` plus the chosen id, two above it in priority, and does and checks nothing |
| Landing.Rediagnose | demos/scenario2_landing.py:210-224 | after diagnosis the chosen policy's argument is never accepted |
| Landing.Attempts | demos/scenario2_landing.py:159-258 | at most two policies are tried; none exactly when the plan sets none; one when it passes or diagnosis is off, with the verdict on the bounds; two otherwise, the opposite policy second, with the first one's argument rejected by the re-solve |
| Landing.RunAttempts | demos/scenario2_landing.py:159-258 | the run after planning computes exactly those attempts |
| Landing.LandingMain | demos/scenario2_landing.py:121-258 | `main` computes exactly the stated run, raising when it does |
| Landing.LandingAfShape | domains/drone/rules.py:12-44 | the demo's framework has two policies, the conservative one attacking and outranking the aggressive one, with the demo's bounds |
| Landing.TwoStepPlan | core/planner.py:11-14 | two steps already in key order are planned in that order |
| Landing.SolvedPlan | demos/scenario2_landing.py:140-155 | with the solver on, only the conservative policy is accepted and planned |
| Landing.ConservativeFirst | demos/scenario2_landing.py:140-168 | in every mode the conservative policy's step heads the plan |
| Landing.ShapeBounds | demos/scenario2_landing.py:180-184 | the bounds read are zone 1.5, speed 0.6 and time 20 |
| Landing.DiagnosisAgainstConservative | demos/scenario2_landing.py:206-224 | after diagnosing the conservative policy its diagnosis is accepted, and the aggressive policy only when the first solve was bypassed |
| Landing.AttemptsFromConservative | demos/scenario2_landing.py:159-258 | with the conservative step first, it is tried first; the run stops there exactly when it passes or diagnosis is off, and otherwise the aggressive policy decides |
| Landing.ShapedRun | demos/scenario2_landing.py:121-258 | on a framework of the demo's shape, the conservative landing is tried first and the aggressive one second only after a failure with diagnosis on, although the re-solved framework accepts it only when the solver was bypassed |
| Landing.DemoRun | demos/scenario2_landing.py:121-258 | the demo's own run tries the conservative policy first and stops there exactly when it passes or diagnosis is off |
| SweepDrone.ChoiceSpec | tools/sweep_drone.py:53-66 | the choice raises exactly when an attack names an unknown id, the priority filter being applied in every mode |
| SweepDrone.ChoosePolicy | tools/sweep_drone.py:55-66 | the filter, solve, plan and scan compute exactly that choice |
| SweepDrone.ChoosePolicyViaAf | tools/sweep_drone.py:53-66 | the choice is made on the landing framework built from the three bounds |
| SweepDrone.ConservativeChosen | tools/sweep_drone.py:53-66 | whatever the bounds, the conservative policy is chosen |
| SweepDrone.ShapedChoice | tools/sweep_drone.py:56-65 | any framework of the landing shape plans the conservative step alone and it names the policy |
| SweepDrone.CellRetry | tools/sweep_drone.py:94-107 | a cell keeps its first policy exactly when that landing passes and otherwise switches to the opposite one; it succeeds exactly when one of the two passes; its touchdown time is the last landing's |
| SweepDrone.ConservativeCell | tools/sweep_drone.py:94-123 | with the conservative policy chosen, the policy map shows 1 exactly when the conservative landing passes, and success exactly when either landing passes |
| SweepDrone.Sweep | tools/sweep_drone.py:68-125 | the three maps are new, start at -1, 0 and `max_time + 1`, and every cell holds its own outcome; the sweep raises exactly when the grid is non-empty and the choice raises |
| SweepDrone.SweepGrid | tools/sweep_drone.py:75-125 | the same sweep with the choice made on a given framework |
| SweepDrone.FillRow | tools/sweep_drone.py:92-123 | one row is filled cell by cell and no other row changes |
| SweepDrone.FillCell | tools/sweep_drone.py:93-123 | one cell records its outcome in the three maps and no other cell changes |
| SweepDrone.SweepCellConservative | tools/sweep_drone.py:68-123 | on the landing framework the sweep never raises and every cell starts from the conservative landing |
| PlantModel.Clamp | domains/plant/model.py:4-5 | the result lies in `[lo, hi]` whenever `lo <= hi`, is `x` inside the range and the nearer end outside it; with `hi < lo` it is `lo` |
| PlantModel.ClampIdempotent | domains/plant/model.py:4-5 | clamping twice is clamping once |
| PlantModel.PlantSim.constructor | domains/plant/model.py:7-18 | the plant holds exactly the given state, ambient value, valve opening and gains |
| PlantModel.Sensors.constructor | domains/plant/model.py:25-26 | the sensors read the given plant |
| PlantModel.Sensors.ReadTemp | domains/plant/model.py:28-30 | the temperature read is the plant's state |
| PlantModel.Sensors.ReadPressure | domains/plant/model.py:32-34 | the pressure read is the same state as the temperature |
| PlantModel.Sensors.ReadP | domains/plant/model.py:37-38 | `read_p` reads the same state |
| PlantModel.Actuators.constructor | domains/plant/model.py:42-43 | the actuators drive the given plant |
| PlantModel.Actuators.OpenValve | domains/plant/model.py:45-47 | whatever its name, the valve opening becomes `u` clamped to `[0, 1]`, and nothing else changes |
| PlantModel.Actuators.OpenRelief | domains/plant/model.py:50-64 | one or two arguments set the valve from `float()` of the last one; any other count raises TypeError and a value that does not convert raises ValueError, leaving the valve as it was; nothing else changes |
| PlantModel.Actuators.OpenVent | domains/plant/model.py:66-79 | the same dispatch as `open_relief` |
| PlantModel.Actuators.SetValve | domains/plant/model.py:81-82 | `set_valve` clamps the opening to `[0, 1]` like `open_valve`, whatever the name, and nothing else changes |
| PlantModel.Actuators.SetRelief | domains/plant/model.py:84-85 | `set_relief` clamps the opening to `[0, 1]` like `open_valve`, whatever the name, and nothing else changes |
| PlantModel.Actuators.SetHeaterPower | domains/plant/model.py:88-90 | setting the heater power changes no field of the plant: state, ambient value, valve and both gains stay |
| PlantModel.FirstGiven | domains/plant/model.py:110-123 | the first alias given wins; the default applies only when none is given |
| PlantModel.PrecedenceOfThree | domains/plant/model.py:110-123 | with three aliases the first given one wins, in order, before the default |
| PlantModel.MakePlant | domains/plant/model.py:101-127 | the state comes from `T`, `temp`, `pressure`, else 85.0; the ambient value from `T_ambient`, `T_env`, `p_env`, else 25.0; `p` and `p_ambient` are never read |
| Json.NumericValue | demos/scenario1_overpressure.py:86 | the number a value stands for under `==`: a number itself, a boolean 0 or 1, anything else none |
| Json.PyFloat | demos/scenario1_overpressure.py:86 | `float(v)`: a number or a boolean gives its numeric value, a string is read as decimal text, and None, a list or a dict raise |
| Json.PyFloatOfText | demos/scenario1_overpressure.py:86 | a natural number sent as its decimal text converts back to itself |
| Json.PyEqReflexive | core/verify.py:125 | every decoded value equals itself, decoded numbers being finite |
| Json.PyEqSymmetric | core/verify.py:125 | `==` on decoded values is symmetric |
| AfSummarize.StripAll | tools/af_summarize.py:41-45 | every field is stripped, in place and order |
| AfSummarize.ZipDictKeys | tools/af_summarize.py:46 | a row's columns are the header names that are paired with a field |
| AfSummarize.ZipDictValue | tools/af_summarize.py:46 | a column's value is the field paired with its last occurrence in the header |
| AfSummarize.DataLines | tools/af_summarize.py:42-44 | the data lines are a subsequence of the lines |
| AfSummarize.DataLinesAllKept | tools/af_summarize.py:42-44 | with no blank line every line gives a row |
| AfSummarize.DataLinesSkipBlank | tools/af_summarize.py:43-44 | a blank line gives no row |
| AfSummarize.DataLinesComplete | tools/af_summarize.py:42-44 | every non-blank line gives a row |
| AfSummarize.RowColumns | tools/af_summarize.py:41-46 | every row's columns are header names |
| AfSummarize.ReadCsvRows | tools/af_summarize.py:34-47 | a missing or empty file gives no rows; otherwise the first line is the header and each non-blank later line gives its stripped, zipped row |
| AfSummarize.ReadDataRows | tools/af_summarize.py:42-46 | the loop gives exactly one row per data line, in order |
| AfSummarize.SplitLastPiece | tools/af_summarize.py:54 | `split(sep)[-1]` is what follows the last separator, or the whole text when there is none, and holds no separator |
| AfSummarize.SplitFirstPiece | tools/af_summarize.py:54 | `split(sep)[0]` is the text up to the first separator, or all of it |
| AfSummarize.IterIndexParts | tools/af_summarize.py:50-57 | the index is `int` of the text after the last `_iter`, cut at its first `.csv` |
| AfSummarize.GetField | tools/af_summarize.py:67-73 | `.get` raises exactly on a value that is not a dict |
| AfSummarize.Items | tools/af_summarize.py:74-88 | a list is iterated over its elements; None, a boolean or a number cannot be iterated |
| AfSummarize.DiagnosisEdges | tools/af_summarize.py:74-78 | a diagnosis gives at most one edge per item, each with the diagnosis reason |
| AfSummarize.Mine | tools/af_summarize.py:62-79 | the accepted list is the last one listed, present exactly when one was; every diagnosis edge has the diagnosis reason; an event that is not a dict raises |
| AfSummarize.LastGroundedExtension | tools/af_summarize.py:67-70 | the accepted list is that of the last `grounded_extension` event, whatever follows it |
| AfSummarize.NoGroundedExtension | tools/af_summarize.py:63-79 | with no `grounded_extension` event the accepted list is `[]` |
| AfSummarize.AppendDiagnosisEdges | tools/af_summarize.py:74-78 | one `attacks_add` list appends exactly its diagnosis edges, in order |
| AfSummarize.MineStep | tools/af_summarize.py:67-78 | one loop iteration computes exactly the stated event step |
| AfSummarize.CollectFromJsonl | tools/af_summarize.py:62-79 | the function computes exactly the stated mining |
| AfSummarize.FailureStays | tools/af_summarize.py:66-78 | once an event raises, the rest of the log does not matter |
| AfSummarize.ItemEdges | tools/af_summarize.py:88-92 | at most one edge per attack item |
| AfSummarize.EventEdges | tools/af_summarize.py:84-92 | a dict event of another kind gives no edge |
| AfSummarize.ItemEdgeCases | tools/af_summarize.py:89-92 | a list item of two or more gives its first two with an empty reason; a dict gives `from`, `to` and `reason`, each defaulting to ""; any other item gives nothing |
| AfSummarize.NoArgumentsNoEdges | tools/af_summarize.py:85 | a log without `arguments` events gives no edges |
| AfSummarize.ItemEdgesAllKept | tools/af_summarize.py:88-92 | when every item is an edge, there is one edge per item |
| AfSummarize.AppendItemEdges | tools/af_summarize.py:88-92 | one attack list appends exactly its edges, in order |
| AfSummarize.CollectAttacksFromEvents | tools/af_summarize.py:82-93 | the function computes exactly the stated edges |
| AfSummarize.AppendItemEdgesOf | tools/af_summarize.py:88-92 | an event's edges are appended after the earlier ones |
| AfSummarize.AttackFailureStays | tools/af_summarize.py:84-92 | once an event raises, the rest of the log does not matter |
| AfSummarize.Canon | tools/af_summarize.py:100-101 | a hashable value keeps being hashable under the canonical form |
| AfSummarize.CanonIsPyEq | tools/af_summarize.py:100-101 | two hashable values are equal in Python exactly when their canonical forms coincide, so `True` and `1` are one key |
| AfSummarize.Unique | tools/af_summarize.py:96-105 | removing duplicates never lengthens the list |
| AfSummarize.UniqueKeys | tools/af_summarize.py:96-105 | no key is lost |
| AfSummarize.UniqueFirstOccurrences | tools/af_summarize.py:96-105 | the kept edges have pairwise different keys, each is the first edge of its key, and they keep the input's order |
| AfSummarize.UniqueIdempotent | tools/af_summarize.py:96-105 | removing duplicates twice is removing them once |
| AfSummarize.DistinctUnchanged | tools/af_summarize.py:96-105 | edges with pairwise different keys are kept as they are |
| AfSummarize.UniqueEdges | tools/af_summarize.py:96-105 | the loop computes exactly the stated removal, raising on an unhashable key |
| AfSummarize.ReasonMap | tools/af_summarize.py:120 | every edge's endpoint pair is in the map |
| AfSummarize.ReasonMapKeys | tools/af_summarize.py:120 | a pair is in the map exactly when some edge is filed under it |
| AfSummarize.ReasonMapLast | tools/af_summarize.py:120 | a pair's reason is that of the last edge filed under it |
| AfSummarize.MergeRow | tools/af_summarize.py:123-127 | a merged row keeps the row's attacker and target |
| AfSummarize.AttachReasonsSpec | tools/af_summarize.py:119-128 | one merged row per table row |
| AfSummarize.ReasonOfRow | tools/af_summarize.py:119-128 | a row's reason is that of the last edge with its attacker and target, or "" when there is none |
| AfSummarize.BuildReasonMap | tools/af_summarize.py:120 | the map built edge by edge is the stated map |
| AfSummarize.AttachReasons | tools/af_summarize.py:119-128 | the function computes exactly the stated merge |
| PyStr.Strip | tools/af_summarize.py:41-45 | `str.strip()` keeps a slice that neither starts nor ends with whitespace |
| PyStr.StripIdempotent | tools/af_summarize.py:41-45 | stripping twice is stripping once |
| PyStr.Split | tools/af_summarize.py:41-54 | `str.split(sep)` gives pieces that join back into the text and hold no separator |
| PyStr.SplitLines | tools/af_summarize.py:38 | `str.splitlines()` gives lines without line breaks, none exactly for the empty text |
| PyStr.ParseInt | tools/af_summarize.py:54 | `int(s)` succeeds only on text that is not blank |
| PyStr.ParseNatToString | tools/af_summarize.py:54 | `int(str(n)) == n` |
| PyStr.ParsePad2 | demos/scenario3_desktop_multistep_llm.py:122 | the two-digit iteration suffix reads back as its number |
| PyStr.ParseNegative | core/verify.py:121-122 | `int("-" + digits)` is minus the digits' value, the form of a negative list index |
| PyStr.FractionValue | demos/scenario1_overpressure.py:86 | the digits after a decimal point read as a value in [0, 1) |
| PyStr.UnsignedDecimal | demos/scenario1_overpressure.py:86 | an unsigned decimal literal is never negative |
| PyStr.ParseFloat | demos/scenario1_overpressure.py:86 | `float(s)` on text succeeds only on text that is not blank, with the sign of its leading character |
| PyStr.ParseFloatOfInt | demos/scenario1_overpressure.py:86 | whatever `int()` reads, `float()` reads as the same number |
| PyStr.DigitGroupDecimal | demos/scenario1_overpressure.py:86 | a digit group reads as its whole number |
| PyStr.DecimalFractions | demos/scenario1_overpressure.py:86 | `"1.25"` reads as 1.25 and `".5"` as 0.5 |
| PyStr.LexTotal | core/logging_utils.py:63 | Python's string order is total |
| PyStr.LexAntisymmetric | core/logging_utils.py:63 | Python's string order is antisymmetric |
| PyStr.LexTransitive | core/logging_utils.py:63 | Python's string order is transitive |
| AfSolver.Characteristic | core/af_solver.py:3-6 | the arguments a set defends are always arguments of the framework |
| AfSolver.IterateMonotone | core/af_solver.py:3-6 | the iterates of the characteristic function only grow |
| AfSolver.IterateStable | core/af_solver.py:3-6 | once two consecutive iterates agree, every later one agrees |
| AfSolver.IterateConflictFree | core/af_solver.py:3-6 | every iterate is conflict-free |
| Planner.PlanOfSet | core/planner.py:11-14 | the plan of an id set is a sorted projection of its known ids |
| Planner.PlanHeadId | core/planner.py:11-14 | the head of the plan is a requested, known id, and there is none exactly when no requested id is known |
| AgentOsRules.PartsAccepted | domains/desktop/rules_agentos.py:8-45 | with a run and check pair per listed goal, the filter drops every attack and the solver accepts exactly the checks |
| LoggingUtils.KeptEdges | core/logging_utils.py:3-10 | at most one edge per raw entry |
| AgentOsRun.BothGoalsArgs | domains/desktop/rules_agentos.py:8-44 | both goals with both artifacts give the four arguments with deadlines 50, 60, 70 and 80 |
| AgentOsRun.AllReady | demos/scenario3_agentos.py:37-71 | with every goal exiting 0 and every artifact found, each plan step is ready in turn and executes |
| AgentOsRun.HeadStops | demos/scenario3_agentos.py:45-59 | when the hello run heads the plan and exits non-zero, the run fails at the first pop with nothing executed |
| ScraperRun.AllReady | demos/scenario3_scraper.py:61-105 | with every check passing, each plan step is ready in turn and executes |
| ScraperRun.AllPassOn | demos/scenario3_scraper.py:94-105 | the all-pass run completes on any framework holding the five scraper arguments |
| Verify.NonEmpty | core/verify.py:119 | the kept pointer tokens are exactly the non-empty ones |

## Left out

- File and console I/O are not modelled: `log_event`, `span`, `log_metrics`, `export_csv`, `write_csv`, `plot_timing`, `now_ms`, the demos' `_export_tables` and `_append_verifier_stats`, and the console helpers. The runs return what they would log (status, steps executed, solver iterations) instead.
- The report tool's file handling and rendering are not modelled: `read_jsonl`, `list_iter_csvs` (glob and sort), `_table`, `render_html` and `main` in tools/af_summarize.py. The CSV reader takes the file's text, or None for a missing file.
- AfSummarize.Items: a string or a dict is given as no items. Iterating them yields strings, which no loop there turns into an edge, so the edges are the same.
- MultistepChecks.CmdList: a `cmd` that is a dict (which `list()` turns into its keys) is treated as one that cannot be listed, and raises TypeError.
- MultistepChecks.CwdPrefix: a falsy `cwd` that is neither a string nor None (0, False, an empty list or dict) is not rendered as a prefix in the check runner; such a cwd reaches the script-path strip in the source as `"0/"` or `"False/"`. A truthy non-string cwd raises in both runners, as in the source.
- Arguments.DefaultFields: the `role` field and its default do not exist in the source. core/arguments.py:14-27 declares no `role`, so the call sites at domains/drone/rules.py:25,37, domains/plant/rules_overpressure.py:19,32,45, domains/desktop/rules_agentos.py:14,23,34,43, demos/scenario2_landing.py:215 and llm/schema.py:24 raise TypeError in the source. `Arguments.ConstructAsDeclared` and `Arguments.RoleKeywordRaises` model that.
- PlantOverpressureRules.GenerateOverpressureAf: above the threshold the source raises TypeError at its first `Argument(..., role="policy")` call; the model builds the framework the surrounding code evidently intends.
- DroneRules.GenerateLandingAf: the source raises TypeError at its first `role=` call; the model builds the intended framework.
- AgentOsRules.GenerateAgentOsAf: for any listed goal the source raises TypeError at its first `role=` call; the model builds the intended framework.
- Landing.LandingDiagArg: the source raises TypeError on the `role=` keyword; the model builds the intended diagnosis argument.
- LlmSchema.ToCore: the source raises TypeError on the `role=` keyword for every argument; the model converts as evidently intended. It also requires a string action name and dict params (see SpecParts).
- LlmSchema.DefaultsCarryOver: in the source this conversion raises TypeError on the `role=` keyword; the lemma states the intended conversion.
- LlmSchema.SpecParts: a spec whose `name` is not a string or whose `params` is not a dict is rejected, while the source copies any such value into the `ActionSpec` or `VerifySpec` unchecked; names and params are modelled as strings and dicts only.
- MultistepAf.EntryEdge: an entry whose ends are numbers, booleans or None names no edge, while the source adds the pair as it is (attack ends are modelled as strings only). Such an attack can defeat a string-named target only with the priority filter off. Ends that are lists or dicts raise TypeError, as in the source (`MultistepAf.EntryError`).
- Json.PyFloat: `float()` is modelled on decimal text with an optional sign, digit groups with single underscores, and at most one point. Exponents (`"1e3"`), `"inf"`, `"nan"` and other Unicode digits are not; the model reports them as not converting. The error text for None, a list or a dict is the ValueError one, while Python raises TypeError.
- OverpressureRun.Number: a parameter written with an exponent, `inf` or `nan` is taken not to convert (see Json.PyFloat).
- OverpressureRun.Verdict: the same limit of `float()` applies to its parameters (see Json.PyFloat).
- OverpressureRun.Actuate: the same limit of `float()` applies to `u` (see Json.PyFloat).
- OvertempRun.Actuate: the same limit of `float()` applies to `u` and `p` (see Json.PyFloat).
- PlantModel.Actuators.OpenRelief: the same limit of `float()` applies to its argument (see Json.PyFloat).
- PlantModel.Actuators.OpenVent: the same limit of `float()` applies to its argument (see Json.PyFloat).
- Json.PyEqReflexive: decoded numbers are taken to be finite reals. `json.loads` also accepts `NaN` and `Infinity`, and `NaN != NaN` in Python, so `json_field_equals` fails on an expected NaN where the model would pass.
- MultistepChecks.PathCheck: `file_exists` and `file_hash_equal` take their polling verdict from the workspace once their parameters are read; a file that cannot be read while hashing is not modelled as raising.
- OverpressureRun.Text: a non-string direction is only known not to be "down" or "up"; its exact `str()` rendering is not modelled.
- `json.loads` and the code-fence regular expression of llm/utils.py are oracles. The model takes the decoded values and the fence's inner text as inputs.
- The language-model providers (llm/provider_factory.py and the providers) and demos/scenario3_agentos_llm.py are not part of this model. The adapter takes the provider's reply as an input.
- The observations behind the process, file, hash, directory and glob checks of core/verify.py are oracles: how a process ends, a file's presence and digest, a JSON file's contents, a directory's listing, a glob's match count or error, and a regex search's answer. The checks themselves are modelled over those observations. Hashing, globbing and regex matching are not modelled.
- `PlantSim.step`, the drone simulator (domains/drone/model.py) and the P-policy controllers are floating-point numerics. The plant's response after each command is an oracle over the sample index, and a landing is given as its touchdown record.
- Bounded polling counts samples at `k * dt <= timeout` in exact arithmetic. The source accumulates `t += dt` in floating point, which can admit or drop one sample at the boundary.
- Wall-clock time is not modelled: `time_to_fix_s`, `perf_counter`, the timing session's clock (it takes the measured durations as inputs) and the sweep's CSV timestamps.
- The sweep's CSV rows and plots (tools/sweep_drone.py:79-118, 127 onwards) are output only. The sweep fills its three maps from a simulator oracle per cell.
- The desktop actuators (domains/desktop/*actuators.py), the plant sensor and actuator wrappers (domains/plant/sensors.py, actuators.py) and demos/run.py are not part of this model. The scraper and agent-OS runs take a verdict oracle and an exit-code oracle; the multistep run takes a workspace (the observations above) and an exit-code oracle.
- The multistep demo's stray `main.py` healing (demos/scenario3_desktop_multistep_llm.py:356-369, 478-489) moves files and is not modelled.
- The multistep demo's three defects are not reproduced. It reads the undefined name `attacks_raw` (:186), which raises NameError before any step. It calls `.add` on the adapter's attack list (:288). It rebuilds `args` from the language-model arguments alone (:232), which only matters once rules are switched on (`USE_RULES` is False).
- MultistepAf.MergeAf: the step that sets `source` to "llm" on a language-model argument whose `source` is None (demos/scenario3_desktop_multistep_llm.py:43-48) is not modelled, since an argument's `source` is always a string here.
- LlmConfig.LoadLlmConfig: a configuration file that exists but is not valid JSON makes `json.load` raise in the source; the model takes the decoded file or None for a missing one and does not represent that exception.
- SweepDrone.Sweep: the grid sizes are natural numbers. `np.linspace` raises ValueError on a negative count, which the model cannot be given.
- The scraper run takes the interpreter as the input `python`, standing for `sys.executable`, the path of the running interpreter.
- Environment and configuration reads (`ISL_ABLATION`, `configs/llm.json`, the LM Studio variables) are inputs. Reading the file itself is not modelled.
- `summarize_sources` keeps the acceptance rate as an exact fraction. The source rounds it to two decimals for the CSV.
- The single-step plant demos read the no-priority and no-diagnosis switches but never act on them. The model shows that only the solver switch matters.

## Findings

| source | as written | input that shows it | evidently intended | confidence | as-written member | corrected member |
|---|---|---|---|---|---|---|
| core/arguments.py:14-27 | the `Argument` dataclass declares no `role` field, yet eleven call sites pass `role=` | `Argument(..., source="desktop_policy", role="policy")` at domains/desktop/rules_agentos.py:14 raises TypeError | a `role: str` field with an empty default, as `summarize_sources` reads it through `getattr(a, "role", "")` | not executed; high | Arguments.RoleKeywordRaises | Arguments.DefaultFields |
