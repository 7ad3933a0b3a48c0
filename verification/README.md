# MT-Bench evaluator orchestration, in Dafny

This project models the orchestration layer of the MT-Bench evaluators in
`src/instructlab/eval/mt_bench.py`:

- the worker-budget rule of `AbstractMTBenchEvaluator.__init__`, which turns
  the caller's `max_workers` request (a positive int, the string `"auto"`, or
  anything else), the optional `serving_gpus` hint and the usable CPU count
  into a worker count, or raises `InvalidMaxWorkersError` carrying the
  rejected value;
- construction of `MTBenchEvaluator` and `MTBenchBranchEvaluator`, which
  store their configuration once;
- the `gen_answers` and `judge_answers` phases of both evaluators, each of
  which only binds arguments and calls outside collaborators
  (`mt_bench_answers.generate_answers`, `mt_bench_judgment.generate_judgment`,
  `mt_bench_branch_generator.generate`), and reshapes the judgment result.

Files and modules:

- `wrappers.dfy` (`Wrappers`): `Option` and `Result`.
- `worker_budget.dfy` (`WorkerBudget`): the request type `Req`
  (`Auto | IntVal(n) | Other(tag)`), the pure function `Budget`, a reference
  definition of the automatic budget as the greatest admissible worker count,
  and lemmas about the rule.
- `collaborators.dfy` (`Collaborators`): a phase's observable behaviour is a
  `Run`: the sequence of `Call` values it made, each recording the
  collaborator and its bound arguments, and its outcome. Whether a call
  raises (`Env.raises`) and what a judgment call returns (`Env.judgment`)
  are uninterpreted functions of the call. The judgment result is an opaque
  4-tuple `Judgment<S, Q, T, E>` (overall score, question/answer pairs, turn
  scores, error rate).
- `mt_bench.dfy` (`MtBench`): the evaluator configurations, their
  constructors and their phases.
- `sessions.dfy` (`Sessions`): a caller driving one evaluator through a
  sequence of phases; states that every call carries the stored
  configuration, that a run stops at the first collaborator error and passes
  it on, and that in branch runs every answer generation immediately follows
  the materialization of the branch.

Two behaviours of the code worth knowing:

- `AbstractMTBenchEvaluator.__init__` does not guard the automatic path
  against a zero budget: with no `serving_gpus` and at most one usable CPU
  the budget is `0` (line 69), and with `serving_gpus` and no CPU it is `0`
  too (line 65). Only an explicit `max_workers` is checked for positivity
  (line 75). `WorkerBudget.AutoCanYieldZero` states this.
- The docstring of `MTBenchEvaluator.judge_answers` (mt_bench.py:119-122)
  lists three return values, but the method returns the collaborator's
  result unchanged (line 125), and line 209 unpacks that result into four.
  `MtBench.JudgeAnswers` returns whatever value `J` the judgment
  collaborator produces for the recorded call, unchanged; only the branch
  variant fixes it to the 4-tuple `Judgment<S, Q, T, E>`.

## Model

| member | source | states |
|---|---|---|
| WorkerBudget.Budget | src/instructlab/eval/mt_bench.py:56-79 | Fails exactly when the request is neither "auto" nor a positive int, and the error carries that request; a positive int is the budget as given; "auto" with a GPU hint is not above the CPU count or ten workers per GPU (at least one GPU) and equals one of them; "auto" without a hint is the largest w with 2w <= cpus; the budget is never negative |
| WorkerBudget.GpuCap | src/instructlab/eval/mt_bench.py:63-65 | The GPU bound is ten workers per GPU and at least ten: a hint of one or less counts as one GPU |
| WorkerBudget.AutoBudgetIsGreatestAdmissible | src/instructlab/eval/mt_bench.py:62-69 | The automatic budget equals w if and only if w is the greatest count within the GPU and CPU bounds (with a hint) or at most half the CPUs (without one) |
| WorkerBudget.ExplicitCountIgnoresHost | src/instructlab/eval/mt_bench.py:74-77 | A positive explicit count becomes the budget whatever the GPU hint and the CPU count |
| WorkerBudget.RejectionIndependentOfHost | src/instructlab/eval/mt_bench.py:74-79 | Whether a request is rejected does not depend on the GPU hint or the CPU count, and "auto" is never rejected |
| WorkerBudget.AutoNeverFails | src/instructlab/eval/mt_bench.py:56-73 | "auto" yields a budget for every hint and every CPU count, zero and one included |
| WorkerBudget.NonPositiveGpusActAsOne | src/instructlab/eval/mt_bench.py:62-65 | A GPU hint of zero or less gives the same budget as a hint of one: the smaller of ten and the CPU count |
| WorkerBudget.AutoCanYieldZero | src/instructlab/eval/mt_bench.py:62-69 | With no hint and at most one CPU, or with a hint and no CPU, the automatic budget is zero: nothing guards against a zero budget |
| WorkerBudget.AutoBudgetMonotoneInCpus | src/instructlab/eval/mt_bench.py:62-69 | More usable CPUs never give a smaller automatic budget |
| WorkerBudget.AutoBudgetMonotoneInGpus | src/instructlab/eval/mt_bench.py:62-65 | More serving GPUs never give a smaller automatic budget |
| WorkerBudget.BudgetExamples | src/instructlab/eval/mt_bench.py:56-79 | Worked values: 2 GPUs and 8 CPUs give 8; 1 or 0 GPUs and 32 CPUs give 10; no hint and 16 CPUs give 8; no hint and 1 CPU give 0; 0, -1 and "3" are rejected with themselves as the error |
| MtBench.NewEvaluator | src/instructlab/eval/mt_bench.py:41-79 | Construction fails exactly on a rejected request, with the request as the error; otherwise it stores the names, output directory, GPU hint and merge flag as given, and the derived budget, which is non-negative and equals a positive explicit request |
| MtBench.NewBranchEvaluator | src/instructlab/eval/mt_bench.py:152-172 | Branch construction fails exactly when base construction fails, with the same error; otherwise its base is the base evaluator built from the same arguments and it adds the repository path and branch as given |
| MtBench.GenAnswers | src/instructlab/eval/mt_bench.py:97-110 | Standard answer generation makes exactly one answer-generation call, bound to the model name, the endpoint, the output directory and the budget, with no branch, data directory or benchmark name; it fails exactly when that call raises, with its error |
| MtBench.JudgeAnswers | src/instructlab/eval/mt_bench.py:112-132 | Standard judgment makes exactly one judgment call, bound to the model and judge names, the endpoint, the budget, the output directory and the merge flag; it returns the collaborator's result unchanged, or its error |
| MtBench.BranchGenAnswers | src/instructlab/eval/mt_bench.py:174-196 | Branch answer generation first materializes the branch (judge name, branch, repository path, output directory); only if that completes does it make the standard answer-generation call redirected to the branch with data directory = output directory and benchmark "mt_bench_branch"; an error from either call ends the phase with that error |
| MtBench.BranchJudgeAnswers | src/instructlab/eval/mt_bench.py:198-220 | Branch judgment makes exactly the standard judgment call redirected to the branch scope and returns exactly the 2nd and 4th components (question/answer pairs, error rate) of the collaborator's 4-tuple, or its error |
| MtBench.DefaultConstructionSucceeds | src/instructlab/eval/mt_bench.py:41-73 | With the default output directory, "auto", no GPU hint and no merge, construction never fails and the budget is half the usable CPUs |
| MtBench.BranchKeepsBaseConfig | src/instructlab/eval/mt_bench.py:163-172 | A branch evaluator succeeds or fails together with the standard evaluator built from the same arguments, with the same error, and keeps that evaluator's configuration and budget unchanged |
| MtBench.BranchAnswersDifferOnlyInScope | src/instructlab/eval/mt_bench.py:188-196 | The branch answer-generation call has the same model, endpoint, output directory and budget as the standard one; only the branch, data directory and benchmark name differ |
| MtBench.BranchJudgmentDiffersOnlyInScope | src/instructlab/eval/mt_bench.py:209-219 | The branch judgment call has the same model and judge names, endpoint, budget, output directory and merge flag as the standard one (lines 125-132); only the branch, data directory and benchmark name differ |
| Sessions.RunStandard | src/instructlab/eval/mt_bench.py:97-132 | A caller's run of phases on one standard evaluator makes at most one call per phase; every call is an answer-generation or judgment call carrying the stored configuration, with no branch, data directory or benchmark name; a complete run makes one call per phase and its results are exactly the collaborator's judgments for its judgment calls, unchanged and in order (a failed run's calls are covered by `Sessions.StandardRunIsPrefix`) |
| Sessions.RunBranch | src/instructlab/eval/mt_bench.py:174-220 | A caller's run of phases on one branch evaluator: every call carries the stored configuration and is scoped to the branch; a complete run makes two calls per generation phase and one per judgment phase, and its results are exactly the (question/answer pairs, error rate) parts of the collaborator's judgments for its judgment calls, in order (a failed run's calls are covered by `Sessions.BranchRunIsPrefix`) |
| Sessions.StandardRunFailStop | src/instructlab/eval/mt_bench.py:97-132 | A standard run stops at the first call that raises and ends with that error; a successful run had no call raise |
| Sessions.BranchRunFailStop | src/instructlab/eval/mt_bench.py:174-220 | A branch run stops at the first call that raises and ends with that error; a successful run had no call raise |
| Sessions.BranchRunMaterializesBeforeGenerating | src/instructlab/eval/mt_bench.py:182-196 | In every branch run, each answer-generation call immediately follows the materialization of the same branch into the same output directory |
| Sessions.StandardRunIsPrefix | src/instructlab/eval/mt_bench.py:97-132 | Whether it succeeds or fails, a standard run's calls are a prefix of one call per phase, in phase order: the answer-generation call for a generation phase, the judgment call for a judgment phase, each to the phase's endpoint; no phase is skipped |
| Sessions.BranchRunIsPrefix | src/instructlab/eval/mt_bench.py:174-220 | Whether it succeeds or fails, a branch run's calls are a prefix of the calls its phases ask for, in phase order: materialization then branch-scoped answer generation for a generation phase, branch-scoped judgment for a judgment phase; no phase is skipped |
| Sessions.StandardRunFollowsSteps | src/instructlab/eval/mt_bench.py:97-132 | A successful standard run makes one call per phase, in phase order, of the phase's kind and to the phase's endpoint |
| Sessions.BranchRunFollowsSteps | src/instructlab/eval/mt_bench.py:174-220 | A successful branch run makes exactly, phase after phase, materialization then branch-scoped answer generation to the phase's endpoint for a generation phase, and branch-scoped judgment to the phase's endpoint for a judgment phase |

## Left out

- Usable CPU count: `os.sched_getaffinity` with the fallback to `multiprocessing.cpu_count` (lines 57-61) is host introspection; the count is the `cpus` parameter of `Budget`.
- The collaborators `generate_answers`, `generate_judgment` and `generate` are not part of this model: they do network and file work. They appear only as recorded calls whose raising and whose judgment result are uninterpreted functions.
- The shape of the judgment result: `_, qa_pairs, _, error_rate = ...` (line 209) raises when the collaborator returns anything but a 4-element iterable, and the standard docstring (lines 119-122) promises three values. The branch model types the result as the 4-tuple `Judgment<S, Q, T, E>`, so that unpacking error path is not modelled.
- Collaborator state: `Env.raises` and `Env.judgment` depend on the call's arguments alone. An identical repeated call therefore behaves the same, and a judgment cannot depend on whether answers were generated before it (through files in `output_dir`); the model does not capture such effects between calls.
- Scores and the error rate are floats produced by the judgment collaborator; they are opaque type parameters, with no arithmetic on them.
- `bool` as `max_workers`: Python's `isinstance(True, int)` holds, so `True` is accepted as one worker and `False` rejected; the model writes these as `IntVal(1)` and `IntVal(0)` instead of giving `bool` a constructor of its own. Any other non-int value (another string, `None`, a float) is `Other(tag)`, the tag standing for the value the error carries.
- `serving_gpus` is taken as an int or absent; the model does not cover values of other types passed there.
- Logging (`logger.debug`) and the `Evaluator` base class (in `evaluator.py`, which is not part of this model).
- Concurrency: the budget only sizes worker pools inside the collaborators, and the evaluators themselves are sequential.
- The class attribute `name` of each evaluator (lines 95 and 150) identifies it to code outside this file and is not modelled; `BranchBenchName` is the `bench_name` argument the branch phases pass.
