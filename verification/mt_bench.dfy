/** The two MT-Bench evaluators (src/instructlab/eval/mt_bench.py): their
    construction, which fixes the configuration and the worker budget once,
    and their two phases, each a fixed sequence of collaborator calls with
    bound arguments. */
module MtBench {
  import opened Wrappers
  import opened WorkerBudget
  import opened Collaborators

  /** The benchmark the branch phases ask the collaborators to use. */
  const BranchBenchName: string := "mt_bench_branch"

  /** Constructor defaults shared by both variants. */
  const DefaultOutputDir: string := "eval_output"
  const DefaultMaxWorkers: Req := Auto

  /** The configuration an evaluator holds after construction; `maxWorkers`
      is the derived budget, never the request. */
  datatype Evaluator = Evaluator(
    modelName: string,
    judgeModelName: string,
    outputDir: string,
    maxWorkers: int,
    servingGpus: Option<int>,
    mergeSystemUserMessage: bool)

  /** The branch variant: the base configuration plus the taxonomy
      repository and the branch whose questions are evaluated. */
  datatype BranchEvaluator = BranchEvaluator(
    base: Evaluator,
    taxonomyGitRepoPath: string,
    branch: string)

  /** Construction of an evaluator (`AbstractMTBenchEvaluator.__init__`):
      the inputs are stored as given and the budget is derived once; an
      `InvalidMaxWorkersError` aborts construction. */
  function NewEvaluator(
    modelName: string,
    judgeModelName: string,
    outputDir: string,
    maxWorkers: Req,
    servingGpus: Option<int>,
    mergeSystemUserMessage: bool,
    cpus: nat): (r: Result<Evaluator, Req>)
    ensures r.Failure? <==> !maxWorkers.Auto? && !IsExplicitCount(maxWorkers)
    ensures r.Failure? ==> r.error == maxWorkers
    ensures r.Success? ==>
      && r.value.modelName == modelName
      && r.value.judgeModelName == judgeModelName
      && r.value.outputDir == outputDir
      && r.value.servingGpus == servingGpus
      && r.value.mergeSystemUserMessage == mergeSystemUserMessage
      && Budget(maxWorkers, servingGpus, cpus) == Success(r.value.maxWorkers)
    ensures r.Success? ==> r.value.maxWorkers >= 0
    ensures IsExplicitCount(maxWorkers) ==> r.Success? && r.value.maxWorkers == maxWorkers.n
  {
    var budget :- Budget(maxWorkers, servingGpus, cpus);
    Success(Evaluator(modelName, judgeModelName, outputDir, budget, servingGpus, mergeSystemUserMessage))
  }

  /** Construction of the branch variant (`MTBenchBranchEvaluator.__init__`):
      the base construction, then the two branch fields. */
  function NewBranchEvaluator(
    modelName: string,
    judgeModelName: string,
    taxonomyGitRepoPath: string,
    branch: string,
    outputDir: string,
    maxWorkers: Req,
    servingGpus: Option<int>,
    mergeSystemUserMessage: bool,
    cpus: nat): (r: Result<BranchEvaluator, Req>)
    ensures r.Failure? <==> !maxWorkers.Auto? && !IsExplicitCount(maxWorkers)
    ensures r.Failure? ==> r.error == maxWorkers
    ensures r.Success? ==>
      && r.value.taxonomyGitRepoPath == taxonomyGitRepoPath
      && r.value.branch == branch
      && NewEvaluator(modelName, judgeModelName, outputDir, maxWorkers, servingGpus, mergeSystemUserMessage, cpus)
         == Success(r.value.base)
  {
    var base :- NewEvaluator(modelName, judgeModelName, outputDir, maxWorkers, servingGpus, mergeSystemUserMessage, cpus);
    Success(BranchEvaluator(base, taxonomyGitRepoPath, branch))
  }

  /** The answer-generation call of `MTBenchEvaluator.gen_answers`. */
  function AnswersCall(ev: Evaluator, serverUrl: string): Call {
    GenerateAnswers(ev.modelName, serverUrl, ev.outputDir, ev.maxWorkers, None, None, None)
  }

  /** The judgment call of `MTBenchEvaluator.judge_answers`. */
  function JudgmentCall(ev: Evaluator, serverUrl: string): Call {
    GenerateJudgment(
      ev.modelName, ev.judgeModelName, serverUrl, ev.maxWorkers, ev.outputDir,
      ev.mergeSystemUserMessage, None, None, None)
  }

  /** `MTBenchEvaluator.gen_answers`: one answer-generation call against the
      fixed benchmark. */
  function GenAnswers<J, X>(ev: Evaluator, serverUrl: string, env: Env<J, X>): (r: Run<(), X>)
    ensures |r.trace| == 1
    ensures r.trace[0].GenerateAnswers?
    ensures r.trace[0].modelName == ev.modelName
    ensures r.trace[0].serverUrl == serverUrl
    ensures r.trace[0].outputDir == ev.outputDir
    ensures r.trace[0].maxWorkers == ev.maxWorkers
    ensures r.trace[0].branch.None? && r.trace[0].dataDir.None? && r.trace[0].benchName.None?
    ensures r.outcome.Failure? <==> env.raises(r.trace[0]).Some?
    ensures r.outcome.Failure? ==> r.outcome.error == env.raises(r.trace[0]).value
  {
    Invoke(env, AnswersCall(ev, serverUrl))
  }

  /** `MTBenchEvaluator.judge_answers`: one judgment call, whose result is
      returned unchanged. */
  function JudgeAnswers<J, X>(ev: Evaluator, serverUrl: string, env: Env<J, X>): (r: Run<J, X>)
    ensures |r.trace| == 1
    ensures r.trace[0].GenerateJudgment?
    ensures r.trace[0].modelName == ev.modelName
    ensures r.trace[0].judgeModelName == ev.judgeModelName
    ensures r.trace[0].serverUrl == serverUrl
    ensures r.trace[0].maxWorkers == ev.maxWorkers
    ensures r.trace[0].outputDir == ev.outputDir
    ensures r.trace[0].mergeSystemUserMessage == ev.mergeSystemUserMessage
    ensures r.trace[0].branch.None? && r.trace[0].dataDir.None? && r.trace[0].benchName.None?
    ensures r.outcome.Failure? <==> env.raises(r.trace[0]).Some?
    ensures r.outcome.Failure? ==> r.outcome.error == env.raises(r.trace[0]).value
    ensures r.outcome.Success? ==> r.outcome.value == env.judgment(r.trace[0])
  {
    InvokeJudgment(env, JudgmentCall(ev, serverUrl))
  }

  /** The same call, redirected to a branch's question and answer files:
      the branch is passed, the data directory is the output directory and
      the benchmark is the branch benchmark; every other argument is kept. */
  function BranchScoped(c: Call, branch: string): (r: Call)
    requires c.GenerateAnswers? || c.GenerateJudgment?
    ensures r.GenerateAnswers? == c.GenerateAnswers? && r.GenerateJudgment? == c.GenerateJudgment?
    ensures r.branch == Some(branch) && r.dataDir == Some(c.outputDir) && r.benchName == Some(BranchBenchName)
    ensures r.modelName == c.modelName && r.serverUrl == c.serverUrl
    ensures r.outputDir == c.outputDir && r.maxWorkers == c.maxWorkers
    ensures c.GenerateJudgment? ==>
      r.judgeModelName == c.judgeModelName && r.mergeSystemUserMessage == c.mergeSystemUserMessage
  {
    c.(branch := Some(branch), dataDir := Some(c.outputDir), benchName := Some(BranchBenchName))
  }

  /** The branch-materialization call of a branch evaluator. */
  function MaterializeCall(ev: BranchEvaluator): Call {
    GenerateBranch(ev.base.judgeModelName, ev.branch, ev.taxonomyGitRepoPath, ev.base.outputDir)
  }

  /** `MTBenchBranchEvaluator.gen_answers`: materialize the branch's
      questions, then generate answers against them. Generation is reached
      only when materialization completed; an error from either escapes. */
  function BranchGenAnswers<J, X>(ev: BranchEvaluator, serverUrl: string, env: Env<J, X>): (r: Run<(), X>)
    ensures 1 <= |r.trace| <= 2
    ensures r.trace[0].GenerateBranch?
    ensures r.trace[0].judgeModelName == ev.base.judgeModelName
    ensures r.trace[0].targetBranch == ev.branch
    ensures r.trace[0].taxonomyGitRepoPath == ev.taxonomyGitRepoPath
    ensures r.trace[0].outputDir == ev.base.outputDir
    ensures |r.trace| == 2 <==> env.raises(r.trace[0]).None?
    // the generation call is the standard one, redirected to the branch
    ensures |r.trace| == 2 ==>
      r.trace[1] == BranchScoped(AnswersCall(ev.base, serverUrl), ev.branch)
    ensures r.outcome.Failure? <==> env.raises(r.trace[|r.trace| - 1]).Some?
    ensures r.outcome.Failure? ==> r.outcome.error == env.raises(r.trace[|r.trace| - 1]).value
  {
    var m := Invoke(env, MaterializeCall(ev));
    if m.outcome.Failure? then
      m
    else
      var g := Invoke(env, BranchScoped(AnswersCall(ev.base, serverUrl), ev.branch));
      Run(m.trace + g.trace, g.outcome)
  }

  /** `MTBenchBranchEvaluator.judge_answers`: the judgment call redirected to
      the branch, returning only the question and answer pairs and the error
      rate of the collaborator's result. */
  function BranchJudgeAnswers<S, Q, T, E, X>(
    ev: BranchEvaluator, serverUrl: string, env: Env<Judgment<S, Q, T, E>, X>): (r: Run<(Q, E), X>)
    ensures |r.trace| == 1
    ensures r.trace[0] == BranchScoped(JudgmentCall(ev.base, serverUrl), ev.branch)
    ensures r.outcome.Failure? <==> env.raises(r.trace[0]).Some?
    ensures r.outcome.Failure? ==> r.outcome.error == env.raises(r.trace[0]).value
    ensures r.outcome.Success? ==>
      r.outcome.value == (env.judgment(r.trace[0]).qaPairs, env.judgment(r.trace[0]).errorRate)
  {
    var c := BranchScoped(JudgmentCall(ev.base, serverUrl), ev.branch);
    var j := InvokeJudgment(env, c);
    match j.outcome
    case Success(result) => Run(j.trace, Success((result.qaPairs, result.errorRate)))
    case Failure(e) => Run(j.trace, Failure(e))
  }

  /** With every default left in place, construction cannot fail and the
      budget is half the usable CPUs. */
  lemma DefaultConstructionSucceeds(modelName: string, judgeModelName: string, cpus: nat)
    ensures NewEvaluator(modelName, judgeModelName, DefaultOutputDir, DefaultMaxWorkers, None, false, cpus).Success?
    ensures NewEvaluator(modelName, judgeModelName, DefaultOutputDir, DefaultMaxWorkers, None, false, cpus).value.maxWorkers
            == cpus / 2
  {
  }

  /** A branch evaluator and a standard evaluator built from the same
      arguments share their configuration, budget included. */
  lemma BranchKeepsBaseConfig(
    modelName: string, judgeModelName: string, taxonomyGitRepoPath: string, branch: string,
    outputDir: string, maxWorkers: Req, servingGpus: Option<int>, merge: bool, cpus: nat)
    ensures
      var b := NewBranchEvaluator(modelName, judgeModelName, taxonomyGitRepoPath, branch, outputDir, maxWorkers, servingGpus, merge, cpus);
      var s := NewEvaluator(modelName, judgeModelName, outputDir, maxWorkers, servingGpus, merge, cpus);
      && (b.Success? <==> s.Success?)
      && (b.Success? ==> b.value.base == s.value)
      && (b.Failure? ==> b.error == s.error)
  {
  }

  /** The branch variant generates answers with the same model, endpoint,
      output directory and budget as the standard variant would; only the
      three branch-scoped arguments differ. */
  lemma BranchAnswersDifferOnlyInScope<J, X>(ev: BranchEvaluator, serverUrl: string, env: Env<J, X>)
    requires env.raises(MaterializeCall(ev)).None?
    ensures
      var b := BranchGenAnswers(ev, serverUrl, env).trace[1];
      var s := GenAnswers(ev.base, serverUrl, env).trace[0];
      && b.GenerateAnswers?
      && b.modelName == s.modelName && b.serverUrl == s.serverUrl
      && b.outputDir == s.outputDir && b.maxWorkers == s.maxWorkers
      && b.branch == Some(ev.branch)
      && b.dataDir == Some(ev.base.outputDir)
      && b.benchName == Some(BranchBenchName)
  {
  }

  /** The branch variant judges with the same model and judge names,
      endpoint, budget, output directory and merge flag as the standard
      variant would; only the three branch-scoped arguments differ. */
  lemma BranchJudgmentDiffersOnlyInScope<S, Q, T, E, X>(
    ev: BranchEvaluator, serverUrl: string, env: Env<Judgment<S, Q, T, E>, X>)
    ensures
      var b := BranchJudgeAnswers(ev, serverUrl, env).trace[0];
      var s := JudgeAnswers(ev.base, serverUrl, env).trace[0];
      && b.GenerateJudgment?
      && b.modelName == s.modelName && b.judgeModelName == s.judgeModelName
      && b.serverUrl == s.serverUrl && b.maxWorkers == s.maxWorkers
      && b.outputDir == s.outputDir && b.mergeSystemUserMessage == s.mergeSystemUserMessage
      && b.branch == Some(ev.branch)
      && b.dataDir == Some(ev.base.outputDir)
      && b.benchName == Some(BranchBenchName)
  {
  }
}
