/** The three outside collaborators the evaluators drive, seen only as
    recorded calls: answer generation, judgment and branch materialization.
    What a collaborator does is not modelled; whether a call raises, and what
    a judgment call returns, are uninterpreted functions of the call. */
module Collaborators {
  import opened Wrappers

  /** One invocation of a collaborator with its bound arguments. A keyword
      argument the evaluator does not pass is `None` (left at the
      collaborator's own default). */
  datatype Call =
    | GenerateAnswers(
        modelName: string,
        serverUrl: string,
        outputDir: string,
        maxWorkers: int,
        branch: Option<string>,
        dataDir: Option<string>,
        benchName: Option<string>)
    | GenerateJudgment(
        modelName: string,
        judgeModelName: string,
        serverUrl: string,
        maxWorkers: int,
        outputDir: string,
        mergeSystemUserMessage: bool,
        branch: Option<string>,
        dataDir: Option<string>,
        benchName: Option<string>)
    | GenerateBranch(
        judgeModelName: string,
        targetBranch: string,
        taxonomyGitRepoPath: string,
        outputDir: string)

  /** What the judgment collaborator returns: overall score, question and
      answer pairs, turn scores and error rate. Their contents are produced
      elsewhere and stay opaque here. */
  datatype Judgment<S, Q, T, E> = Judgment(overallScore: S, qaPairs: Q, turnScores: T, errorRate: E)

  /** The behaviour of the collaborators: which calls raise (and with what
      error), and what each judgment call returns. */
  datatype Env<J, X> = Env(raises: Call -> Option<X>, judgment: Call -> J)

  /** The observable effect of an evaluator phase: the calls it made, in
      order, and either its return value or the error that escaped it. */
  datatype Run<R, X> = Run(trace: seq<Call>, outcome: Result<R, X>)

  /** Makes one call whose return value is ignored; an error it raises
      escapes unchanged. */
  function Invoke<J, X>(env: Env<J, X>, c: Call): (r: Run<(), X>)
    ensures r.trace == [c]
    ensures r.outcome.Failure? <==> env.raises(c).Some?
    ensures r.outcome.Failure? ==> r.outcome.error == env.raises(c).value
  {
    match env.raises(c)
    case Some(e) => Run([c], Failure(e))
    case None => Run([c], Success(()))
  }

  /** Makes one judgment call and passes on what it returns, or the error
      it raises, unchanged. */
  function InvokeJudgment<J, X>(env: Env<J, X>, c: Call): (r: Run<J, X>)
    ensures r.trace == [c]
    ensures r.outcome.Failure? <==> env.raises(c).Some?
    ensures r.outcome.Failure? ==> r.outcome.error == env.raises(c).value
    ensures r.outcome.Success? ==> r.outcome.value == env.judgment(c)
  {
    match env.raises(c)
    case Some(e) => Run([c], Failure(e))
    case None => Run([c], Success(env.judgment(c)))
  }
}
