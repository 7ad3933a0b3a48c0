/** A caller driving one evaluator through a sequence of phases. The
    evaluator keeps no state between phases besides its configuration, and
    an error escaping a phase ends the caller's run; these functions state
    what the whole run looks like from the collaborators' side. */
module Sessions {
  import opened Wrappers
  import opened Collaborators
  import opened MtBench

  /** One phase the caller invokes, with the endpoint it passes. */
  datatype Step = Gen(serverUrl: string) | Judge(serverUrl: string)

  /** True when a call carries the evaluator's stored configuration. */
  predicate UsesConfig(c: Call, ev: Evaluator) {
    match c
    case GenerateAnswers(_, _, _, _, _, _, _) =>
      c.modelName == ev.modelName && c.outputDir == ev.outputDir && c.maxWorkers == ev.maxWorkers
    case GenerateJudgment(_, _, _, _, _, _, _, _, _) =>
      && c.modelName == ev.modelName && c.judgeModelName == ev.judgeModelName
      && c.outputDir == ev.outputDir && c.maxWorkers == ev.maxWorkers
      && c.mergeSystemUserMessage == ev.mergeSystemUserMessage
    case GenerateBranch(_, _, _, _) =>
      c.judgeModelName == ev.judgeModelName && c.outputDir == ev.outputDir
  }

  /** True when a call is one a standard evaluator makes: answer generation
      or judgment, with its stored configuration and no branch scope. */
  predicate UsesStandardConfig(c: Call, ev: Evaluator) {
    && UsesConfig(c, ev)
    && !c.GenerateBranch?
    && c.branch.None? && c.dataDir.None? && c.benchName.None?
  }

  /** True when a call carries a branch evaluator's configuration and is
      scoped to its branch. */
  predicate UsesBranchConfig(c: Call, ev: BranchEvaluator) {
    && UsesConfig(c, ev.base)
    && match c
       case GenerateBranch(_, _, _, _) =>
         c.targetBranch == ev.branch && c.taxonomyGitRepoPath == ev.taxonomyGitRepoPath
       case _ =>
         c.branch == Some(ev.branch) && c.dataDir == Some(ev.base.outputDir) && c.benchName == Some(BranchBenchName)
  }

  /** True when the run stopped exactly at the first call that raised: no
      earlier call raised, and a failed run ends with the raising call and
      carries its error. */
  ghost predicate FailStop<R, J, X>(r: Run<R, X>, env: Env<J, X>) {
    && (forall i :: 0 <= i < |r.trace| - 1 ==> env.raises(r.trace[i]).None?)
    && (r.outcome.Success? ==> forall i :: 0 <= i < |r.trace| ==> env.raises(r.trace[i]).None?)
    && (r.outcome.Failure? ==> |r.trace| > 0 && env.raises(r.trace[|r.trace| - 1]) == Some(r.outcome.error))
  }

  /** Number of judgment phases among the steps. */
  function JudgeCount(steps: seq<Step>): (n: nat)
    ensures n <= |steps|
  {
    if steps == [] then 0 else (if steps[0].Judge? then 1 else 0) + JudgeCount(steps[1..])
  }

  /** What the judgment collaborator returned for each judgment call of
      `t`, in call order. */
  function JudgmentsIn<J, X>(t: seq<Call>, env: Env<J, X>): (js: seq<J>)
    ensures |js| <= |t|
  {
    if t == [] then []
    else (if t[0].GenerateJudgment? then [env.judgment(t[0])] else []) + JudgmentsIn(t[1..], env)
  }

  /** The judgments of a concatenated trace are those of its parts. */
  lemma {:induction false} JudgmentsInAppend<J, X>(a: seq<Call>, b: seq<Call>, env: Env<J, X>)
    ensures JudgmentsIn(a + b, env) == JudgmentsIn(a, env) + JudgmentsIn(b, env)
    decreases |a|
  {
    if a == [] {
      assert a + b == b;
    } else {
      assert (a + b)[0] == a[0] && (a + b)[1..] == a[1..] + b;
      JudgmentsInAppend(a[1..], b, env);
    }
  }

  /** The (question/answer pairs, error rate) part of each judgment. */
  function Projected<S, Q, T, E>(js: seq<Judgment<S, Q, T, E>>): (ps: seq<(Q, E)>)
    ensures |ps| == |js|
    ensures forall i :: 0 <= i < |js| ==> ps[i] == (js[i].qaPairs, js[i].errorRate)
  {
    if js == [] then [] else [(js[0].qaPairs, js[0].errorRate)] + Projected(js[1..])
  }

  /** Projecting a concatenation projects its parts. */
  lemma ProjectedAppend<S, Q, T, E>(a: seq<Judgment<S, Q, T, E>>, b: seq<Judgment<S, Q, T, E>>)
    ensures Projected(a + b) == Projected(a) + Projected(b)
  {
    assert forall i :: 0 <= i < |a| ==> (a + b)[i] == a[i];
    assert forall i :: |a| <= i < |a| + |b| ==> (a + b)[i] == b[i - |a|];
  }

  /** Runs `steps` on a standard evaluator, collecting judgment results in
      order and stopping at the first error. */
  function RunStandard<J, X>(ev: Evaluator, steps: seq<Step>, env: Env<J, X>): (r: Run<seq<J>, X>)
    ensures forall i :: 0 <= i < |r.trace| ==> UsesStandardConfig(r.trace[i], ev)
    ensures |r.trace| <= |steps|
    ensures r.outcome.Success? ==> |r.trace| == |steps| && |r.outcome.value| == JudgeCount(steps)
    // the results are the collaborator's judgments, unchanged and in order
    ensures r.outcome.Success? ==> r.outcome.value == JudgmentsIn(r.trace, env)
    decreases |steps|
  {
    if steps == [] then
      Run([], Success([]))
    else
      match steps[0]
      case Gen(url) =>
        var p := GenAnswers(ev, url, env);
        if p.outcome.Failure? then
          Run(p.trace, Failure(p.outcome.error))
        else
          var rest := RunStandard(ev, steps[1..], env);
          JudgmentsInAppend(p.trace, rest.trace, env);
          Run(p.trace + rest.trace, rest.outcome)
      case Judge(url) =>
        var p := JudgeAnswers(ev, url, env);
        if p.outcome.Failure? then
          Run(p.trace, Failure(p.outcome.error))
        else
          var rest := RunStandard(ev, steps[1..], env);
          JudgmentsInAppend(p.trace, rest.trace, env);
          Run(p.trace + rest.trace,
              match rest.outcome
              case Success(js) => Success([p.outcome.value] + js)
              case Failure(e) => Failure(e))
  }

  /** A branch generation step that got as far as generating adds no
      judgment to the trace that follows it. */
  lemma BranchGenStep<J, X>(ev: BranchEvaluator, url: string, env: Env<J, X>, head: seq<Call>, rest: seq<Call>)
    requires head == BranchGenAnswers(ev, url, env).trace && |head| == 2
    ensures JudgmentsIn(head + rest, env) == JudgmentsIn(rest, env)
  {
    JudgmentsInAppend(head, rest, env);
    assert head == [head[0]] + [head[1]];
    JudgmentsInAppend([head[0]], [head[1]], env);
  }

  /** A successful branch judgment step contributes exactly its own result
      in front of the projected judgments of the trace that follows it. */
  lemma BranchJudgeStep<S, Q, T, E, X>(
    ev: BranchEvaluator, url: string, env: Env<Judgment<S, Q, T, E>, X>, head: seq<Call>, rest: seq<Call>)
    requires head == BranchJudgeAnswers(ev, url, env).trace
    requires BranchJudgeAnswers(ev, url, env).outcome.Success?
    ensures Projected(JudgmentsIn(head + rest, env))
            == [BranchJudgeAnswers(ev, url, env).outcome.value] + Projected(JudgmentsIn(rest, env))
  {
    JudgmentsInAppend(head, rest, env);
    assert JudgmentsIn(head, env) == [env.judgment(head[0])];
    ProjectedAppend(JudgmentsIn(head, env), JudgmentsIn(rest, env));
  }

  /** Runs `steps` on a branch evaluator, collecting the projected judgment
      results in order and stopping at the first error. */
  function RunBranch<S, Q, T, E, X>(
    ev: BranchEvaluator, steps: seq<Step>, env: Env<Judgment<S, Q, T, E>, X>): (r: Run<seq<(Q, E)>, X>)
    ensures forall i :: 0 <= i < |r.trace| ==> UsesBranchConfig(r.trace[i], ev)
    ensures |r.trace| <= |steps| + (|steps| - JudgeCount(steps))
    ensures r.outcome.Success? ==>
      && |r.trace| == |steps| + (|steps| - JudgeCount(steps))
      && |r.outcome.value| == JudgeCount(steps)
    // the results are the projections of the collaborator's judgments, in order
    ensures r.outcome.Success? ==> r.outcome.value == Projected(JudgmentsIn(r.trace, env))
    decreases |steps|
  {
    if steps == [] then
      Run([], Success([]))
    else
      match steps[0]
      case Gen(url) =>
        var p := BranchGenAnswers(ev, url, env);
        if p.outcome.Failure? then
          Run(p.trace, Failure(p.outcome.error))
        else
          var rest := RunBranch(ev, steps[1..], env);
          BranchGenStep(ev, url, env, p.trace, rest.trace);
          Run(p.trace + rest.trace, rest.outcome)
      case Judge(url) =>
        var p := BranchJudgeAnswers(ev, url, env);
        if p.outcome.Failure? then
          Run(p.trace, Failure(p.outcome.error))
        else
          var rest := RunBranch(ev, steps[1..], env);
          BranchJudgeStep(ev, url, env, p.trace, rest.trace);
          Run(p.trace + rest.trace,
              match rest.outcome
              case Success(js) => Success([p.outcome.value] + js)
              case Failure(e) => Failure(e))
  }

  /** A standard run stops at the first collaborator error and passes it on. */
  lemma {:induction false} StandardRunFailStop<J, X>(ev: Evaluator, steps: seq<Step>, env: Env<J, X>)
    ensures FailStop(RunStandard(ev, steps, env), env)
    decreases |steps|
  {
    if steps != [] {
      var r := RunStandard(ev, steps, env);
      var rest := RunStandard(ev, steps[1..], env);
      StandardRunFailStop(ev, steps[1..], env);
      match steps[0]
      case Gen(url) =>
        if GenAnswers(ev, url, env).outcome.Success? {
          FailStopPrepend(GenAnswers(ev, url, env).trace, rest, r, env);
        }
      case Judge(url) =>
        if JudgeAnswers(ev, url, env).outcome.Success? {
          FailStopPrepend(JudgeAnswers(ev, url, env).trace, rest, r, env);
        }
    }
  }

  /** A branch run stops at the first collaborator error and passes it on. */
  lemma {:induction false} BranchRunFailStop<S, Q, T, E, X>(
    ev: BranchEvaluator, steps: seq<Step>, env: Env<Judgment<S, Q, T, E>, X>)
    ensures FailStop(RunBranch(ev, steps, env), env)
    decreases |steps|
  {
    if steps != [] {
      var r := RunBranch(ev, steps, env);
      var rest := RunBranch(ev, steps[1..], env);
      BranchRunFailStop(ev, steps[1..], env);
      match steps[0]
      case Gen(url) =>
        var p := BranchGenAnswers(ev, url, env);
        if p.outcome.Success? {
          assert p.trace == [p.trace[0], p.trace[1]];
          FailStopPrepend(p.trace, rest, r, env);
        }
      case Judge(url) =>
        if BranchJudgeAnswers(ev, url, env).outcome.Success? {
          FailStopPrepend(BranchJudgeAnswers(ev, url, env).trace, rest, r, env);
        }
    }
  }

  /** Prefixing calls that did not raise keeps a run fail-stop. */
  lemma FailStopPrepend<R, R2, J, X>(head: seq<Call>, rest: Run<R, X>, r: Run<R2, X>, env: Env<J, X>)
    requires forall i :: 0 <= i < |head| ==> env.raises(head[i]).None?
    requires FailStop(rest, env)
    requires r.trace == head + rest.trace
    requires r.outcome.Success? <==> rest.outcome.Success?
    requires r.outcome.Failure? ==> r.outcome.error == rest.outcome.error
    ensures FailStop(r, env)
  {
  }

  /** True when every answer-generation call in `t` comes right after the
      materialization call of `ev`. */
  predicate MaterializedBeforeGenerating(t: seq<Call>, ev: BranchEvaluator) {
    forall i :: 0 <= i < |t| && t[i].GenerateAnswers? ==> 0 < i && t[i - 1] == MaterializeCall(ev)
  }

  /** In a branch run every answer-generation call comes right after the
      materialization of the same branch into the same output directory. */
  lemma {:induction false} BranchRunMaterializesBeforeGenerating<S, Q, T, E, X>(
    ev: BranchEvaluator, steps: seq<Step>, env: Env<Judgment<S, Q, T, E>, X>)
    ensures MaterializedBeforeGenerating(RunBranch(ev, steps, env).trace, ev)
    decreases |steps|
  {
    if steps != [] {
      var t := RunBranch(ev, steps, env).trace;
      var rest := RunBranch(ev, steps[1..], env).trace;
      BranchRunMaterializesBeforeGenerating(ev, steps[1..], env);
      var head := match steps[0]
        case Gen(url) => BranchGenAnswers(ev, url, env).trace
        case Judge(url) => BranchJudgeAnswers(ev, url, env).trace;
      assert t == head || t == head + rest;
      forall i | 0 <= i < |t| && t[i].GenerateAnswers?
        ensures 0 < i && t[i - 1] == MaterializeCall(ev)
      {
        if i < |head| {
          // inside this step: only a generation step makes an answer call,
          // and it is the second call of the step
          assert steps[0].Gen? && i == 1;
          assert head[0] == MaterializeCall(ev);
        } else {
          // inside a later step: the property of the rest, shifted
          assert t == head + rest;
          assert t[i] == rest[i - |head|];
        }
      }
    }
  }

  /** A successful standard run makes one call per step, in step order,
      each of the step's kind and to the step's endpoint. */
  lemma {:induction false} StandardRunFollowsSteps<J, X>(ev: Evaluator, steps: seq<Step>, env: Env<J, X>)
    ensures var r := RunStandard(ev, steps, env);
      r.outcome.Success? ==>
      && |r.trace| == |steps|
      && forall i :: 0 <= i < |r.trace| ==>
           && !r.trace[i].GenerateBranch?
           && (r.trace[i].GenerateAnswers? <==> steps[i].Gen?)
           && r.trace[i].serverUrl == steps[i].serverUrl
    decreases |steps|
  {
    if steps != [] {
      StandardRunFollowsSteps(ev, steps[1..], env);
    }
  }

  /** The call one step of a standard run makes. */
  function StandardStepCall(ev: Evaluator, step: Step): Call {
    match step
    case Gen(url) => AnswersCall(ev, url)
    case Judge(url) => JudgmentCall(ev, url)
  }

  /** The calls of all steps of a standard run, in step order. */
  function StandardCallsFor(ev: Evaluator, steps: seq<Step>): seq<Call> {
    if steps == [] then [] else [StandardStepCall(ev, steps[0])] + StandardCallsFor(ev, steps[1..])
  }

  /** Whether it succeeds or fails, a standard run makes a prefix of the
      calls its steps ask for: no step is skipped and none is reordered. */
  lemma {:induction false} StandardRunIsPrefix<J, X>(ev: Evaluator, steps: seq<Step>, env: Env<J, X>)
    ensures RunStandard(ev, steps, env).trace <= StandardCallsFor(ev, steps)
    decreases |steps|
  {
    if steps != [] {
      StandardRunIsPrefix(ev, steps[1..], env);
    }
  }

  /** The calls one step of a branch run makes when nothing raises:
      materialization then branch-scoped answer generation for a generation
      step, branch-scoped judgment for a judgment step. */
  function BranchStepCalls(ev: BranchEvaluator, step: Step): seq<Call> {
    match step
    case Gen(url) => [MaterializeCall(ev), BranchScoped(AnswersCall(ev.base, url), ev.branch)]
    case Judge(url) => [BranchScoped(JudgmentCall(ev.base, url), ev.branch)]
  }

  /** The calls of all steps, one step's calls after the other's. */
  function BranchCallsFor(ev: BranchEvaluator, steps: seq<Step>): seq<Call> {
    if steps == [] then [] else BranchStepCalls(ev, steps[0]) + BranchCallsFor(ev, steps[1..])
  }

  /** A successful branch run makes exactly the calls of its steps, step by
      step, each to the step's endpoint. */
  lemma {:induction false} BranchRunFollowsSteps<S, Q, T, E, X>(
    ev: BranchEvaluator, steps: seq<Step>, env: Env<Judgment<S, Q, T, E>, X>)
    ensures RunBranch(ev, steps, env).outcome.Success? ==>
      RunBranch(ev, steps, env).trace == BranchCallsFor(ev, steps)
    decreases |steps|
  {
    if steps != [] && RunBranch(ev, steps, env).outcome.Success? {
      BranchRunFollowsSteps(ev, steps[1..], env);
      match steps[0]
      case Gen(url) =>
        var p := BranchGenAnswers(ev, url, env);
        assert p.trace == [p.trace[0], p.trace[1]];
      case Judge(url) =>
    }
  }

  /** Whether it succeeds or fails, a branch run makes a prefix of the
      calls its steps ask for: no step is skipped and none is reordered. */
  lemma {:induction false} BranchRunIsPrefix<S, Q, T, E, X>(
    ev: BranchEvaluator, steps: seq<Step>, env: Env<Judgment<S, Q, T, E>, X>)
    ensures RunBranch(ev, steps, env).trace <= BranchCallsFor(ev, steps)
    decreases |steps|
  {
    if steps != [] {
      BranchRunIsPrefix(ev, steps[1..], env);
      match steps[0]
      case Gen(url) =>
        var p := BranchGenAnswers(ev, url, env);
        if |p.trace| == 2 {
          assert p.trace == [p.trace[0], p.trace[1]];
        } else {
          assert p.trace == [p.trace[0]];
        }
      case Judge(url) =>
    }
  }
}
