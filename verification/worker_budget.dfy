/** The worker-budget rule of the MT-Bench evaluators: how the caller's
    `max_workers` request, the optional `serving_gpus` hint and the number of
    CPUs usable by the process become one concrete worker count, or an
    `InvalidMaxWorkersError` carrying the rejected request. */
module WorkerBudget {
  import opened Wrappers

  /** What the caller passed as `max_workers`. `Auto` is the string "auto";
      `IntVal` is a Python `int` (including `bool`, which is an `int`
      subclass: `True` arrives as `IntVal(1)`, `False` as `IntVal(0)`);
      `Other` is any other value (another string, `None`, a float, ...),
      described by `tag` only so that the error can carry it; the tag is
      never "auto", since that string is `Auto`. */
  datatype Req = Auto | IntVal(n: int) | Other(tag: OtherTag)

  /** A description of a rejected value: anything but the string "auto". */
  type OtherTag = s: string | s != "auto" witness ""


  /** Concurrent in-flight requests one GPU-backed serving replica absorbs. */
  const WorkersPerGpu: int := 10

  /** True when the request is accepted as an explicit worker count. */
  predicate IsExplicitCount(req: Req) {
    req.IntVal? && req.n > 0
  }

  /** The cap that the GPU hint puts on an automatic budget; a hint of zero
      or less counts as one GPU. */
  function GpuCap(g: int): (cap: int)
    ensures cap >= WorkersPerGpu
    ensures g >= 1 ==> cap == WorkersPerGpu * g
    ensures g <= 1 ==> cap == WorkersPerGpu
  {
    (if g > 1 then g else 1) * WorkersPerGpu
  }

  /** The worker budget (mt_bench.py lines 56-79). The host probe that
      yields `cpus` is not part of this model: the count is a parameter. */
  function Budget(req: Req, gpus: Option<int>, cpus: nat): (r: Result<int, Req>)
    // only an explicit value that is not a positive int is rejected, and
    // the error carries exactly that value
    ensures r.Failure? <==> !req.Auto? && !IsExplicitCount(req)
    ensures r.Failure? ==> r.error == req
    // an explicit positive count is taken as it is
    ensures IsExplicitCount(req) ==> r == Success(req.n)
    // auto with a GPU hint: the minimum of the GPU cap and the CPU count,
    // i.e. within both bounds and equal to one of them
    ensures req.Auto? && gpus.Some? ==>
      && r.Success?
      && r.value <= cpus
      && r.value <= GpuCap(gpus.value)
      && (r.value == cpus || r.value == GpuCap(gpus.value))
    // auto without a hint: the largest w with 2 * w <= cpus
    ensures req.Auto? && gpus.None? ==>
      r.Success? && 0 <= 2 * r.value <= cpus < 2 * r.value + 2
    // whatever path succeeds, the budget is never negative
    ensures r.Success? ==> r.value >= 0
  {
    match req
    case Auto =>
      (match gpus
       case Some(g) =>
         var cap := GpuCap(g);
         Success(if cap < cpus then cap else cpus)
       case None =>
         Success(cpus / 2))
    case IntVal(n) =>
      if n > 0 then Success(n) else Failure(req)
    case Other(_) =>
      Failure(req)
  }

  /** A worker count the automatic rule may pick: within both GPU and CPU
      bounds when there is a hint, at most half the CPUs when there is not. */
  predicate AutoAdmissible(gpus: Option<int>, cpus: nat, w: int) {
    match gpus
    case Some(g) => w <= GpuCap(g) && w <= cpus
    case None => 2 * w <= cpus
  }

  /** The reference definition of the automatic budget: the greatest
      admissible worker count. */
  ghost predicate IsGreatestAdmissible(gpus: Option<int>, cpus: nat, w: int) {
    && AutoAdmissible(gpus, cpus, w)
    && forall v :: AutoAdmissible(gpus, cpus, v) ==> v <= w
  }

  /** The automatic budget is exactly the greatest admissible count: the
      computed value has that property, and any value that has it is the
      computed one. */
  lemma {:induction false} AutoBudgetIsGreatestAdmissible(gpus: Option<int>, cpus: nat, w: int)
    ensures IsGreatestAdmissible(gpus, cpus, w) <==> Budget(Auto, gpus, cpus) == Success(w)
  {
    var b := Budget(Auto, gpus, cpus).value;
    assert AutoAdmissible(gpus, cpus, b);
    forall v | AutoAdmissible(gpus, cpus, v)
      ensures v <= b
    {
      match gpus
      case Some(g) =>
      case None =>
    }
    assert IsGreatestAdmissible(gpus, cpus, b);
    if IsGreatestAdmissible(gpus, cpus, w) {
      assert w <= b && b <= w;
    }
  }

  /** An explicit positive count ignores the GPU hint and the CPU count. */
  lemma ExplicitCountIgnoresHost(n: int, gpus1: Option<int>, cpus1: nat, gpus2: Option<int>, cpus2: nat)
    requires n > 0
    ensures Budget(IntVal(n), gpus1, cpus1) == Budget(IntVal(n), gpus2, cpus2) == Success(n)
  {
  }

  /** Every rejection is an explicit request, and rejection does not depend
      on the host at all. */
  lemma RejectionIndependentOfHost(req: Req, gpus1: Option<int>, cpus1: nat, gpus2: Option<int>, cpus2: nat)
    ensures Budget(req, gpus1, cpus1).Failure? <==> Budget(req, gpus2, cpus2).Failure?
    ensures Budget(req, gpus1, cpus1).Failure? ==> !req.Auto?
  {
  }

  /** "auto" never raises, whatever the hint and however few CPUs there are. */
  lemma AutoNeverFails(gpus: Option<int>, cpus: nat)
    ensures Budget(Auto, gpus, cpus).Success?
  {
  }

  /** A GPU hint of zero or less behaves like a hint of one GPU. */
  lemma NonPositiveGpusActAsOne(g: int, cpus: nat)
    requires g <= 0
    ensures Budget(Auto, Some(g), cpus) == Budget(Auto, Some(1), cpus)
    ensures Budget(Auto, Some(g), cpus).value == if cpus < WorkersPerGpu then cpus else WorkersPerGpu
  {
  }

  /** `AbstractMTBenchEvaluator.__init__` has no guard against a zero
      budget: with no hint and at most one CPU, or with a hint and no CPU,
      "auto" yields zero workers. */
  lemma AutoCanYieldZero(gpus: Option<int>, cpus: nat)
    requires cpus <= 1
    requires gpus.Some? ==> cpus == 0
    ensures Budget(Auto, gpus, cpus) == Success(0)
  {
  }

  /** More usable CPUs never shrink the automatic budget. */
  lemma AutoBudgetMonotoneInCpus(gpus: Option<int>, cpus1: nat, cpus2: nat)
    requires cpus1 <= cpus2
    ensures Budget(Auto, gpus, cpus1).value <= Budget(Auto, gpus, cpus2).value
  {
  }

  /** More serving GPUs never shrink the automatic budget. */
  lemma AutoBudgetMonotoneInGpus(g1: int, g2: int, cpus: nat)
    requires g1 <= g2
    ensures Budget(Auto, Some(g1), cpus).value <= Budget(Auto, Some(g2), cpus).value
  {
  }

  /** Worked values of the rule. */
  lemma BudgetExamples()
    ensures Budget(Auto, Some(2), 8) == Success(8)
    ensures Budget(Auto, Some(1), 32) == Success(10)
    ensures Budget(Auto, Some(0), 32) == Success(10)
    ensures Budget(Auto, None, 16) == Success(8)
    ensures Budget(Auto, None, 1) == Success(0)
    ensures Budget(IntVal(0), None, 16) == Failure(IntVal(0))
    ensures Budget(IntVal(-1), Some(4), 16) == Failure(IntVal(-1))
    ensures Budget(Other("3"), None, 16) == Failure(Other("3"))
  {
  }
}
