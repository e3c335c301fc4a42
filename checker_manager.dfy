/** The judge manager (`pisek/task_jobs/checker/checker_manager.py`): before
    solutions are judged, the judge itself is tried on deliberately broken
    ("fuzzed") versions of each sample output, and `checker_job` picks the
    checker a task's configuration asks for. */
module CheckerManagerModel {
  import opened Common
  import CT = ConfigTypes
  import CB = CheckerBase

  // ---------------------------------------------------------------------------
  // Choosing a checker

  /** The configuration keys `checker_job` looks at. */
  datatype JudgeSettings = JudgeSettings(outCheck: CT.OutCheck, outJudge: Option<string>, judgeType: CT.JudgeType)

  datatype CheckerKind = DiffChecker | TokenChecker | ShuffleChecker | CmsBatchJudge | OpendataV1Judge

  /** A checker job: which checker, the judge program for the two judges,
      and the files it compares. */
  datatype CheckerJob = CheckerJob(kind: CheckerKind, judge: Option<string>, test: nat, input: string,
                                   output: string, correctOutput: string, seed: Option<nat>,
                                   expected: Option<CB.Verdict>)

  /** The `ValueError` for an `out_check` that needs a judge when none is set. */
  datatype ValueError = UnsetJudge(outCheck: CT.OutCheck)

  predicate JudgeUnset(s: JudgeSettings)
  {
    s.outCheck == CT.Judge && s.outJudge.None?
  }

  /** `checker_job`: the built-in checkers for diff, tokens and shuffle
      whatever the judge settings; otherwise the configured judge, the CMS
      batch judge for `cms-batch` and the opendata-v1 judge, the only one
      given the seed, for any other judge type. */
  function CheckerJobFor(s: JudgeSettings, input: string, output: string, correctOutput: string, test: nat,
                         seed: Option<nat>, expected: Option<CB.Verdict>): (r: Result<CheckerJob, ValueError>)
    ensures r.Err? <==> JudgeUnset(s)
    ensures r.Err? ==> r.error == UnsetJudge(s.outCheck)
    ensures r.Ok? ==> r.value.input == input && r.value.output == output && r.value.correctOutput == correctOutput
                      && r.value.test == test && r.value.expected == expected
    ensures r.Ok? ==> (r.value.kind == DiffChecker <==> s.outCheck == CT.Diff)
                      && (r.value.kind == TokenChecker <==> s.outCheck == CT.Tokens)
                      && (r.value.kind == ShuffleChecker <==> s.outCheck == CT.Shuffle)
    ensures r.Ok? && s.outCheck == CT.Judge ==> r.value.judge == s.outJudge
                                                && (r.value.kind == CmsBatchJudge <==> s.judgeType == CT.CmsBatch)
    ensures r.Ok? && s.outCheck != CT.Judge ==> r.value.judge.None?
    ensures r.Ok? ==> r.value.seed == (if r.value.kind == OpendataV1Judge then seed else None)
  {
    if s.outCheck == CT.Diff then Result.Ok(CheckerJob(DiffChecker, None, test, input, output, correctOutput, None, expected))
    else if s.outCheck == CT.Tokens then Result.Ok(CheckerJob(TokenChecker, None, test, input, output, correctOutput, None, expected))
    else if s.outCheck == CT.Shuffle then Result.Ok(CheckerJob(ShuffleChecker, None, test, input, output, correctOutput, None, expected))
    else if s.outJudge.None? then Err(UnsetJudge(s.outCheck))
    else if s.judgeType == CT.CmsBatch then
      Result.Ok(CheckerJob(CmsBatchJudge, s.outJudge, test, input, output, correctOutput, None, expected))
    else Result.Ok(CheckerJob(OpendataV1Judge, s.outJudge, test, input, output, correctOutput, seed, expected))
  }

  // ---------------------------------------------------------------------------
  // Trying the judge on fuzzed outputs

  datatype FuzzKind = Incomplete | ChaosMonkey

  /** How many outputs of each kind every sample is fuzzed into, in order. */
  const FuzzPlan: seq<(FuzzKind, nat)> := [(Incomplete, 10), (ChaosMonkey, 50)]
  const FuzzTotal: nat := 60
  /** Seeds are drawn from `range(0, 16**4)`. */
  const SeedBound: nat := 65536

  /** A job of the judge manager: an invalidation writing a broken copy
      `invalid` of `correct`, or a run of the checker, which leaves its log
      and, for a CMS judge, a points file. */
  datatype JudgeJob =
    | Invalidate(fuzz: FuzzKind, correct: string, invalid: string, seed: nat)
    | RunJudge(checker: CheckerJob, log: string, points: Option<string>)

  /** Job `from` waits for job `on`. */
  datatype Dependency = Dependency(from: nat, on: nat)

  datatype Sample = Sample(input: string, output: string)

  datatype ManagerConfig = ManagerConfig(taskType: CT.TaskType, fuzzedOutputs: bool, judge: JudgeSettings)

  /** The path functions the manager calls: the fuzzed copy of an output for
      a seed, and the judge log and points file of a checked output. */
  datatype PathOps = PathOps(toFuzzing: (string, nat) -> string, judgeLog: string -> string,
                             pointsFile: string -> string)

  /** The kind of the `k`-th fuzzed output of a sample. */
  function FuzzKindAt(k: nat): FuzzKind
  {
    if k < FuzzPlan[0].1 then FuzzPlan[0].0 else FuzzPlan[1].0
  }

  /** The seed of the `k`-th fuzzed output: seeds are popped from the end. */
  function SeedAt(drawn: seq<nat>, k: nat): nat
    requires k < |drawn|
  {
    drawn[|drawn| - 1 - k]
  }

  /** The invalidation and the judge run for the `k`-th fuzzed output. */
  function FuzzPair(cfg: ManagerConfig, sample: Sample, k: nat, drawn: seq<nat>, ops: PathOps): seq<JudgeJob>
    requires k < |drawn|
  {
    var seed := SeedAt(drawn, k);
    var invalid := ops.toFuzzing(sample.output, seed);
    match CheckerJobFor(cfg.judge, sample.input, invalid, sample.output, 0, None, None)
    case Ok(c) =>
      [Invalidate(FuzzKindAt(k), sample.output, invalid, seed),
       RunJudge(c, ops.judgeLog(invalid), if c.kind == CmsBatchJudge then Some(ops.pointsFile(invalid)) else None)]
    case Err(_) => []
  }

  /** The first `n` pairs of a sample. */
  function SampleJobs(cfg: ManagerConfig, sample: Sample, n: nat, drawn: seq<nat>, ops: PathOps): seq<JudgeJob>
    requires n <= |drawn|
  {
    if n == 0 then [] else SampleJobs(cfg, sample, n - 1, drawn, ops) + FuzzPair(cfg, sample, n - 1, drawn, ops)
  }

  /** The jobs of the first `m` samples; the seeds are drawn afresh with
      the same random seed for every sample, so each sample uses the same
      `drawn`. */
  function AllJobs(cfg: ManagerConfig, samples: seq<Sample>, m: nat, drawn: seq<nat>, ops: PathOps): seq<JudgeJob>
    requires m <= |samples| && |drawn| == FuzzTotal
  {
    if m == 0 then [] else AllJobs(cfg, samples, m - 1, drawn, ops) + SampleJobs(cfg, samples[m - 1], FuzzTotal, drawn, ops)
  }

  /** What `_get_jobs` plans. */
  function Planned(cfg: ManagerConfig, samples: seq<Sample>, drawn: seq<nat>, ops: PathOps): seq<JudgeJob>
    requires |drawn| == FuzzTotal
  {
    if cfg.taskType == CT.Interactive || !cfg.fuzzedOutputs then []
    else AllJobs(cfg, samples, |samples|, drawn, ops)
  }

  /** Jobs `2p` and `2p + 1` are an invalidation and the judge run on the
      output it broke. */
  predicate PairAt(jobs: seq<JudgeJob>, p: nat)
    requires 2 * p + 1 < |jobs|
  {
    jobs[2 * p].Invalidate? && jobs[2 * p + 1].RunJudge?
    && jobs[2 * p + 1].checker.output == jobs[2 * p].invalid
    && jobs[2 * p + 1].checker.correctOutput == jobs[2 * p].correct
  }

  predicate Paired(jobs: seq<JudgeJob>)
  {
    |jobs| % 2 == 0 && forall p :: 0 <= p < |jobs| / 2 ==> PairAt(jobs, p)
  }

  /** Every judge run waits for the invalidation just before it. */
  predicate PairedDeps(deps: seq<Dependency>, n: nat)
  {
    2 * |deps| == n && forall p :: 0 <= p < |deps| ==> deps[p] == Dependency(2 * p + 1, 2 * p)
  }

  lemma {:induction false} PairedAppend(a: seq<JudgeJob>, b: seq<JudgeJob>)
    requires Paired(a) && Paired(b)
    ensures Paired(a + b)
  {
    var c := a + b;
    forall p | 0 <= p < |c| / 2
      ensures PairAt(c, p)
    {
      if p < |a| / 2 {
        assert PairAt(a, p);
        assert c[2 * p] == a[2 * p] && c[2 * p + 1] == a[2 * p + 1];
      } else {
        var q := p - |a| / 2;
        assert PairAt(b, q);
        assert c[2 * p] == b[2 * q] && c[2 * p + 1] == b[2 * q + 1];
      }
    }
  }

  /** Without an unset judge, the `k`-th pair breaks the sample's output
      with the `k`-th popped seed and judges the broken copy. */
  lemma FuzzPairShape(cfg: ManagerConfig, sample: Sample, k: nat, drawn: seq<nat>, ops: PathOps)
    requires k < |drawn| && !JudgeUnset(cfg.judge)
    ensures var pair := FuzzPair(cfg, sample, k, drawn, ops);
            |pair| == 2 && PairAt(pair, 0)
            && pair[0] == Invalidate(FuzzKindAt(k), sample.output, ops.toFuzzing(sample.output, SeedAt(drawn, k)), SeedAt(drawn, k))
            && pair[1].checker.input == sample.input
  {
  }

  /** A sample's first `n` pairs are `2n` jobs, pair `k` at positions `2k`
      and `2k + 1`. */
  lemma {:induction false} SampleJobsAt(cfg: ManagerConfig, sample: Sample, n: nat, drawn: seq<nat>, ops: PathOps, k: nat)
    requires n <= |drawn| && !JudgeUnset(cfg.judge) && k < n
    ensures |SampleJobs(cfg, sample, n, drawn, ops)| == 2 * n
    ensures SampleJobs(cfg, sample, n, drawn, ops)[2 * k] == FuzzPair(cfg, sample, k, drawn, ops)[0]
    ensures SampleJobs(cfg, sample, n, drawn, ops)[2 * k + 1] == FuzzPair(cfg, sample, k, drawn, ops)[1]
  {
    FuzzPairShape(cfg, sample, n - 1, drawn, ops);
    if k < n - 1 {
      SampleJobsAt(cfg, sample, n - 1, drawn, ops, k);
    } else if n > 1 {
      SampleJobsAt(cfg, sample, n - 1, drawn, ops, 0);
    }
  }

  /** A sample's pairs, ten incomplete outputs before the chaos monkeys. */
  lemma SampleJobsShape(cfg: ManagerConfig, sample: Sample, n: nat, drawn: seq<nat>, ops: PathOps)
    requires 0 < n <= |drawn| && !JudgeUnset(cfg.judge)
    ensures |SampleJobs(cfg, sample, n, drawn, ops)| == 2 * n
    ensures Paired(SampleJobs(cfg, sample, n, drawn, ops))
    ensures forall k :: 0 <= k < n ==>
              SampleJobs(cfg, sample, n, drawn, ops)[2 * k]
              == Invalidate(FuzzKindAt(k), sample.output, ops.toFuzzing(sample.output, SeedAt(drawn, k)), SeedAt(drawn, k))
  {
    var all := SampleJobs(cfg, sample, n, drawn, ops);
    SampleJobsAt(cfg, sample, n, drawn, ops, 0);
    forall k | 0 <= k < n
      ensures PairAt(all, k)
      ensures all[2 * k] == Invalidate(FuzzKindAt(k), sample.output, ops.toFuzzing(sample.output, SeedAt(drawn, k)), SeedAt(drawn, k))
    {
      SampleJobsAt(cfg, sample, n, drawn, ops, k);
      FuzzPairShape(cfg, sample, k, drawn, ops);
    }
  }

  /** Within one sample the pairs use 60 distinct seeds below `16**4`, as
      `random.sample` promises of `drawn`; the first ten pairs fuzz with
      `Incomplete`, the other fifty with `ChaosMonkey`. */
  lemma SampleSeeds(cfg: ManagerConfig, sample: Sample, drawn: seq<nat>, ops: PathOps, k1: nat, k2: nat)
    requires |drawn| == FuzzTotal && NoDups(drawn) && forall i :: 0 <= i < |drawn| ==> drawn[i] < SeedBound
    requires !JudgeUnset(cfg.judge) && k1 < k2 < FuzzTotal
    ensures var jobs := SampleJobs(cfg, sample, FuzzTotal, drawn, ops);
            |jobs| == 2 * FuzzTotal && jobs[2 * k1].Invalidate? && jobs[2 * k2].Invalidate?
            && jobs[2 * k1].seed != jobs[2 * k2].seed && jobs[2 * k1].seed < SeedBound
            && (jobs[2 * k1].fuzz == Incomplete <==> k1 < 10)
  {
    SampleJobsShape(cfg, sample, FuzzTotal, drawn, ops);
  }

  lemma {:induction false} AllJobsPaired(cfg: ManagerConfig, samples: seq<Sample>, m: nat, drawn: seq<nat>, ops: PathOps)
    requires m <= |samples| && |drawn| == FuzzTotal && !JudgeUnset(cfg.judge)
    ensures |AllJobs(cfg, samples, m, drawn, ops)| == 2 * FuzzTotal * m
    ensures Paired(AllJobs(cfg, samples, m, drawn, ops))
  {
    if m > 0 {
      AllJobsPaired(cfg, samples, m - 1, drawn, ops);
      SampleJobsShape(cfg, samples[m - 1], FuzzTotal, drawn, ops);
      PairedAppend(AllJobs(cfg, samples, m - 1, drawn, ops), SampleJobs(cfg, samples[m - 1], FuzzTotal, drawn, ops));
    }
  }

  /** Sample `s`'s jobs form block `s` of `120` jobs in the plan. */
  lemma {:induction false} AllJobsBlock(cfg: ManagerConfig, samples: seq<Sample>, m: nat, drawn: seq<nat>, ops: PathOps,
                                        s: nat, j: nat)
    requires m <= |samples| && |drawn| == FuzzTotal && !JudgeUnset(cfg.judge)
    requires s < m && j < 2 * FuzzTotal
    ensures |SampleJobs(cfg, samples[s], FuzzTotal, drawn, ops)| == 2 * FuzzTotal
    ensures 2 * FuzzTotal * s + j < |AllJobs(cfg, samples, m, drawn, ops)|
    ensures AllJobs(cfg, samples, m, drawn, ops)[2 * FuzzTotal * s + j]
            == SampleJobs(cfg, samples[s], FuzzTotal, drawn, ops)[j]
  {
    var prev := AllJobs(cfg, samples, m - 1, drawn, ops);
    var last := SampleJobs(cfg, samples[m - 1], FuzzTotal, drawn, ops);
    assert AllJobs(cfg, samples, m, drawn, ops) == prev + last;
    AllJobsPaired(cfg, samples, m - 1, drawn, ops);
    SampleJobsShape(cfg, samples[m - 1], FuzzTotal, drawn, ops);
    if s < m - 1 {
      AllJobsBlock(cfg, samples, m - 1, drawn, ops, s, j);
      assert 2 * FuzzTotal * s + j < |prev|;
    } else {
      assert 2 * FuzzTotal * s + j == |prev| + j;
    }
  }

  class JudgeManager {
    var jobs: seq<JudgeJob>
    var dependencies: seq<Dependency>

    constructor()
      ensures jobs == [] && dependencies == []
    {
      jobs := [];
      dependencies := [];
    }

    /** `_get_jobs`. `drawn` stands for `random.sample(range(0, 16**4), 60)`
        after `random.seed(4)`. An interactive task and a configuration
        without the fuzzed-outputs check plan nothing; otherwise every
        sample gets its 60 (invalidate, judge) pairs, each judge waiting for
        its own invalidation. An unset judge raises on the first pair. */
    method GetJobs(cfg: ManagerConfig, samples: seq<Sample>, drawn: seq<nat>, ops: PathOps) returns (err: Option<ValueError>)
      requires |drawn| == FuzzTotal
      modifies this
      ensures err.Some? <==> cfg.taskType == CT.Batch && cfg.fuzzedOutputs && |samples| > 0 && JudgeUnset(cfg.judge)
      ensures err.Some? ==> err.value == UnsetJudge(CT.Judge) && jobs == old(jobs) && dependencies == old(dependencies)
      ensures err.None? ==> jobs == Planned(cfg, samples, drawn, ops) && PairedDeps(dependencies, |jobs|)
    {
      if cfg.taskType == CT.Interactive {
        jobs := [];
        dependencies := [];
        return None;
      }
      var js: seq<JudgeJob> := [];
      var deps: seq<Dependency> := [];
      var i := 0;
      while i < |samples|
        invariant 0 <= i <= |samples|
        invariant cfg.fuzzedOutputs && i > 0 ==> !JudgeUnset(cfg.judge)
        invariant js == (if cfg.fuzzedOutputs then AllJobs(cfg, samples, i, drawn, ops) else [])
        invariant PairedDeps(deps, |js|)
        invariant jobs == old(jobs) && dependencies == old(dependencies)
      {
        if cfg.fuzzedOutputs {
          var e;
          js, deps, e := FuzzSample(cfg, samples[i], drawn, ops, js, deps);
          if e.Some? {
            return e;
          }
        }
        i := i + 1;
      }
      jobs := js;
      dependencies := deps;
      return None;
    }

    /** `_compute_result`: the judge log of every checker run, and the
        points file of every CMS judge. */
    method ComputeResult() returns (judgeOuts: set<string>)
      ensures forall f :: f in judgeOuts <==> exists i :: 0 <= i < |jobs| && JudgeOutput(jobs[i], f)
    {
      judgeOuts := {};
      var i := 0;
      while i < |jobs|
        invariant 0 <= i <= |jobs|
        invariant forall f :: f in judgeOuts <==> exists k :: 0 <= k < i && JudgeOutput(jobs[k], f)
      {
        var job := jobs[i];
        if job.RunJudge? {
          if job.checker.kind == CmsBatchJudge && job.points.Some? {
            judgeOuts := judgeOuts + {job.points.value};
          }
          judgeOuts := judgeOuts + {job.log};
        }
        i := i + 1;
      }
    }
  }

  /** A file `_compute_result` collects from `job`. */
  predicate JudgeOutput(job: JudgeJob, f: string)
  {
    job.RunJudge? && (f == job.log || (job.checker.kind == CmsBatchJudge && job.points == Some(f)))
  }

  /** The body of the sample loop with the fuzzed-outputs check on: pops
      the 60 seeds in turn, 10 for `Incomplete` and then 50 for
      `ChaosMonkey`, appending an invalidation and a judge run for each. */
  method FuzzSample(cfg: ManagerConfig, sample: Sample, drawn: seq<nat>, ops: PathOps,
                    js0: seq<JudgeJob>, deps0: seq<Dependency>)
    returns (js: seq<JudgeJob>, deps: seq<Dependency>, err: Option<ValueError>)
    requires |drawn| == FuzzTotal && PairedDeps(deps0, |js0|)
    ensures err.Some? <==> JudgeUnset(cfg.judge)
    ensures err.Some? ==> err.value == UnsetJudge(CT.Judge)
    ensures err.None? ==> js == js0 + SampleJobs(cfg, sample, FuzzTotal, drawn, ops) && PairedDeps(deps, |js|)
  {
    var seeds := drawn;
    js := js0;
    deps := deps0;
    err := None;
    var k := 0;
    var q := 0;
    while q < |FuzzPlan|
      invariant 0 <= q <= |FuzzPlan|
      invariant k == (if q == 0 then 0 else if q == 1 then FuzzPlan[0].1 else FuzzTotal)
      invariant seeds == drawn[..FuzzTotal - k]
      invariant js == js0 + SampleJobs(cfg, sample, k, drawn, ops) && PairedDeps(deps, |js|)
      invariant k > 0 ==> !JudgeUnset(cfg.judge)
    {
      var (kind, times) := FuzzPlan[q];
      var t := 0;
      while t < times
        invariant 0 <= t <= times
        invariant k == (if q == 0 then 0 else FuzzPlan[0].1) + t
        invariant seeds == drawn[..FuzzTotal - k]
        invariant js == js0 + SampleJobs(cfg, sample, k, drawn, ops) && PairedDeps(deps, |js|)
        invariant k > 0 ==> !JudgeUnset(cfg.judge)
      {
        var e;
        seeds, js, deps, e, k := FuzzStep(cfg, sample, drawn, ops, k, kind, seeds, js0, js, deps);
        if e.Some? {
          return js, deps, e;
        }
        t := t + 1;
      }
      q := q + 1;
    }
  }

  /** One fuzzed output: pop a seed, break the sample output with it and
      append the invalidation and the judge run depending on it. */
  method FuzzStep(cfg: ManagerConfig, sample: Sample, drawn: seq<nat>, ops: PathOps, k: nat, kind: FuzzKind,
                  seeds0: seq<nat>, js0: seq<JudgeJob>, js1: seq<JudgeJob>, deps1: seq<Dependency>)
    returns (seeds: seq<nat>, js: seq<JudgeJob>, deps: seq<Dependency>, err: Option<ValueError>, next: nat)
    requires |drawn| == FuzzTotal && k < FuzzTotal && kind == FuzzKindAt(k)
    requires seeds0 == drawn[..FuzzTotal - k]
    requires js1 == js0 + SampleJobs(cfg, sample, k, drawn, ops) && PairedDeps(deps1, |js1|)
    ensures next == k + 1
    ensures err.Some? <==> JudgeUnset(cfg.judge)
    ensures err.Some? ==> err.value == UnsetJudge(CT.Judge)
    ensures err.None? ==> seeds == drawn[..FuzzTotal - next]
                          && js == js0 + SampleJobs(cfg, sample, next, drawn, ops) && PairedDeps(deps, |js|)
  {
    next := k + 1;
    var seed := seeds0[|seeds0| - 1];
    seeds := seeds0[..|seeds0| - 1];
    assert seed == SeedAt(drawn, k);
    var invalid := ops.toFuzzing(sample.output, seed);
    var checker := CheckerJobFor(cfg.judge, sample.input, invalid, sample.output, 0, None, None);
    if checker.Err? {
      return seeds, js1, deps1, Some(checker.error), next;
    }
    var c := checker.value;
    var invalidate := Invalidate(kind, sample.output, invalid, seed);
    var runJudge := RunJudge(c, ops.judgeLog(invalid), if c.kind == CmsBatchJudge then Some(ops.pointsFile(invalid)) else None);
    assert FuzzPair(cfg, sample, k, drawn, ops) == [invalidate, runJudge];
    deps := deps1 + [Dependency(|js1| + 1, |js1|)];
    js := js1 + [invalidate, runJudge];
    err := None;
  }

  /** Once planned, every dependency links a judge run to the invalidation
      that wrote the output it checks. */
  lemma PlannedDependencies(cfg: ManagerConfig, samples: seq<Sample>, drawn: seq<nat>, ops: PathOps,
                            deps: seq<Dependency>, p: nat)
    requires |drawn| == FuzzTotal && !JudgeUnset(cfg.judge)
    requires PairedDeps(deps, |Planned(cfg, samples, drawn, ops)|) && p < |deps|
    ensures var jobs := Planned(cfg, samples, drawn, ops);
            var d := deps[p];
            d.from < |jobs| && d.on < |jobs|
            && jobs[d.from].RunJudge? && jobs[d.on].Invalidate?
            && jobs[d.from].checker.output == jobs[d.on].invalid
  {
    var jobs := Planned(cfg, samples, drawn, ops);
    if cfg.taskType != CT.Interactive && cfg.fuzzedOutputs {
      AllJobsPaired(cfg, samples, |samples|, drawn, ops);
    }
    assert PairAt(jobs, p);
  }
}
