/** The generator manager of the older job API (`pisek/jobs/parts/generator.py`):
    after compiling the generator, an online generator produces one input
    per subtask and seed, and two extra jobs test it, that generating again
    gives the same file and that two seeds give different files; an offline
    generator writes all inputs in one run. */
module PartsGeneratorModel {
  import opened Common
  import opened Text
  import RR = RunResults

  datatype GenJob =
    | CompileGenerator(generator: string)
    | Generate(inputName: string, subtask: string, seed: int)
    | Deterministic(inputName: string, subtask: string, seed: int)
    | RespectsSeed(subtask: string, seed1: int, seed2: int, input1: string, input2: string)
    | OfflineGenerate(generator: string)

  /** Job `from` waits for job `on`. */
  datatype Dependency = Dependency(from: nat, on: nat)

  /** The name of the input generated for a seed and subtask
      (`get_input_name`, which is not part of this model). */
  type InputNamer = (nat, string) -> string

  // ---------------------------------------------------------------------------
  // Planning the online generator's jobs

  /** The jobs for the `k`-th seed of a subtask: its Generate job, then the
      Deterministic check after the first seed and the RespectsSeed check
      of the first two seeds after the second. */
  function SeedJobs(sub: string, seeds: seq<nat>, nameOf: InputNamer, k: nat): seq<GenJob>
    requires k < |seeds|
  {
    [Generate(nameOf(seeds[k], sub), sub, seeds[k])]
    + if k == 0 then [Deterministic(nameOf(seeds[0], sub), sub, seeds[0])]
      else if k == 1 then [RespectsSeed(sub, seeds[0], seeds[1], nameOf(seeds[0], sub), nameOf(seeds[1], sub))]
      else []
  }

  /** The jobs of a subtask's first `n` seeds. */
  function SubtaskJobs(sub: string, seeds: seq<nat>, nameOf: InputNamer, n: nat): seq<GenJob>
    requires n <= |seeds|
  {
    if n == 0 then [] else SubtaskJobs(sub, seeds, nameOf, n - 1) + SeedJobs(sub, seeds, nameOf, n - 1)
  }

  /** How many jobs the first `n` seeds of a subtask make, which is also
      where the Generate job of seed `n` sits within its subtask. */
  function SubtaskLen(n: nat): nat
  {
    if n <= 1 then 2 * n else n + 2
  }

  /** The dependencies of the `k`-th seed's jobs, for a subtask whose jobs
      start at `block`: the Generate job waits for the compile (job 0), the
      Deterministic check for its Generate job, the RespectsSeed check for
      the Generate jobs of the first and of the second seed. */
  function SeedDeps(block: nat, k: nat): seq<Dependency>
  {
    var pos := block + SubtaskLen(k);
    [Dependency(pos, 0)]
    + if k == 0 then [Dependency(pos + 1, pos)]
      else if k == 1 then [Dependency(pos + 1, block), Dependency(pos + 1, pos)]
      else []
  }

  function SubtaskDeps(block: nat, n: nat): seq<Dependency>
  {
    if n == 0 then [] else SubtaskDeps(block, n - 1) + SeedDeps(block, n - 1)
  }

  /** The online jobs of all subtasks, in order; the samples, "0", are
      skipped when `skipSamples`. */
  function Planned(subs: seq<string>, seeds: seq<nat>, nameOf: InputNamer, skipSamples: bool): seq<GenJob>
  {
    if subs == [] then []
    else
      (if skipSamples && subs[0] == "0" then [] else SubtaskJobs(subs[0], seeds, nameOf, |seeds|))
      + Planned(subs[1..], seeds, nameOf, skipSamples)
  }

  /** Their dependencies, when the first of them is job `start`: each
      subtask's block of jobs follows the previous one. */
  function PlannedDeps(subs: seq<string>, seeds: seq<nat>, skipSamples: bool, start: nat): seq<Dependency>
  {
    if subs == [] then []
    else if skipSamples && subs[0] == "0" then PlannedDeps(subs[1..], seeds, skipSamples, start)
    else SubtaskDeps(start, |seeds|) + PlannedDeps(subs[1..], seeds, skipSamples, start + SubtaskLen(|seeds|))
  }

  /** A dependency of a subtask's jobs `jobs` (starting at `block`) links a
      Generate job to the compile, a Deterministic check to the Generate
      job of its own seed and input, and a RespectsSeed check to the
      Generate job of one of its two seeds. */
  predicate DepOk(jobs: seq<GenJob>, block: nat, d: Dependency)
  {
    block <= d.from < block + |jobs|
    && match jobs[d.from - block]
       case Generate(_, _, _) => d.on == 0
       case Deterministic(input, sub, seed) =>
         block <= d.on < block + |jobs| && jobs[d.on - block] == Generate(input, sub, seed)
       case RespectsSeed(sub, seed1, seed2, input1, input2) =>
         block <= d.on < block + |jobs|
         && (jobs[d.on - block] == Generate(input1, sub, seed1) || jobs[d.on - block] == Generate(input2, sub, seed2))
       case _ => false
  }

  lemma {:induction false} SubtaskJobsLen(sub: string, seeds: seq<nat>, nameOf: InputNamer, n: nat)
    requires n <= |seeds|
    ensures |SubtaskJobs(sub, seeds, nameOf, n)| == SubtaskLen(n)
  {
    if n > 0 {
      SubtaskJobsLen(sub, seeds, nameOf, n - 1);
    }
  }

  /** The jobs of fewer seeds are a prefix of the jobs of more. */
  lemma {:induction false} SubtaskJobsPrefix(sub: string, seeds: seq<nat>, nameOf: InputNamer, m: nat, n: nat)
    requires m <= n <= |seeds|
    ensures SubtaskJobs(sub, seeds, nameOf, m) <= SubtaskJobs(sub, seeds, nameOf, n)
  {
    if m < n {
      SubtaskJobsPrefix(sub, seeds, nameOf, m, n - 1);
    }
  }

  /** The Generate job of the `k`-th seed sits at `SubtaskLen(k)`. */
  lemma {:induction false} SubtaskGenAt(sub: string, seeds: seq<nat>, nameOf: InputNamer, n: nat, k: nat)
    requires k < n <= |seeds|
    ensures SubtaskLen(k) < |SubtaskJobs(sub, seeds, nameOf, n)|
    ensures SubtaskJobs(sub, seeds, nameOf, n)[SubtaskLen(k)] == Generate(nameOf(seeds[k], sub), sub, seeds[k])
  {
    SubtaskJobsLen(sub, seeds, nameOf, n - 1);
    if k < n - 1 {
      SubtaskGenAt(sub, seeds, nameOf, n - 1, k);
    }
  }

  /** A subtask has one Deterministic check, at 1, of its first seed, and
      one RespectsSeed check, at 3, of its first two seeds. */
  lemma {:induction false} SubtaskChecksAt(sub: string, seeds: seq<nat>, nameOf: InputNamer, n: nat, i: nat)
    requires n <= |seeds| && i < |SubtaskJobs(sub, seeds, nameOf, n)|
    ensures var job := SubtaskJobs(sub, seeds, nameOf, n)[i];
            (job.Deterministic? ==> i == 1 && job == Deterministic(nameOf(seeds[0], sub), sub, seeds[0]))
            && (job.RespectsSeed? ==> i == 3 && |seeds| >= 2 && job == RespectsSeed(sub, seeds[0], seeds[1], nameOf(seeds[0], sub), nameOf(seeds[1], sub)))
  {
    var prev := SubtaskJobs(sub, seeds, nameOf, n - 1);
    SubtaskJobsLen(sub, seeds, nameOf, n - 1);
    if i < |prev| {
      SubtaskChecksAt(sub, seeds, nameOf, n - 1, i);
    }
  }

  /** Every subtask with a seed has the Deterministic check, and with two
      seeds the RespectsSeed check too. */
  lemma SubtaskHasChecks(sub: string, seeds: seq<nat>, nameOf: InputNamer, n: nat)
    requires n <= |seeds|
    ensures n >= 1 ==> |SubtaskJobs(sub, seeds, nameOf, n)| > 1 && SubtaskJobs(sub, seeds, nameOf, n)[1].Deterministic?
    ensures n >= 2 ==> |SubtaskJobs(sub, seeds, nameOf, n)| > 3 && SubtaskJobs(sub, seeds, nameOf, n)[3].RespectsSeed?
  {
    SubtaskJobsLen(sub, seeds, nameOf, n);
    if n >= 1 {
      SubtaskJobsPrefix(sub, seeds, nameOf, 1, n);
      assert SubtaskJobs(sub, seeds, nameOf, 1) == SeedJobs(sub, seeds, nameOf, 0);
    }
    if n >= 2 {
      SubtaskJobsPrefix(sub, seeds, nameOf, 2, n);
      assert SubtaskJobs(sub, seeds, nameOf, 2)[3] == SeedJobs(sub, seeds, nameOf, 1)[1];
    }
  }

  /** Every dependency in `deps` is of the expected kind. */
  predicate AllDepsOk(jobs: seq<GenJob>, start: nat, deps: seq<Dependency>)
  {
    forall i :: 0 <= i < |deps| ==> DepOk(jobs, start, deps[i])
  }

  lemma DepOkPrefix(jobs: seq<GenJob>, more: seq<GenJob>, block: nat, d: Dependency)
    requires DepOk(jobs, block, d)
    ensures DepOk(jobs + more, block, d)
  {
    assert (jobs + more)[d.from - block] == jobs[d.from - block];
    if block <= d.on < block + |jobs| {
      assert (jobs + more)[d.on - block] == jobs[d.on - block];
    }
  }

  /** The dependencies the `k`-th seed adds are of the expected kind. */
  lemma SeedDepsOk(sub: string, seeds: seq<nat>, nameOf: InputNamer, k: nat, block: nat, d: Dependency)
    requires k < |seeds| && d in SeedDeps(block, k)
    ensures DepOk(SubtaskJobs(sub, seeds, nameOf, k + 1), block, d)
  {
    var jobs := SubtaskJobs(sub, seeds, nameOf, k + 1);
    var pos := block + SubtaskLen(k);
    SubtaskJobsLen(sub, seeds, nameOf, k);
    SubtaskJobsLen(sub, seeds, nameOf, k + 1);
    SubtaskGenAt(sub, seeds, nameOf, k + 1, k);
    if d != Dependency(pos, 0) {
      assert k <= 1 && d.from == pos + 1;
      SubtaskGenAt(sub, seeds, nameOf, k + 1, 0);
      assert jobs[SubtaskLen(k) + 1] == SeedJobs(sub, seeds, nameOf, k)[1] by {
        assert jobs == SubtaskJobs(sub, seeds, nameOf, k) + SeedJobs(sub, seeds, nameOf, k);
      }
    }
  }

  lemma {:induction false} SubtaskDepsLen(block: nat, n: nat)
    ensures |SubtaskDeps(block, n)| == SubtaskLen(n) + (if n >= 2 then 1 else 0)
  {
    if n > 0 {
      SubtaskDepsLen(block, n - 1);
    }
  }

  lemma {:induction false} SubtaskDepsPrefix(block: nat, m: nat, n: nat)
    requires m <= n
    ensures SubtaskDeps(block, m) <= SubtaskDeps(block, n)
  {
    if m < n {
      SubtaskDepsPrefix(block, m, n - 1);
    }
  }

  /** Every dependency of a subtask's jobs is of the expected kind. */
  lemma {:induction false} SubtaskDepsOk(sub: string, seeds: seq<nat>, nameOf: InputNamer, n: nat, block: nat)
    requires n <= |seeds|
    ensures AllDepsOk(SubtaskJobs(sub, seeds, nameOf, n), block, SubtaskDeps(block, n))
  {
    if n > 0 {
      SubtaskDepsOk(sub, seeds, nameOf, n - 1, block);
      var prev := SubtaskJobs(sub, seeds, nameOf, n - 1);
      var more := SeedJobs(sub, seeds, nameOf, n - 1);
      assert SubtaskJobs(sub, seeds, nameOf, n) == prev + more;
      var oldDeps := SubtaskDeps(block, n - 1);
      var newDeps := SeedDeps(block, n - 1);
      var deps := SubtaskDeps(block, n);
      forall i | 0 <= i < |deps|
        ensures DepOk(prev + more, block, deps[i])
      {
        if i < |oldDeps| {
          assert deps[i] == oldDeps[i];
          DepOkPrefix(prev, more, block, oldDeps[i]);
        } else {
          assert deps[i] == newDeps[i - |oldDeps|];
          SeedDepsOk(sub, seeds, nameOf, n - 1, block, deps[i]);
        }
      }
    }
  }

  /** The RespectsSeed check waits for both the first and the second
      Generate job of its subtask. */
  lemma RespectsSeedDeps(block: nat, n: nat)
    requires n >= 2
    ensures Dependency(block + 3, block) in SubtaskDeps(block, n)
    ensures Dependency(block + 3, block + 2) in SubtaskDeps(block, n)
  {
    SubtaskDepsPrefix(block, 2, n);
    assert SubtaskDeps(block, 2) == SubtaskDeps(block, 1) + SeedDeps(block, 1);
  }

  /** Every online Generate job is for a planned subtask, never the samples
      when they are skipped, and one of the drawn seeds. */
  lemma {:induction false} PlannedGenerates(subs: seq<string>, seeds: seq<nat>, nameOf: InputNamer, skipSamples: bool, i: nat)
    requires i < |Planned(subs, seeds, nameOf, skipSamples)|
    ensures var job := Planned(subs, seeds, nameOf, skipSamples)[i];
            job.Generate? ==> job.subtask in subs && job.seed in seeds && !(skipSamples && job.subtask == "0")
    decreases |subs|
  {
    var own := if skipSamples && subs[0] == "0" then [] else SubtaskJobs(subs[0], seeds, nameOf, |seeds|);
    var later := Planned(subs[1..], seeds, nameOf, skipSamples);
    assert Planned(subs, seeds, nameOf, skipSamples) == own + later;
    var job := (own + later)[i];
    if i < |own| {
      assert job == own[i];
      SubtaskGenerates(subs[0], seeds, nameOf, |seeds|, i);
      assert seeds[..|seeds|] == seeds;
    } else {
      assert job == later[i - |own|];
      PlannedGenerates(subs[1..], seeds, nameOf, skipSamples, i - |own|);
      assert job.Generate? ==> job.subtask in subs by {
        assert subs == [subs[0]] + subs[1..];
      }
    }
  }


  lemma {:induction false} SubtaskGenerates(sub: string, seeds: seq<nat>, nameOf: InputNamer, n: nat, i: nat)
    requires n <= |seeds| && i < |SubtaskJobs(sub, seeds, nameOf, n)|
    ensures var job := SubtaskJobs(sub, seeds, nameOf, n)[i];
            job.Generate? ==> job.subtask == sub && job.seed in seeds[..n]
  {
    var prev := SubtaskJobs(sub, seeds, nameOf, n - 1);
    if i < |prev| {
      SubtaskGenerates(sub, seeds, nameOf, n - 1, i);
      assert seeds[..n - 1] <= seeds[..n];
    } else {
      assert seeds[n - 1] == seeds[..n][n - 1];
    }
  }

  lemma DepOkShift(pre: seq<GenJob>, jobs: seq<GenJob>, start: nat, d: Dependency)
    requires DepOk(jobs, start + |pre|, d)
    ensures DepOk(pre + jobs, start, d)
  {
    assert (pre + jobs)[d.from - start] == jobs[d.from - start - |pre|];
    if start + |pre| <= d.on < start + |pre| + |jobs| {
      assert (pre + jobs)[d.on - start] == jobs[d.on - start - |pre|];
    }
  }

  /** Every planned dependency, read as indices into the planned jobs
      starting at `start`, is of the expected kind. */
  lemma {:induction false} PlannedDepsOk(subs: seq<string>, seeds: seq<nat>, nameOf: InputNamer, skipSamples: bool, start: nat)
    ensures AllDepsOk(Planned(subs, seeds, nameOf, skipSamples), start, PlannedDeps(subs, seeds, skipSamples, start))
    decreases |subs|
  {
    if subs != [] {
      var rest := subs[1..];
      if skipSamples && subs[0] == "0" {
        PlannedDepsOk(rest, seeds, nameOf, skipSamples, start);
        LeftUnit(Planned(rest, seeds, nameOf, skipSamples));
      } else {
        var own := SubtaskJobs(subs[0], seeds, nameOf, |seeds|);
        SubtaskJobsLen(subs[0], seeds, nameOf, |seeds|);
        var next := start + |own|;
        PlannedDepsOk(rest, seeds, nameOf, skipSamples, next);
        var later := Planned(rest, seeds, nameOf, skipSamples);
        var ownDeps := SubtaskDeps(start, |seeds|);
        var laterDeps := PlannedDeps(rest, seeds, skipSamples, next);
        SubtaskDepsOk(subs[0], seeds, nameOf, |seeds|, start);
        var deps := ownDeps + laterDeps;
        assert PlannedDeps(subs, seeds, skipSamples, start) == deps;
        assert Planned(subs, seeds, nameOf, skipSamples) == own + later;
        forall i | 0 <= i < |deps|
          ensures DepOk(own + later, start, deps[i])
        {
          if i < |ownDeps| {
            assert deps[i] == ownDeps[i];
            DepOkPrefix(own, later, start, ownDeps[i]);
          } else {
            assert deps[i] == laterDeps[i - |ownDeps|];
            DepOkShift(own, later, start, deps[i]);
          }
        }
      }
    }
  }

  /** Every planned subtask gets a Generate job for each seed. */
  lemma {:induction false} PlannedHasGenerate(subs: seq<string>, seeds: seq<nat>, nameOf: InputNamer, skipSamples: bool, j: nat, k: nat)
    requires j < |subs| && k < |seeds| && !(skipSamples && subs[j] == "0")
    ensures Generate(nameOf(seeds[k], subs[j]), subs[j], seeds[k]) in Planned(subs, seeds, nameOf, skipSamples)
    decreases j
  {
    if j == 0 {
      PlannedHead(subs, seeds, nameOf, skipSamples, k);
    } else {
      assert subs[j] == subs[1..][j - 1];
      PlannedHasGenerate(subs[1..], seeds, nameOf, skipSamples, j - 1, k);
      PlannedTail(subs, seeds, nameOf, skipSamples, Generate(nameOf(seeds[k], subs[j]), subs[j], seeds[k]));
    }
  }

  lemma PlannedHead(subs: seq<string>, seeds: seq<nat>, nameOf: InputNamer, skipSamples: bool, k: nat)
    requires subs != [] && k < |seeds| && !(skipSamples && subs[0] == "0")
    ensures Generate(nameOf(seeds[k], subs[0]), subs[0], seeds[k]) in Planned(subs, seeds, nameOf, skipSamples)
  {
    var own := SubtaskJobs(subs[0], seeds, nameOf, |seeds|);
    SubtaskGenAt(subs[0], seeds, nameOf, |seeds|, k);
    assert Planned(subs, seeds, nameOf, skipSamples) == own + Planned(subs[1..], seeds, nameOf, skipSamples);
  }

  lemma PlannedTail(subs: seq<string>, seeds: seq<nat>, nameOf: InputNamer, skipSamples: bool, job: GenJob)
    requires subs != [] && job in Planned(subs[1..], seeds, nameOf, skipSamples)
    ensures job in Planned(subs, seeds, nameOf, skipSamples)
  {
  }

  /** Without a samples subtask, skipping the samples changes nothing. */
  lemma {:induction false} PlannedWithoutSamples(subs: seq<string>, seeds: seq<nat>, nameOf: InputNamer)
    requires "0" !in subs
    ensures Planned(subs, seeds, nameOf, true) == Planned(subs, seeds, nameOf, false)
    decreases |subs|
  {
    if subs != [] {
      assert "0" !in subs[1..] by {
        assert subs == [subs[0]] + subs[1..];
      }
      PlannedWithoutSamples(subs[1..], seeds, nameOf);
    }
  }

  lemma {:induction false} PlannedDepsWithoutSamples(subs: seq<string>, seeds: seq<nat>, start: nat)
    requires "0" !in subs
    ensures PlannedDeps(subs, seeds, true, start) == PlannedDeps(subs, seeds, false, start)
    decreases |subs|
  {
    if subs != [] {
      assert "0" !in subs[1..] by {
        assert subs == [subs[0]] + subs[1..];
      }
      PlannedDepsWithoutSamples(subs[1..], seeds, start + SubtaskLen(|seeds|));
    }
  }


  /** The seed loop of one subtask, tracking the previous Generate job. */
  method PlanSubtask(sub: string, seeds: seq<nat>, nameOf: InputNamer, block: nat)
    returns (jobs: seq<GenJob>, deps: seq<Dependency>)
    ensures jobs == SubtaskJobs(sub, seeds, nameOf, |seeds|)
    ensures deps == SubtaskDeps(block, |seeds|)
  {
    jobs := [];
    deps := [];
    var lastGen: Option<(nat, GenJob)> := None;
    var i := 0;
    while i < |seeds|
      invariant 0 <= i <= |seeds|
      invariant jobs == SubtaskJobs(sub, seeds, nameOf, i) && |jobs| == SubtaskLen(i)
      invariant deps == SubtaskDeps(block, i)
      invariant i == 0 <==> lastGen.None?
      invariant i > 0 ==> lastGen == Some((block + SubtaskLen(i - 1), Generate(nameOf(seeds[i - 1], sub), sub, seeds[i - 1])))
    {
      var seed := seeds[i];
      var gen := Generate(nameOf(seed, sub), sub, seed);
      var genAt := block + |jobs|;
      jobs := jobs + [gen];
      deps := deps + [Dependency(genAt, 0)];
      if i == 0 {
        jobs := jobs + [Deterministic(gen.inputName, sub, seed)];
        deps := deps + [Dependency(genAt + 1, genAt)];
      } else if i == 1 {
        var (lastAt, last) := lastGen.value;
        jobs := jobs + [RespectsSeed(sub, last.seed, gen.seed, last.inputName, gen.inputName)];
        deps := deps + [Dependency(genAt + 1, lastAt), Dependency(genAt + 1, genAt)];
      }
      lastGen := Some((genAt, gen));
      i := i + 1;
    }
  }

  /** One round of the subtask loop: the jobs of a subtask, none for "0"
      when `skipSamples`. */
  method PlanNext(sub: string, seeds: seq<nat>, nameOf: InputNamer, skipSamples: bool, block: nat)
    returns (jobs: seq<GenJob>, deps: seq<Dependency>)
    ensures jobs == if skipSamples && sub == "0" then [] else SubtaskJobs(sub, seeds, nameOf, |seeds|)
    ensures deps == if skipSamples && sub == "0" then [] else SubtaskDeps(block, |seeds|)
    ensures |jobs| == if skipSamples && sub == "0" then 0 else SubtaskLen(|seeds|)
  {
    if skipSamples && sub == "0" {
      return [], [];
    }
    jobs, deps := PlanSubtask(sub, seeds, nameOf, block);
    SubtaskJobsLen(sub, seeds, nameOf, |seeds|);
  }

  /** The subtask loop; with `skipSamples`, "0" is passed over. */
  method PlanAll(subs: seq<string>, seeds: seq<nat>, nameOf: InputNamer, skipSamples: bool, start: nat)
    returns (jobs: seq<GenJob>, deps: seq<Dependency>)
    ensures jobs == Planned(subs, seeds, nameOf, skipSamples)
    ensures deps == PlannedDeps(subs, seeds, skipSamples, start)
  {
    jobs := [];
    deps := [];
    var next := start;
    var i := 0;
    while i < |subs|
      invariant 0 <= i <= |subs|
      invariant next == start + |jobs|
      invariant jobs + Planned(subs[i..], seeds, nameOf, skipSamples) == Planned(subs, seeds, nameOf, skipSamples)
      invariant deps + PlannedDeps(subs[i..], seeds, skipSamples, next) == PlannedDeps(subs, seeds, skipSamples, start)
    {
      var more, moreDeps := PlanNext(subs[i], seeds, nameOf, skipSamples, next);
      ghost var (i0, next0, jobs0, deps0) := (i, next, jobs, deps);
      jobs := jobs + more;
      deps := deps + moreDeps;
      next := next + |more|;
      i := i + 1;
      PlanJobsStep(subs, i0, i, seeds, nameOf, skipSamples, jobs0, more);
      PlanDepsStep(subs, i0, i, seeds, skipSamples, start, next0, next, deps0, moreDeps);
    }
    assert subs[i..] == [];
    assert jobs + [] == jobs && deps + [] == deps;
  }

  /** One round of the loop keeps its invariant on the jobs. */
  lemma PlanJobsStep(subs: seq<string>, i: nat, j: nat, seeds: seq<nat>, nameOf: InputNamer, skipSamples: bool,
                     jobs: seq<GenJob>, more: seq<GenJob>)
    requires i < |subs| && j == i + 1
    requires jobs + Planned(subs[i..], seeds, nameOf, skipSamples) == Planned(subs, seeds, nameOf, skipSamples)
    requires more == if skipSamples && subs[i] == "0" then [] else SubtaskJobs(subs[i], seeds, nameOf, |seeds|)
    ensures (jobs + more) + Planned(subs[j..], seeds, nameOf, skipSamples) == Planned(subs, seeds, nameOf, skipSamples)
  {
    PlannedFrom(subs, i, j, seeds, nameOf, skipSamples, more);
    Regroup(jobs, more, Planned(subs[j..], seeds, nameOf, skipSamples));
  }

  /** One round of the loop keeps its invariant on the dependencies. */
  lemma PlanDepsStep(subs: seq<string>, i: nat, j: nat, seeds: seq<nat>, skipSamples: bool,
                     start: nat, next: nat, next': nat, deps: seq<Dependency>, moreDeps: seq<Dependency>)
    requires i < |subs| && j == i + 1
    requires deps + PlannedDeps(subs[i..], seeds, skipSamples, next) == PlannedDeps(subs, seeds, skipSamples, start)
    requires moreDeps == if skipSamples && subs[i] == "0" then [] else SubtaskDeps(next, |seeds|)
    requires next' == next + if skipSamples && subs[i] == "0" then 0 else SubtaskLen(|seeds|)
    ensures (deps + moreDeps) + PlannedDeps(subs[j..], seeds, skipSamples, next') == PlannedDeps(subs, seeds, skipSamples, start)
  {
    PlannedDepsFrom(subs, i, j, seeds, skipSamples, next, next', moreDeps);
    Regroup(deps, moreDeps, PlannedDeps(subs[j..], seeds, skipSamples, next'));
  }

  /** Planning from subtask `i` on is planning subtask `i`, then the rest. */
  lemma PlannedFrom(subs: seq<string>, i: nat, j: nat, seeds: seq<nat>, nameOf: InputNamer, skipSamples: bool, more: seq<GenJob>)
    requires i < |subs| && j == i + 1
    requires more == if skipSamples && subs[i] == "0" then [] else SubtaskJobs(subs[i], seeds, nameOf, |seeds|)
    ensures Planned(subs[i..], seeds, nameOf, skipSamples) == more + Planned(subs[j..], seeds, nameOf, skipSamples)
  {
    var s := subs[i..];
    assert s != [] && s[0] == subs[i] && s[1..] == subs[j..];
  }

  /** Its dependencies are those of subtask `i`'s block, which starts at
      `block`, then those of the rest from `block'`, where that block
      ends. */
  lemma PlannedDepsFrom(subs: seq<string>, i: nat, j: nat, seeds: seq<nat>, skipSamples: bool,
                        block: nat, block': nat, moreDeps: seq<Dependency>)
    requires i < |subs| && j == i + 1
    requires moreDeps == if skipSamples && subs[i] == "0" then [] else SubtaskDeps(block, |seeds|)
    requires block' == block + if skipSamples && subs[i] == "0" then 0 else SubtaskLen(|seeds|)
    ensures PlannedDeps(subs[i..], seeds, skipSamples, block) == moreDeps + PlannedDeps(subs[j..], seeds, skipSamples, block')
  {
    var s := subs[i..];
    assert s != [] && s[0] == subs[i] && s[1..] == subs[j..];
    if skipSamples && subs[i] == "0" {
      LeftUnit(PlannedDeps(subs[j..], seeds, skipSamples, block));
    }
  }

  lemma Regroup<T>(a: seq<T>, b: seq<T>, c: seq<T>)
    ensures a + (b + c) == a + b + c
  {
  }

  lemma LeftUnit<T>(a: seq<T>)
    ensures [] + a == a
  {
  }


  class GeneratorManager {
    var jobs: seq<GenJob>
    var dependencies: seq<Dependency>

    constructor()
      ensures jobs == [] && dependencies == []
    {
      jobs := [];
      dependencies := [];
    }

    /** `_get_jobs`, storing what it plans. `seeds` stands for
        `random.sample(range(0, 16**4), inputs)` after `random.seed(4)`.
        The compile comes first; for kasiopea the online jobs of every
        subtask but the samples follow, otherwise one offline generation,
        which waits for nothing. */
    method GetJobs(generator: string, contestType: string, subtasks: seq<string>, seeds: seq<nat>, nameOf: InputNamer)
      modifies this
      ensures |jobs| >= 1 && jobs[0] == CompileGenerator(generator)
      ensures contestType == "kasiopea" ==>
                jobs == [CompileGenerator(generator)] + Planned(subtasks, seeds, nameOf, true)
                && dependencies == PlannedDeps(subtasks, seeds, true, 1)
      ensures AllDepsOk(jobs, 0, dependencies)
      ensures contestType != "kasiopea" ==> jobs == [CompileGenerator(generator), OfflineGenerate(generator)] && dependencies == []
    {
      var compile := CompileGenerator(generator);
      if contestType == "kasiopea" {
        var online, deps := PlanAll(subtasks, seeds, nameOf, true, 1);
        jobs := [compile] + online;
        dependencies := deps;
        PlannedDepsOk(subtasks, seeds, nameOf, true, 1);
        forall i | 0 <= i < |deps|
          ensures DepOk(jobs, 0, deps[i])
        {
          DepOkShift([compile], online, 0, deps[i]);
        }
      } else {
        jobs := [compile, OfflineGenerate(generator)];
        dependencies := [];
      }
    }
  }

  // ---------------------------------------------------------------------------
  // Running the online generator

  /** How `_gen` ended. */
  datatype GenOutcome =
    | NotLoaded
    | NegativeSeed(seed: int)
    | NoResult
    | GeneratorFailed(kind: RR.RunResultKind)
    | Generated

  /** The generator's arguments: the subtask and the seed in lower-case
      hexadecimal. */
  function GenArgs(subtask: string, seed: nat): seq<string>
  {
    [subtask, Hex(seed)]
  }

  /** The arguments carry the subtask and a seed that reads back in base 16. */
  lemma GenArgsDecode(subtask: string, seed: nat)
    ensures |GenArgs(subtask, seed)| == 2 && GenArgs(subtask, seed)[0] == subtask
    ensures ParseDigits(GenArgs(subtask, seed)[1], 16) == Some(seed)
  {
    ParseDigitsOfDigits(seed, 16);
  }

  /** `OnlineGeneratorJob._gen` writing to `output`. `run` gives the result
      of running the generator with some arguments and standard output,
      `None` when it could not be run. A negative seed fails before the
      generator runs. */
  function Gen(loaded: bool, output: string, seed: int, subtask: string,
               run: (seq<string>, string) -> Option<RR.RunResultKind>): (r: GenOutcome)
    ensures r == NotLoaded <==> !loaded
    ensures r.NegativeSeed? <==> loaded && seed < 0
    ensures loaded && seed >= 0 ==>
              (r == Generated <==> run(GenArgs(subtask, seed), output) == Some(RR.Ok))
              && (r == NoResult <==> run(GenArgs(subtask, seed), output).None?)
  {
    if !loaded then NotLoaded
    else if seed < 0 then NegativeSeed(seed)
    else match run(GenArgs(subtask, seed), output)
      case None => NoResult
      case Some(kind) => if kind != RR.Ok then GeneratorFailed(kind) else Generated
  }

  /** The file the Deterministic check regenerates into: every ".in" of
      the input's path replaced by ".copy". */
  function CopyFile(inputFile: string): string
  {
    ReplaceAll(inputFile, ".in", ".copy")
  }

  /** For a path whose only ".in" is its suffix, the copy just swaps the
      suffix. */
  lemma {:induction false} CopyFileOfInput(p: string)
    requires !Contains(p, ".in")
    ensures CopyFile(p + ".in") == p + ".copy"
    decreases |p|
  {
    var s := p + ".in";
    if p == [] {
      assert s[..3] == ".in" && s[3..] == [];
    } else {
      assert s[..3] != ".in" by {
        if |p| >= 3 {
          assert s[..3] == p[..3];
        } else if |p| == 2 {
          assert s[2] == '.';
        } else {
          assert s[1] == '.';
        }
      }
      assert s[1..] == p[1..] + ".in";
      CopyFileOfInput(p[1..]);
    }
  }

  datatype CheckOutcome = Stopped(gen: GenOutcome) | CheckFailed | CheckPassed

  /** `OnlineGeneratorDeterministic._run`: regenerate into the copy and
      fail exactly when the generation worked but the two files differ. */
  function DeterministicRun(copyGen: GenOutcome, filesEqual: bool): (r: CheckOutcome)
    ensures r.Stopped? <==> copyGen != Generated
    ensures r == CheckFailed <==> copyGen == Generated && !filesEqual
  {
    if copyGen != Generated then Stopped(copyGen)
    else if !filesEqual then CheckFailed
    else CheckPassed
  }

  /** `OnlineGeneratorRespectsSeed._run`: two seeds must give different
      files. */
  function RespectsSeedRun(filesEqual: bool): (r: CheckOutcome)
    ensures r == CheckFailed <==> filesEqual
    ensures r != CheckFailed ==> r == CheckPassed
  {
    if filesEqual then CheckFailed else CheckPassed
  }

  // ---------------------------------------------------------------------------
  // Running the offline generator

  datatype OfflineOutcome =
    | OfflineNotLoaded
    | OfflineNoResult
    | OfflineFailed(kind: RR.RunResultKind)
    | NoInputsFor(subtask: string)
    | NoInputs
    | OfflineGenerated

  /** The old inputs deleted before the generator runs: all but the
      samples'. */
  function InputsToClear(allInputs: seq<string>, samples: seq<string>): (r: seq<string>)
    ensures forall i :: 0 <= i < |r| ==> r[i] in allInputs && r[i] !in samples
    ensures forall i :: 0 <= i < |allInputs| && allInputs[i] !in samples ==> allInputs[i] in r
  {
    Filter(allInputs, (x: string) => x !in samples)
  }

  /** A file name the pattern `*.in` matches: it ends in ".in" and, as
      `glob` skips hidden files, does not start with a dot. */
  predicate GlobIn(name: string)
  {
    EndsWith(name, ".in") && name[0] != '.'
  }

  /** The first subtask other than the samples whose input list is empty. */
  function FirstEmptySubtask(subtaskInputs: seq<(string, seq<string>)>): (r: Option<string>)
    ensures r.None? <==> forall i :: 0 <= i < |subtaskInputs| && subtaskInputs[i].0 != "0" ==> subtaskInputs[i].1 != []
    ensures r.Some? ==> exists i :: 0 <= i < |subtaskInputs| && subtaskInputs[i] == (r.value, []) && r.value != "0"
                                    && forall j :: 0 <= j < i && subtaskInputs[j].0 != "0" ==> subtaskInputs[j].1 != []
  {
    if subtaskInputs == [] then None
    else if subtaskInputs[0].0 != "0" && subtaskInputs[0].1 == [] then Some(subtaskInputs[0].0)
    else
      var r := FirstEmptySubtask(subtaskInputs[1..]);
      assert forall i :: 1 <= i < |subtaskInputs| ==> subtaskInputs[i] == subtaskInputs[1..][i - 1];
      r
  }

  /** `OfflineGeneratorGenerate._gen` after the old inputs are cleared:
      the generator must end OK, every subtask but the samples must then
      have inputs (`subtaskInputs`, in configuration order), and the data
      directory (`dataFiles`) must hold some `*.in`. */
  function OfflineGen(loaded: bool, result: Option<RR.RunResultKind>, subtaskInputs: seq<(string, seq<string>)>,
                      dataFiles: seq<string>): (r: OfflineOutcome)
    ensures r == OfflineGenerated <==>
              loaded && result == Some(RR.Ok) && FirstEmptySubtask(subtaskInputs).None?
              && exists i :: 0 <= i < |dataFiles| && GlobIn(dataFiles[i])
    ensures r.NoInputsFor? ==> loaded && result == Some(RR.Ok) && FirstEmptySubtask(subtaskInputs) == Some(r.subtask)
    ensures r == NoInputs <==>
              loaded && result == Some(RR.Ok) && FirstEmptySubtask(subtaskInputs).None?
              && forall i :: 0 <= i < |dataFiles| ==> !GlobIn(dataFiles[i])
  {
    if !loaded then OfflineNotLoaded
    else match result
      case None => OfflineNoResult
      case Some(kind) =>
        if kind != RR.Ok then OfflineFailed(kind)
        else match FirstEmptySubtask(subtaskInputs)
          case Some(sub) => NoInputsFor(sub)
          case None => if exists i :: 0 <= i < |dataFiles| && GlobIn(dataFiles[i]) then OfflineGenerated else NoInputs
  }
}
