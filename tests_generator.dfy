/** The online generator manager of the newer test-job API
    (`pisek/tests/parts/generator.py`). It plans the same jobs as the
    kasiopea branch of the older manager, except that the samples subtask
    is not skipped. A job records its failures and carries on; the
    generator reports success as a boolean. */
module TestsGeneratorModel {
  import PG = PartsGeneratorModel

  /** A failure a generator job records. */
  datatype Failure =
    | GenerationFailed(inputFile: string, subtask: string, seed: nat)
    | NotDeterministic(inputFile: string, copyFile: string)
    | SeedIgnored(file1: string, file2: string)

  class OnlineGeneratorManager {
    var jobs: seq<PG.GenJob>
    var dependencies: seq<PG.Dependency>

    constructor()
      ensures jobs == [] && dependencies == []
    {
      jobs := [];
      dependencies := [];
    }

    /** `_get_jobs`: the compile, then for every subtask, samples included,
        a Generate job per seed with the Deterministic check after the
        first and the RespectsSeed check after the second. */
    method GetJobs(generator: string, subtasks: seq<string>, seeds: seq<nat>, nameOf: PG.InputNamer)
      modifies this
      ensures jobs == [PG.CompileGenerator(generator)] + PG.Planned(subtasks, seeds, nameOf, false)
      ensures dependencies == PG.PlannedDeps(subtasks, seeds, false, 1)
      ensures PG.AllDepsOk(jobs, 0, dependencies)
    {
      var compile := PG.CompileGenerator(generator);
      var online, deps := PG.PlanAll(subtasks, seeds, nameOf, false, 1);
      jobs := [compile] + online;
      dependencies := deps;
      PG.PlannedDepsOk(subtasks, seeds, nameOf, false, 1);
      forall i | 0 <= i < |deps|
        ensures PG.DepOk(jobs, 0, deps[i])
      {
        PG.DepOkShift([compile], online, 0, deps[i]);
      }
    }

    /** `_get_status`: no status line, whatever the jobs' state. */
    function Status(): (r: string)
      reads this
      ensures |r| == 0
    {
      ""
    }
  }

  /** `GeneratorJob._gen` (used by OnlineGeneratorGenerate): one failure
      exactly when the generator reports no success. */
  function GenRun(generated: bool, inputFile: string, subtask: string, seed: nat): (r: seq<Failure>)
    ensures r == [] <==> generated
    ensures r != [] ==> r == [GenerationFailed(inputFile, subtask, seed)]
  {
    if generated then [] else [GenerationFailed(inputFile, subtask, seed)]
  }

  /** `OnlineGeneratorDeterministic._run`: regenerate into `copyFile`;
      a failed generation is recorded and the files are compared anyway. */
  function DeterministicRun(generated: bool, filesEqual: bool, inputFile: string, copyFile: string,
                            subtask: string, seed: nat): (r: seq<Failure>)
    ensures GenerationFailed(copyFile, subtask, seed) in r <==> !generated
    ensures NotDeterministic(inputFile, copyFile) in r <==> !filesEqual
    ensures |r| == (if generated then 0 else 1) + (if filesEqual then 0 else 1)
  {
    GenRun(generated, copyFile, subtask, seed)
    + if filesEqual then [] else [NotDeterministic(inputFile, copyFile)]
  }

  /** `OnlineGeneratorRespectsSeed._run`: fails exactly when the files of
      the two seeds are equal. */
  function RespectsSeedRun(filesEqual: bool, file1: string, file2: string): (r: seq<Failure>)
    ensures r != [] <==> filesEqual
    ensures forall f :: f in r ==> f == SeedIgnored(file1, file2)
  {
    if filesEqual then [SeedIgnored(file1, file2)] else []
  }

  /** Both managers plan the same online jobs when there is no samples
      subtask to skip. */
  lemma SameAsKasiopeaPlan(generator: string, subtasks: seq<string>, seeds: seq<nat>, nameOf: PG.InputNamer)
    requires "0" !in subtasks
    ensures [PG.CompileGenerator(generator)] + PG.Planned(subtasks, seeds, nameOf, false)
            == [PG.CompileGenerator(generator)] + PG.Planned(subtasks, seeds, nameOf, true)
    ensures PG.PlannedDeps(subtasks, seeds, false, 1) == PG.PlannedDeps(subtasks, seeds, true, 1)
  {
    PG.PlannedWithoutSamples(subtasks, seeds, nameOf);
    PG.PlannedDepsWithoutSamples(subtasks, seeds, 1);
  }
}
