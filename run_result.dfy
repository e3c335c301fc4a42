/** How a program run ended (`pisek/task_jobs/run_result.py`). A program
    that finished but printed a wrong answer still ends `Ok`. */
module RunResults {
  import opened Common

  datatype RunResultKind = Ok | RuntimeError | Timeout

  /** The fields the judging code inspects; `stderrFile` is `None` when
      the run kept no standard error file. */
  datatype RunResult = RunResult(kind: RunResultKind, returncode: int, time: real, wallTime: real, memory: int,
                                 stderrFile: Option<string>)

  /** Calling the `RunResult` constructor with the required fields `kind`,
      `returncode`, `time`, `wall_time` and `memory` given or left out:
      a missing one is a `TypeError` naming it. */
  datatype TypeError = MissingArgument(name: string)

  function NewRunResult(kind: RunResultKind, returncode: int, time: real, wallTime: real, memory: Option<int>)
    : (r: Result<RunResult, TypeError>)
    ensures r.Ok? <==> memory.Some?
    ensures r.Ok? ==> r.value.kind == kind && r.value.returncode == returncode && r.value.memory == memory.value
    ensures r.Ok? ==> r.value.time == time && r.value.wallTime == wallTime && r.value.stderrFile.None?
    ensures r.Err? ==> r.error == MissingArgument("memory")
  {
    match memory
    case None => Err(MissingArgument("memory"))
    case Some(m) => Result.Ok(RunResult(kind, returncode, time, wallTime, m, None))
  }
}
