/** The common part of the jobs that judge one solution output
    (`pisek/task_jobs/checker/checker_base.py`): turning the solution's run
    into a result, checking it against an expected verdict, and the texts
    and marks shown for the result. */
module CheckerBase {
  import opened Common
  import opened Text
  import RR = RunResults
  import JP = JobPipelineModel

  datatype Verdict = Ok | PartialOk | WrongAnswer | NormalizationFail | Error | Timeout

  /** A judging result; relative results carry points in `[0, 1]` of the
      test's points, absolute results the points themselves. */
  datatype SolutionResult =
    | Relative(verdict: Verdict, message: Option<string>, solutionRr: RR.RunResult, judgeRr: Option<RR.RunResult>,
               relativePoints: real)
    | Absolute(verdict: Verdict, message: Option<string>, solutionRr: RR.RunResult, judgeRr: Option<RR.RunResult>,
               absolutePoints: real)

  /** The PipelineItemFailure of a result that is not the expected one. */
  datatype Failure = UnexpectedVerdict(message: string, expected: Verdict, got: Verdict)

  // ---------------------------------------------------------------------------
  // Judging

  /** `_judging_message_capitalized`: the first character upper-cased,
      the rest unchanged. */
  function Capitalized(msg: string): (r: string)
    requires msg != []
    ensures |r| == |msg| && r[0] == UpperChar(msg[0]) && r[1..] == msg[1..]
    ensures 'a' <= msg[0] <= 'z' ==> 'A' <= r[0] <= 'Z'
    ensures !('a' <= msg[0] <= 'z') ==> r == msg
  {
    [UpperChar(msg[0])] + msg[1..]
  }

  /** The result `_run` settles on before the expected-verdict check: the
      judge's result for a solution that ran fine, and no points with
      verdict error or timeout otherwise. */
  function Settle(solutionRr: RR.RunResult, judged: SolutionResult): (r: SolutionResult)
    ensures solutionRr.kind == RR.Ok ==> r == judged
    ensures solutionRr.kind == RR.RuntimeError ==> r == Relative(Error, None, solutionRr, None, 0.0)
    ensures solutionRr.kind == RR.Timeout ==> r == Relative(Timeout, None, solutionRr, None, 0.0)
  {
    match solutionRr.kind
    case Ok => judged
    case RuntimeError => Relative(Error, None, solutionRr, None, 0.0)
    case Timeout => Relative(Timeout, None, solutionRr, None, 0.0)
  }

  /** A solution that did not run to the end gets no points, whatever the
      judge would have said. */
  lemma FailedRunScoresNothing(solutionRr: RR.RunResult, judged: SolutionResult)
    requires solutionRr.kind != RR.Ok
    ensures Settle(solutionRr, judged).Relative? && Settle(solutionRr, judged).relativePoints == 0.0
    ensures Settle(solutionRr, judged).verdict != Verdict.Ok && Settle(solutionRr, judged).verdict != PartialOk
    ensures Settle(solutionRr, judged).judgeRr.None?
  {
  }

  /** The outcome of `_run`: the settled result, unless an expected
      verdict is set and differs from it. */
  function RunOutcome(solutionRr: RR.RunResult, judged: SolutionResult, expected: Option<Verdict>, judgingMessage: string)
    : (r: Result<SolutionResult, Failure>)
    requires judgingMessage != []
    ensures r.Ok? <==> expected.None? || expected.value == Settle(solutionRr, judged).verdict
    ensures r.Ok? ==> r.value == Settle(solutionRr, judged)
    ensures r.Err? ==> r.error.got == Settle(solutionRr, judged).verdict && r.error.expected == expected.value
  {
    var result := Settle(solutionRr, judged);
    if expected.Some? && result.verdict != expected.value then
      Err(UnexpectedVerdict(Capitalized(judgingMessage), expected.value, result.verdict))
    else Result.Ok(result)
  }

  /** A synthetic run of a solution that finished at once, as written:
      the constructor is called without `memory`, which it requires. */
  function SyntheticRunAsWritten(): Result<RR.RunResult, RR.TypeError>
  {
    RR.NewRunResult(RR.Ok, 0, 0.0, 0.0, None)
  }

  /** The synthetic run cannot be built as written. */
  lemma SyntheticRunFails()
    ensures SyntheticRunAsWritten() == Err(RR.MissingArgument("memory"))
  {
  }

  /** The synthetic run as intended: OK, return code 0, no time, no
      memory. */
  function SyntheticRun(): (r: RR.RunResult)
    ensures r.kind == RR.Ok && r.returncode == 0 && r.time == 0.0 && r.wallTime == 0.0
    ensures RR.NewRunResult(RR.Ok, 0, 0.0, 0.0, Some(0)) == Result.Ok(r)
  {
    RR.RunResult(RR.Ok, 0, 0.0, 0.0, 0, None)
  }

  /** `RunBatchChecker._get_solution_run_res`: the result of prerequisite
      `run_solution`, or the synthetic run when judging samples without a
      solution. */
  function BatchSolutionRunRes(prerequisitesResults: map<string, RR.RunResult>): (r: RR.RunResult)
    ensures "run_solution" in prerequisitesResults ==> r == prerequisitesResults["run_solution"]
    ensures "run_solution" !in prerequisitesResults ==> r == SyntheticRun()
  {
    if "run_solution" in prerequisitesResults then prerequisitesResults["run_solution"] else SyntheticRun()
  }

  // ---------------------------------------------------------------------------
  // Texts and marks

  /** What `verdict_text` shows: the result's message, its verdict's name,
      or the job state's name. */
  datatype VerdictText = MessageText(message: string) | VerdictName(verdict: Verdict) | StateName(state: JP.State)

  function VerdictTextOf(result: Option<SolutionResult>, state: JP.State): (r: VerdictText)
    ensures result.None? ==> r == StateName(state)
    ensures result.Some? && result.value.message.Some? ==> r == MessageText(result.value.message.value)
    ensures result.Some? && result.value.message.None? ==> r == VerdictName(result.value.verdict)
  {
    match result
    case None => StateName(state)
    case Some(res) => if res.message.Some? then MessageText(res.message.value) else VerdictName(res.verdict)
  }

  /** What `verdict_mark` shows: `-`, a blank, the relative points to two
      places, the absolute points to the configured precision, or the
      verdict's own mark. */
  datatype Mark = CancelledMark | BlankMark | RelativeMark(points: real) | AbsoluteMark(points: real, precision: nat)
                | VerdictMark(verdict: Verdict)

  function VerdictMarkOf(state: JP.State, result: Option<SolutionResult>, precision: nat): (r: Mark)
    ensures state == JP.Canceled <==> r == CancelledMark
    ensures r == BlankMark <==> state != JP.Canceled && result.None?
    ensures r.RelativeMark? <==> state != JP.Canceled && result.Some? && result.value.verdict == PartialOk && result.value.Relative?
    ensures r.AbsoluteMark? <==> state != JP.Canceled && result.Some? && result.value.verdict == PartialOk && result.value.Absolute?
    ensures r.RelativeMark? ==> r.points == result.value.relativePoints
    ensures r.AbsoluteMark? ==> r.points == result.value.absolutePoints && r.precision == precision
    ensures r.VerdictMark? ==> r.verdict == result.value.verdict && r.verdict != PartialOk
  {
    if state == JP.Canceled then CancelledMark
    else if result.None? then BlankMark
    else if result.value.verdict == PartialOk then
      match result.value
      case Relative(_, _, _, _, p) => RelativeMark(p)
      case Absolute(_, _, _, _, p) => AbsoluteMark(p, precision)
    else VerdictMark(result.value.verdict)
  }

  /** `message`: what its text reports, section by section. */
  datatype MessageOutline = MessageOutline(
    correctOutputShown: bool,
    verdict: Verdict,
    solutionStatusShown: bool,
    solutionStderrForced: bool,
    judgeShown: bool,
    judgeStatusShown: bool)

  /** The RuntimeError of asking for the message of an unfinished job. */
  datatype NotFinished = NotFinished(job: string)

  // ---------------------------------------------------------------------------
  // The job

  /** A judging job. `isBatch` tells a `RunBatchChecker`; `loads` counts
      how often the solution's run result was fetched. */
  class RunChecker {
    const name: string
    const test: int
    const expectedVerdict: Option<Verdict>
    const isBatch: bool
    var state: JP.State
    var result: Option<SolutionResult>
    var solutionRunRes: Option<RR.RunResult>
    ghost var loads: nat

    ghost predicate Valid()
      reads this
    {
      loads == if solutionRunRes.Some? then 1 else 0
    }

    constructor(name: string, test: int, expectedVerdict: Option<Verdict>, isBatch: bool)
      ensures Valid()
      ensures this.name == name && this.test == test && this.expectedVerdict == expectedVerdict && this.isBatch == isBatch
      ensures state == JP.Pending && result.None? && solutionRunRes.None?
    {
      this.name := name;
      this.test := test;
      this.expectedVerdict := expectedVerdict;
      this.isBatch := isBatch;
      state := JP.Pending;
      result := None;
      solutionRunRes := None;
      loads := 0;
    }

    /** `_load_solution_run_res`: cached, so the run result is fetched at
        most once and later calls keep the first one. */
    method LoadSolutionRunRes(fetched: RR.RunResult)
      requires Valid()
      modifies this
      ensures Valid() && loads <= 1
      ensures solutionRunRes == if old(solutionRunRes).None? then Some(fetched) else old(solutionRunRes)
      ensures state == old(state) && result == old(result)
    {
      if solutionRunRes.None? {
        solutionRunRes := Some(fetched);
        loads := loads + 1;
      }
    }

    /** `_run`. `fetched` is what `_get_solution_run_res` would return,
        `judged` what `_judge` would return. */
    method Run(fetched: RR.RunResult, judged: SolutionResult, judgingMessage: string)
      returns (r: Result<SolutionResult, Failure>)
      requires Valid() && judgingMessage != []
      modifies this
      ensures Valid() && loads <= 1
      ensures solutionRunRes == if old(solutionRunRes).None? then Some(fetched) else old(solutionRunRes)
      ensures r == RunOutcome(solutionRunRes.value, judged, expectedVerdict, judgingMessage)
    {
      LoadSolutionRunRes(fetched);
      var rr := solutionRunRes.value;
      var res: SolutionResult;
      if rr.kind == RR.Ok {
        res := judged;
      } else if rr.kind == RR.RuntimeError {
        res := Relative(Error, None, rr, None, 0.0);
      } else {
        res := Relative(Timeout, None, rr, None, 0.0);
      }
      if expectedVerdict.Some? && res.verdict != expectedVerdict.value {
        return Err(UnexpectedVerdict(Capitalized(judgingMessage), expectedVerdict.value, res.verdict));
      }
      return Result.Ok(res);
    }

    /** `message`: fails for an unfinished job; otherwise the solution's
        status is shown when it did not end OK, its standard error is
        forced for a runtime error, and the judge's run is shown when there
        was one, with its status when it kept no standard error. */
    function Message(): (r: Result<MessageOutline, NotFinished>)
      reads this
      ensures r.Err? <==> result.None?
      ensures r.Err? ==> r.error == NotFinished(name)
      ensures r.Ok? ==> r.value.correctOutputShown == isBatch && r.value.verdict == result.value.verdict
      ensures r.Ok? ==> (r.value.solutionStatusShown <==> result.value.solutionRr.kind != RR.Ok)
      ensures r.Ok? ==> (r.value.solutionStderrForced <==> result.value.solutionRr.kind == RR.RuntimeError)
      ensures r.Ok? ==> (r.value.judgeShown <==> result.value.judgeRr.Some?)
      ensures r.Ok? ==> (r.value.judgeStatusShown <==> result.value.judgeRr.Some? && result.value.judgeRr.value.stderrFile.None?)
    {
      match result
      case None => Err(NotFinished(name))
      case Some(res) =>
        Result.Ok(MessageOutline(
          isBatch,
          res.verdict,
          res.solutionRr.kind != RR.Ok,
          res.solutionRr.kind == RR.RuntimeError,
          res.judgeRr.Some?,
          res.judgeRr.Some? && res.judgeRr.value.stderrFile.None?))
    }

    function VerdictText(): VerdictText
      reads this
    {
      VerdictTextOf(result, state)
    }

    function VerdictMark(precision: nat): Mark
      reads this
    {
      VerdictMarkOf(state, result, precision)
    }
  }

  /** `rel_to_abs_points`: the test's points scaled by the relative
      points; `full_points` is the value at 1. */
  function RelToAbsPoints(testPoints: real, relPoints: real): (r: real)
    ensures relPoints == 1.0 ==> r == testPoints
    ensures relPoints == 0.0 ==> r == 0.0
  {
    testPoints * relPoints
  }
}
