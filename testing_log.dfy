/** The testing log (`pisek/task_jobs/testing_log.py`): after the solutions
    have been judged, the results of every tested solution on every input
    are gathered into one record, which is written out as JSON. */
module TestingLogModel {
  import opened Common
  import opened Text

  /** How a solution did on one input; the points are kept in their
      decimal text form. */
  datatype SolutionResult =
    | RelativeResult(verdict: string, relativePoints: string)
    | AbsoluteResult(verdict: string, absolutePoints: string)
    | OtherResult(verdict: string)

  datatype Detail = Detail(time: real, wallTime: real, result: SolutionResult)

  /** A prerequisite's results: per input name, its detail, or `None` when
      the input was not tested. */
  type Results = seq<(string, Option<Detail>)>

  datatype Prereq = Prereq(name: string, results: Results)

  datatype Points = RelativePoints(text: string) | AbsolutePoints(text: string)

  /** The record of one input. */
  datatype InputLog = InputLog(time: real, wallClockTime: real, result: string, points: Points)

  datatype LogError = UnknownSolutionResult | NoSolutionTested

  /** The constant `source` key the log starts with. */
  const LogSource := "pisek"

  datatype TestingLog = TestingLog(
    source: string,
    solutions: map<string, map<string, InputLog>>,
    warnNotAllSolutions: bool,
    warnSkippedInputs: bool)

  /** The record of a judged input; `None` for a result of neither kind. */
  function Entry(d: Detail): (r: Option<InputLog>)
    ensures r.None? <==> d.result.OtherResult?
    ensures r.Some? ==> r.value.time == d.time && r.value.wallClockTime == d.wallTime && r.value.result == d.result.verdict
    ensures d.result.RelativeResult? ==> r.value.points == RelativePoints(d.result.relativePoints)
    ensures d.result.AbsoluteResult? ==> r.value.points == AbsolutePoints(d.result.absolutePoints)
  {
    match d.result
    case RelativeResult(v, p) => Some(InputLog(d.time, d.wallTime, v, RelativePoints(p)))
    case AbsoluteResult(v, p) => Some(InputLog(d.time, d.wallTime, v, AbsolutePoints(p)))
    case OtherResult(_) => None
  }

  /** A prerequisite is logged when it is a solution's and some input of
      it was tested. */
  predicate Logged(p: Prereq, prefix: string)
  {
    StartsWith(p.name, prefix) && exists j :: 0 <= j < |p.results| && p.results[j].1.Some?
  }

  predicate SkippedAny(rs: Results)
  {
    exists j :: 0 <= j < |rs| && rs[j].1.None?
  }

  predicate UnknownAt(rs: Results, j: int)
  {
    0 <= j < |rs| && rs[j].1.Some? && rs[j].1.value.result.OtherResult?
  }

  /** The records of one solution's inputs, in input order. */
  function InputsLog(rs: Results): Result<map<string, InputLog>, LogError>
  {
    if rs == [] then Result.Ok(map[])
    else match InputsLog(rs[..|rs| - 1])
      case Err(e) => Err(e)
      case Ok(m) =>
        var (name, detail) := rs[|rs| - 1];
        if detail.None? then Result.Ok(m)
        else match Entry(detail.value)
          case None => Err(UnknownSolutionResult)
          case Some(e) => Result.Ok(m[name := e])
  }

  /** The log and the skipped flag after the prerequisites `ps`. */
  function LogSoFar(ps: seq<Prereq>, prefix: string): Result<(map<string, map<string, InputLog>>, bool), LogError>
  {
    if ps == [] then Result.Ok((map[], false))
    else match LogSoFar(ps[..|ps| - 1], prefix)
      case Err(e) => Err(e)
      case Ok((log, skipped)) =>
        var p := ps[|ps| - 1];
        if !Logged(p, prefix) then Result.Ok((log, skipped))
        else match InputsLog(p.results)
          case Err(e) => Err(e)
          case Ok(m) => Result.Ok((log[p.name[|prefix|..] := m], skipped || SkippedAny(p.results)))
  }

  /** The end of `_evaluate`: no tested solution is a failure; fewer
      tested solutions than configured only a warning. */
  function Finish(r: Result<(map<string, map<string, InputLog>>, bool), LogError>, configured: nat): Result<TestingLog, LogError>
  {
    match r
    case Err(e) => Err(e)
    case Ok((log, skipped)) =>
      if |log.Keys| == 0 then Err(NoSolutionTested)
      else Result.Ok(TestingLog(LogSource, log, |log.Keys| < configured, skipped))
  }

  // ---------------------------------------------------------------------------
  // What the log holds

  /** One solution's records fail exactly when some judged input has a
      result of neither kind. */
  lemma {:induction false} InputsLogErr(rs: Results)
    ensures InputsLog(rs).Err? <==> exists j :: UnknownAt(rs, j)
    ensures InputsLog(rs).Err? ==> InputsLog(rs).error == UnknownSolutionResult
  {
    if rs != [] {
      var init := rs[..|rs| - 1];
      InputsLogErr(init);
      assert forall j :: 0 <= j < |init| ==> init[j] == rs[j];
      if InputsLog(init).Err? {
        var j :| UnknownAt(init, j);
        assert UnknownAt(rs, j);
      } else if UnknownAt(rs, |rs| - 1) {
        assert InputsLog(rs).Err?;
      } else if exists j :: UnknownAt(rs, j) {
        var j :| UnknownAt(rs, j);
        assert UnknownAt(init, j);
      }
    }
  }

  /** Every judged input has a record, holding its last judged detail, and
      nothing else has one. */
  lemma {:induction false} InputsLogEntries(rs: Results)
    requires InputsLog(rs).Ok?
    ensures forall name :: name in InputsLog(rs).value <==> exists j :: 0 <= j < |rs| && rs[j].0 == name && rs[j].1.Some?
    ensures forall j :: 0 <= j < |rs| && rs[j].1.Some? && (forall k :: j < k < |rs| ==> rs[k].0 != rs[j].0) ==>
              Entry(rs[j].1.value) == Some(InputsLog(rs).value[rs[j].0])
  {
    if rs != [] {
      var init := rs[..|rs| - 1];
      InputsLogEntries(init);
      assert forall j :: 0 <= j < |init| ==> init[j] == rs[j];
      forall name | exists j :: 0 <= j < |rs| && rs[j].0 == name && rs[j].1.Some?
        ensures name in InputsLog(rs).value
      {
        var j :| 0 <= j < |rs| && rs[j].0 == name && rs[j].1.Some?;
        if j < |init| {
          assert init[j] == rs[j];
        }
      }
      forall j | 0 <= j < |init| && init[j].1.Some? && (forall k :: j < k < |rs| ==> rs[k].0 != rs[j].0)
        ensures Entry(rs[j].1.value) == Some(InputsLog(rs).value[rs[j].0])
      {
        assert init[j] == rs[j];
        assert forall k :: j < k < |init| ==> init[k] == rs[k];
      }
    }
  }

  /** Once the records fail, the rest of the inputs do not matter. */
  lemma {:induction false} InputsLogErrStays(rs: Results, j: nat)
    requires j <= |rs| && InputsLog(rs[..j]).Err?
    ensures InputsLog(rs) == InputsLog(rs[..j])
    decreases |rs| - j
  {
    if j < |rs| {
      assert rs[..|rs| - 1][..j] == rs[..j];
      InputsLogErrStays(rs[..|rs| - 1], j);
    } else {
      assert rs[..j] == rs;
    }
  }

  /** The name a prerequisite logs its solution under. */
  function SolutionName(p: Prereq, prefix: string): string
    requires StartsWith(p.name, prefix)
  {
    p.name[|prefix|..]
  }

  lemma SolutionNameSpec(p: Prereq, prefix: string, s: string)
    requires StartsWith(p.name, prefix)
    ensures SolutionName(p, prefix) == s <==> p.name == prefix + s
  {
    assert p.name == prefix + p.name[|prefix|..];
  }

  /** Logging fails with an unknown result exactly when a logged solution
      has an input with a result of neither kind. */
  lemma {:induction false} LogSoFarErr(ps: seq<Prereq>, prefix: string)
    ensures LogSoFar(ps, prefix).Err? <==> exists i :: 0 <= i < |ps| && Logged(ps[i], prefix) && InputsLog(ps[i].results).Err?
    ensures LogSoFar(ps, prefix).Err? ==> LogSoFar(ps, prefix).error == UnknownSolutionResult
  {
    if ps != [] {
      var init := ps[..|ps| - 1];
      LogSoFarErr(init, prefix);
      InputsLogErr(ps[|ps| - 1].results);
      assert forall i :: 0 <= i < |init| ==> init[i] == ps[i];
    }
  }

  /** A solution is in the log exactly when a logged prerequisite is its;
      the inputs skipped are flagged exactly when a logged one skipped some. */
  lemma {:induction false} LogSoFarKeys(ps: seq<Prereq>, prefix: string)
    requires LogSoFar(ps, prefix).Ok?
    ensures forall s :: s in LogSoFar(ps, prefix).value.0 <==>
              exists i :: 0 <= i < |ps| && Logged(ps[i], prefix) && ps[i].name == prefix + s
    ensures LogSoFar(ps, prefix).value.1 <==>
              exists i :: 0 <= i < |ps| && Logged(ps[i], prefix) && SkippedAny(ps[i].results)
  {
    if ps != [] {
      var init := ps[..|ps| - 1];
      var p := ps[|ps| - 1];
      LogSoFarKeys(init, prefix);
      assert forall i :: 0 <= i < |init| ==> init[i] == ps[i];
      if Logged(p, prefix) {
        forall s
          ensures s == SolutionName(p, prefix) <==> p.name == prefix + s
        {
          SolutionNameSpec(p, prefix, s);
        }
      }
    }
  }

  /** A solution's record is the records of the last prerequisite logged
      under its name. */
  lemma {:induction false} LogSoFarValues(ps: seq<Prereq>, prefix: string, i: nat)
    requires LogSoFar(ps, prefix).Ok?
    requires i < |ps| && Logged(ps[i], prefix)
    requires forall k :: i < k < |ps| ==> ps[k].name != ps[i].name
    ensures InputsLog(ps[i].results).Ok?
    ensures SolutionName(ps[i], prefix) in LogSoFar(ps, prefix).value.0
    ensures LogSoFar(ps, prefix).value.0[SolutionName(ps[i], prefix)] == InputsLog(ps[i].results).value
  {
    var init := ps[..|ps| - 1];
    var p := ps[|ps| - 1];
    if i < |init| {
      assert init[i] == ps[i];
      assert forall k :: i < k < |init| ==> init[k] == ps[k];
      LogSoFarValues(init, prefix, i);
      if Logged(p, prefix) {
        SolutionNameSpec(ps[i], prefix, SolutionName(p, prefix));
        SolutionNameSpec(p, prefix, SolutionName(p, prefix));
      }
    }
  }

  lemma {:induction false} LogSoFarErrStays(ps: seq<Prereq>, prefix: string, i: nat)
    requires i <= |ps| && LogSoFar(ps[..i], prefix).Err?
    ensures LogSoFar(ps, prefix) == LogSoFar(ps[..i], prefix)
    decreases |ps| - i
  {
    if i < |ps| {
      assert ps[..|ps| - 1][..i] == ps[..i];
      LogSoFarErrStays(ps[..|ps| - 1], prefix, i);
    } else {
      assert ps[..i] == ps;
    }
  }

  // ---------------------------------------------------------------------------
  // The manager

  /** The inner loop of `_evaluate`: the records of one solution's inputs
      and whether it skipped any. */
  method LogInputs(rs: Results) returns (r: Result<map<string, InputLog>, LogError>, skipped: bool)
    ensures r == InputsLog(rs)
    ensures r.Ok? ==> skipped == SkippedAny(rs)
  {
    var results: map<string, InputLog> := map[];
    skipped := false;
    var j := 0;
    while j < |rs|
      invariant 0 <= j <= |rs|
      invariant InputsLog(rs[..j]) == Result.Ok(results)
      invariant skipped == SkippedAny(rs[..j])
    {
      assert rs[..j + 1][..j] == rs[..j] && rs[..j + 1][j] == rs[j];
      var (name, detail) := rs[j];
      if detail.None? {
        skipped := true;
      } else {
        var d := detail.value;
        if d.result.RelativeResult? {
          results := results[name := InputLog(d.time, d.wallTime, d.result.verdict, RelativePoints(d.result.relativePoints))];
        } else if d.result.AbsoluteResult? {
          results := results[name := InputLog(d.time, d.wallTime, d.result.verdict, AbsolutePoints(d.result.absolutePoints))];
        } else {
          assert InputsLog(rs[..j + 1]) == Err(UnknownSolutionResult);
          InputsLogErrStays(rs, j + 1);
          return Err(UnknownSolutionResult), skipped;
        }
      }
      assert SkippedAny(rs[..j + 1]) == (SkippedAny(rs[..j]) || detail.None?) by {
        assert forall k :: 0 <= k < j ==> rs[..j + 1][k] == rs[..j][k];
      }
      j := j + 1;
    }
    assert rs[..j] == rs;
    r := Result.Ok(results);
  }

  /** `CreateTestingLog._evaluate`, over the prerequisites' results in
      order; `prefix` is the name prefix of the solution managers and
      `configured` the number of configured solutions. */
  method Evaluate(ps: seq<Prereq>, prefix: string, configured: nat) returns (r: Result<TestingLog, LogError>)
    ensures r == Finish(LogSoFar(ps, prefix), configured)
  {
    var log: map<string, map<string, InputLog>> := map[];
    var solutions: set<string> := {};
    var warnSkipped := false;
    var i := 0;
    while i < |ps|
      invariant 0 <= i <= |ps|
      invariant LogSoFar(ps[..i], prefix) == Result.Ok((log, warnSkipped))
      invariant solutions == log.Keys
    {
      assert ps[..i + 1][..i] == ps[..i] && ps[..i + 1][i] == ps[i];
      var p := ps[i];
      if StartsWith(p.name, prefix) && exists j :: 0 <= j < |p.results| && p.results[j].1.Some? {
        var solution := p.name[|prefix|..];
        solutions := solutions + {solution};
        var results, skipped := LogInputs(p.results);
        if results.Err? {
          assert LogSoFar(ps[..i + 1], prefix) == Err(results.error);
          LogSoFarErrStays(ps, prefix, i + 1);
          return Err(results.error);
        }
        log := log[solution := results.value];
        warnSkipped := warnSkipped || skipped;
      }
      i := i + 1;
    }
    assert ps[..i] == ps;
    if |solutions| == 0 {
      return Err(NoSolutionTested);
    }
    r := Result.Ok(TestingLog(LogSource, log, |solutions| < configured, warnSkipped));
  }

  /** The outcome in terms of the prerequisites: an unknown result wins;
      otherwise no logged solution is a failure; otherwise the log warns
      when fewer solutions than configured were logged. */
  lemma FinishSpec(ps: seq<Prereq>, prefix: string, configured: nat)
    ensures var r := Finish(LogSoFar(ps, prefix), configured);
            (r == Err(UnknownSolutionResult) <==>
               exists i :: 0 <= i < |ps| && Logged(ps[i], prefix) && InputsLog(ps[i].results).Err?)
            && (r == Err(NoSolutionTested) <==>
                  LogSoFar(ps, prefix).Ok? && forall i :: 0 <= i < |ps| ==> !Logged(ps[i], prefix))
            && (r.Ok? ==> r.value.warnNotAllSolutions == (|r.value.solutions.Keys| < configured))
            && (r.Ok? ==> r.value.source == "pisek")
  {
    LogSoFarErr(ps, prefix);
    if LogSoFar(ps, prefix).Ok? {
      LogSoFarKeys(ps, prefix);
      var log := LogSoFar(ps, prefix).value.0;
      if exists i :: 0 <= i < |ps| && Logged(ps[i], prefix) {
        var i :| 0 <= i < |ps| && Logged(ps[i], prefix);
        assert StartsWith(ps[i].name, prefix);
        SolutionNameSpec(ps[i], prefix, SolutionName(ps[i], prefix));
        assert SolutionName(ps[i], prefix) in log;
      } else {
        assert log.Keys == {} by {
          forall s | s in log
            ensures false
          {
          }
        }
      }
    }
  }

  // ---------------------------------------------------------------------------
  // JSON encoding

  /** The values the encoder meets beyond JSON's own: decimals (held as
      their text form) and anything else. */
  datatype Extra = DecimalValue(text: string) | Unencodable

  datatype EncodeError = NotSerializable

  /** `DecimalEncoder.default`: a decimal becomes its text; anything else
      is the base encoder's error. */
  function EncodeDefault(o: Extra): (r: Result<string, EncodeError>)
    ensures r.Ok? <==> o.DecimalValue?
    ensures r.Ok? ==> r.value == o.text
  {
    match o
    case DecimalValue(t) => Result.Ok(t)
    case Unencodable => Err(NotSerializable)
  }
}
