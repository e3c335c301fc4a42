/** The resource statistics table (`pisek/task_jobs/resource_statistics.py`):
    for the generator, every tested solution and the judge, the largest
    time and memory any of their runs used, against the limits, coloured
    by how close to the limit they came, in aligned columns. */
module ResourceStatisticsModel {
  import opened Common
  import opened Text
  import RR = RunResults
  import CT = ConfigTypes

  datatype Colour = Green | Yellow | Red | White

  datatype Attr = Time | Memory

  /** Time and memory limits of a program's run section. */
  datatype RunSection = RunSection(timeLimit: real, memLimit: real)

  /** Fixed-point formatting `f"{x:.{places}f}"`, and colouring a cell. */
  type Format = (real, nat) -> string
  type Paint = (string, Colour) -> string

  /** `max` of an empty list. */
  datatype StatError = EmptyRunResults

  // ---------------------------------------------------------------------------
  // One statistic

  /** The colour of `value` against `limit`: no limit is green, below half
      of it green, below nine tenths yellow, up to the limit red, beyond it
      white. */
  function StatColour(value: real, limit: real): (r: Colour)
    ensures limit == 0.0 ==> r == Green
    ensures limit > 0.0 ==>
              (r == Green <==> value < 0.5 * limit)
              && (r == Yellow <==> 0.5 * limit <= value < 0.9 * limit)
              && (r == Red <==> 0.9 * limit <= value <= limit)
              && (r == White <==> limit < value)
  {
    if limit == 0.0 then Green
    else if value < 0.5 * limit then Green
    else if value < 0.9 * limit then Yellow
    else if value <= limit then Red
    else White
  }

  function Rank(c: Colour): nat
  {
    match c
    case Green => 0
    case Yellow => 1
    case Red => 2
    case White => 3
  }

  /** Against a fixed positive limit, more use never gets a milder colour. */
  lemma StatColourMonotone(v1: real, v2: real, limit: real)
    requires v1 <= v2 && limit > 0.0
    ensures Rank(StatColour(v1, limit)) <= Rank(StatColour(v2, limit))
  {
  }

  function AttrOf(rr: RR.RunResult, attr: Attr): real
  {
    match attr
    case Time => rr.time
    case Memory => rr.memory as real
  }

  /** The largest value of `attr` over the runs. */
  function MaxOf(rrs: seq<RR.RunResult>, attr: Attr): real
    requires rrs != []
  {
    if |rrs| == 1 then AttrOf(rrs[0], attr)
    else
      var m := MaxOf(rrs[1..], attr);
      if AttrOf(rrs[0], attr) >= m then AttrOf(rrs[0], attr) else m
  }

  /** The maximum bounds every run's value and is one of them. */
  lemma {:induction false} MaxOfSpec(rrs: seq<RR.RunResult>, attr: Attr)
    requires rrs != []
    ensures forall i :: 0 <= i < |rrs| ==> AttrOf(rrs[i], attr) <= MaxOf(rrs, attr)
    ensures exists i :: 0 <= i < |rrs| && AttrOf(rrs[i], attr) == MaxOf(rrs, attr)
  {
    if |rrs| > 1 {
      MaxOfSpec(rrs[1..], attr);
      assert forall i :: 1 <= i < |rrs| ==> rrs[i] == rrs[1..][i - 1];
      if AttrOf(rrs[0], attr) < MaxOf(rrs[1..], attr) {
        var i :| 0 <= i < |rrs[1..]| && AttrOf(rrs[1..][i], attr) == MaxOf(rrs[1..], attr);
        assert AttrOf(rrs[i + 1], attr) == MaxOf(rrs, attr);
      } else {
        assert AttrOf(rrs[0], attr) == MaxOf(rrs, attr);
      }
    } else {
      assert AttrOf(rrs[0], attr) == MaxOf(rrs, attr);
    }
  }

  /** `format_stat`: three cells, the largest value coloured against the
      limit, a slash and the limit; no runs at all is `max`'s error. */
  function FormatStat(rrs: seq<RR.RunResult>, limit: real, attr: Attr, places: nat, fmt: Format, paint: Paint)
    : (r: Result<seq<string>, StatError>)
    ensures r.Ok? <==> rrs != []
    ensures r.Ok? ==> |r.value| == 3 && r.value[1] == "/" && r.value[2] == fmt(limit, places)
  {
    if rrs == [] then Err(EmptyRunResults)
    else
      var value := MaxOf(rrs, attr);
      Result.Ok([paint(fmt(value, places), StatColour(value, limit)), "/", fmt(limit, places)])
  }

  /** The first cell shows the largest value, coloured by how close it
      comes to the limit. */
  lemma FormatStatValue(rrs: seq<RR.RunResult>, limit: real, attr: Attr, places: nat, fmt: Format, paint: Paint)
    requires rrs != []
    ensures FormatStat(rrs, limit, attr, places, fmt, paint).value[0]
            == paint(fmt(MaxOf(rrs, attr), places), StatColour(MaxOf(rrs, attr), limit))
  {
  }

  function Spaces(n: nat): (r: string)
    ensures |r| == n && forall i :: 0 <= i < n ==> r[i] == ' '
  {
    if n == 0 then "" else Spaces(n - 1) + " "
  }

  /** `f"{s:<{w}}"`: `s` padded with spaces on the right to width `w`. */
  function PadRight(s: string, w: nat): (r: string)
    ensures |s| <= w ==> |r| == w
    ensures |s| >= w ==> r == s
  {
    if |s| >= w then s else s + Spaces(w - |s|)
  }

  /** `f"{s:>{w}}"`: `s` padded with spaces on the left to width `w`. */
  function PadLeft(s: string, w: nat): (r: string)
    ensures |s| <= w ==> |r| == w
    ensures |s| >= w ==> r == s
  {
    if |s| >= w then s else Spaces(w - |s|) + s
  }

  /** Padding keeps the text: on the left of a left-aligned cell, on the
      right of a right-aligned one, with only spaces beside it. */
  lemma PadKeeps(s: string, w: nat)
    ensures PadRight(s, w)[..|s|] == s
    ensures forall i :: |s| <= i < |PadRight(s, w)| ==> PadRight(s, w)[i] == ' '
    ensures var r := PadLeft(s, w);
            r[|r| - |s|..] == s && forall i :: 0 <= i < |r| - |s| ==> r[i] == ' '
  {
  }

  /** The number of cells in a row. */
  const RowWidth: nat := 9

  /** `part_statistics`: the name padded to 30, the time statistic with two
      decimals, "s", the memory statistic and "MB". */
  function PartStatistics(name: string, rrs: seq<RR.RunResult>, section: RunSection, fmt: Format, paint: Paint)
    : (r: Result<seq<string>, StatError>)
    ensures r.Ok? <==> rrs != []
    ensures r.Ok? ==> |r.value| == RowWidth
  {
    var time := FormatStat(rrs, section.timeLimit, Time, 2, fmt, paint);
    var memory := FormatStat(rrs, section.memLimit, Memory, 0, fmt, paint);
    if time.Err? || memory.Err? then Err(EmptyRunResults)
    else Result.Ok([PadRight(name, 30) + " "] + time.value + ["s  "] + memory.value + ["MB  "])
  }

  /** A row is the padded name, the time statistic, "s", the memory
      statistic and "MB". */
  lemma PartStatisticsCells(name: string, rrs: seq<RR.RunResult>, section: RunSection, fmt: Format, paint: Paint)
    requires rrs != []
    ensures var r := PartStatistics(name, rrs, section, fmt, paint).value;
            r[0] == PadRight(name, 30) + " "
            && r[1..4] == FormatStat(rrs, section.timeLimit, Time, 2, fmt, paint).value
            && r[4] == "s  "
            && r[5..8] == FormatStat(rrs, section.memLimit, Memory, 0, fmt, paint).value
            && r[8] == "MB  "
  {
    var r := PartStatistics(name, rrs, section, fmt, paint).value;
    assert r[1..4] == FormatStat(rrs, section.timeLimit, Time, 2, fmt, paint).value;
    assert r[5..8] == FormatStat(rrs, section.memLimit, Memory, 0, fmt, paint).value;
  }

  // ---------------------------------------------------------------------------
  // Collecting the runs

  /** A judged input: the solution's run and, when the checker ran, its run. */
  datatype Detail = Detail(solutionRun: RR.RunResult, checkerRun: Option<RR.RunResult>)

  /** A prerequisite's results, one per input, `None` when not tested. */
  datatype Prereq = Prereq(name: string, results: seq<Option<Detail>>)

  predicate Logged(p: Prereq, prefix: string)
  {
    StartsWith(p.name, prefix) && exists j :: 0 <= j < |p.results| && p.results[j].Some?
  }

  /** The runs per solution, in the order the solutions were first met,
      and the checker runs. */
  datatype Collected = Collected(order: seq<string>, solutionRuns: map<string, seq<RR.RunResult>>, checkerRuns: seq<RR.RunResult>)

  /** One judged input added to what was collected. */
  function AddDetail(c: Collected, solution: string, d: Detail): (r: Collected)
    ensures solution in r.solutionRuns && r.solutionRuns[solution] != []
  {
    var known := solution in c.solutionRuns;
    Collected(
      if known then c.order else c.order + [solution],
      c.solutionRuns[solution := (if known then c.solutionRuns[solution] else []) + [d.solutionRun]],
      c.checkerRuns + if d.checkerRun.Some? then [d.checkerRun.value] else [])
  }

  function AddDetails(c: Collected, solution: string, ds: seq<Option<Detail>>): Collected
  {
    if ds == [] then c
    else
      var c' := AddDetails(c, solution, ds[..|ds| - 1]);
      var last := ds[|ds| - 1];
      if last.None? then c' else AddDetail(c', solution, last.value)
  }

  /** What the loop over the prerequisites `ps` collects. */
  function CollectedFrom(ps: seq<Prereq>, prefix: string): Collected
  {
    if ps == [] then Collected([], map[], [])
    else
      var c := CollectedFrom(ps[..|ps| - 1], prefix);
      var p := ps[|ps| - 1];
      if !Logged(p, prefix) then c else AddDetails(c, p.name[|prefix|..], p.results)
  }

  /** The order lists each collected solution once, and every one of them
      has runs. */
  ghost predicate WellCollected(c: Collected)
  {
    NoDups(c.order)
    && (forall s :: s in c.solutionRuns <==> s in c.order)
    && (forall s :: s in c.solutionRuns ==> c.solutionRuns[s] != [])
  }

  lemma AddDetailKeeps(c: Collected, solution: string, d: Detail)
    requires WellCollected(c)
    ensures WellCollected(AddDetail(c, solution, d))
  {
    var r := AddDetail(c, solution, d);
    if solution !in c.solutionRuns {
      forall i, j | 0 <= i < j < |r.order|
        ensures r.order[i] != r.order[j]
      {
        if j == |c.order| {
          assert r.order[i] == c.order[i];
        }
      }
    }
  }

  lemma {:induction false} AddDetailsKeeps(c: Collected, solution: string, ds: seq<Option<Detail>>)
    requires WellCollected(c)
    ensures WellCollected(AddDetails(c, solution, ds))
  {
    if ds != [] {
      AddDetailsKeeps(c, solution, ds[..|ds| - 1]);
      if ds[|ds| - 1].Some? {
        AddDetailKeeps(AddDetails(c, solution, ds[..|ds| - 1]), solution, ds[|ds| - 1].value);
      }
    }
  }

  /** Every collected solution is listed once and has runs, so none of
      their statistics can fail. */
  lemma {:induction false} CollectedWell(ps: seq<Prereq>, prefix: string)
    ensures WellCollected(CollectedFrom(ps, prefix))
  {
    if ps != [] {
      var p := ps[|ps| - 1];
      CollectedWell(ps[..|ps| - 1], prefix);
      if Logged(p, prefix) {
        AddDetailsKeeps(CollectedFrom(ps[..|ps| - 1], prefix), p.name[|prefix|..], p.results);
      }
    }
  }

  /** The checker runs come only from judged inputs that carry one. */
  lemma {:induction false} AddDetailsCheckers(c: Collected, solution: string, ds: seq<Option<Detail>>)
    ensures var r := AddDetails(c, solution, ds);
            |c.checkerRuns| <= |r.checkerRuns| && r.checkerRuns[..|c.checkerRuns|] == c.checkerRuns
            && forall k :: |c.checkerRuns| <= k < |r.checkerRuns| ==>
                 exists j :: 0 <= j < |ds| && ds[j].Some? && ds[j].value.checkerRun == Some(r.checkerRuns[k])
  {
    if ds != [] {
      var init := ds[..|ds| - 1];
      var c' := AddDetails(c, solution, init);
      AddDetailsCheckers(c, solution, init);
      var r := AddDetails(c, solution, ds);
      assert forall j :: 0 <= j < |init| ==> init[j] == ds[j];
      assert r.checkerRuns[..|c'.checkerRuns|] == c'.checkerRuns;
      assert r.checkerRuns[..|c.checkerRuns|] == c'.checkerRuns[..|c.checkerRuns|];
      forall k | |c.checkerRuns| <= k < |r.checkerRuns|
        ensures exists j :: 0 <= j < |ds| && ds[j].Some? && ds[j].value.checkerRun == Some(r.checkerRuns[k])
      {
        if k < |c'.checkerRuns| {
          assert r.checkerRuns[k] == c'.checkerRuns[k];
        } else {
          assert ds[|ds| - 1].Some? && ds[|ds| - 1].value.checkerRun == Some(r.checkerRuns[k]);
        }
      }
    }
  }

  /** The loop over one prerequisite's results. */
  method CollectDetails(c: Collected, solution: string, ds: seq<Option<Detail>>) returns (r: Collected)
    ensures r == AddDetails(c, solution, ds)
  {
    r := c;
    var j := 0;
    while j < |ds|
      invariant 0 <= j <= |ds|
      invariant r == AddDetails(c, solution, ds[..j])
    {
      assert ds[..j + 1][..j] == ds[..j];
      var detail := ds[j];
      if detail.Some? {
        var d := detail.value;
        if solution !in r.solutionRuns {
          r := r.(order := r.order + [solution], solutionRuns := r.solutionRuns[solution := []]);
        }
        r := r.(solutionRuns := r.solutionRuns[solution := r.solutionRuns[solution] + [d.solutionRun]]);
        if d.checkerRun.Some? {
          r := r.(checkerRuns := r.checkerRuns + [d.checkerRun.value]);
        }
      }
      j := j + 1;
    }
    assert ds[..j] == ds;
  }

  /** The loop over the prerequisites. */
  method CollectRuns(ps: seq<Prereq>, prefix: string) returns (c: Collected)
    ensures c == CollectedFrom(ps, prefix)
    ensures WellCollected(c)
  {
    c := Collected([], map[], []);
    var i := 0;
    while i < |ps|
      invariant 0 <= i <= |ps|
      invariant c == CollectedFrom(ps[..i], prefix)
    {
      assert ps[..i + 1][..i] == ps[..i];
      var p := ps[i];
      if StartsWith(p.name, prefix) && exists j :: 0 <= j < |p.results| && p.results[j].Some? {
        c := CollectDetails(c, p.name[|prefix|..], p.results);
      }
      i := i + 1;
    }
    assert ps[..i] == ps;
    CollectedWell(ps, prefix);
  }

  // ---------------------------------------------------------------------------
  // The table

  datatype Target = Primary | Solutions | All | OtherTarget

  /** What `get_status` reads from the configuration and the environment. */
  datatype StatusConfig = StatusConfig(
    inGen: Option<(string, RunSection)>,
    genType: CT.GenType,
    target: Target,
    outJudge: Option<(string, RunSection)>)

  /** Whether the table has a generator row. */
  predicate HasGeneratorRow(cfg: StatusConfig, generatorRuns: seq<RR.RunResult>)
  {
    cfg.inGen.Some? && generatorRuns != [] && cfg.genType != CT.CmsOld
  }

  predicate ShowsSolutions(cfg: StatusConfig)
  {
    cfg.target in {Primary, Solutions, All}
  }

  /** Every listed solution has runs. */
  predicate HasRuns(c: Collected, names: seq<string>)
  {
    forall i :: 0 <= i < |names| ==> names[i] in c.solutionRuns && c.solutionRuns[names[i]] != []
  }

  lemma HasRunsPrefix(c: Collected, names: seq<string>, n: nat)
    requires HasRuns(c, names) && n <= |names|
    ensures HasRuns(c, names[..n])
  {
    assert forall i :: 0 <= i < n ==> names[..n][i] == names[i];
  }

  lemma WellCollectedHasRuns(c: Collected)
    requires WellCollected(c)
    ensures HasRuns(c, c.order)
  {
    assert forall i :: 0 <= i < |c.order| ==> c.order[i] in c.order;
  }

  /** The row of one solution. */
  function SolutionRow(c: Collected, s: string, section: string -> RunSection, fmt: Format, paint: Paint): (r: seq<string>)
    requires s in c.solutionRuns && c.solutionRuns[s] != []
    ensures |r| == RowWidth
  {
    PartStatistics("solution " + s, c.solutionRuns[s], section(s), fmt, paint).value
  }

  /** The rows of the solutions, in the order they were collected. */
  function SolutionRows(c: Collected, names: seq<string>, section: string -> RunSection, fmt: Format, paint: Paint)
    : (r: seq<seq<string>>)
    requires HasRuns(c, names)
    ensures |r| == |names|
  {
    if names == [] then []
    else
      HasRunsPrefix(c, names, |names| - 1);
      SolutionRows(c, names[..|names| - 1], section, fmt, paint) + [SolutionRow(c, names[|names| - 1], section, fmt, paint)]
  }

  /** Row `i` is the row of the `i`-th solution. */
  lemma {:induction false} SolutionRowsAt(c: Collected, names: seq<string>, section: string -> RunSection,
                                          fmt: Format, paint: Paint, i: nat)
    requires HasRuns(c, names) && i < |names|
    ensures SolutionRows(c, names, section, fmt, paint)[i] == SolutionRow(c, names[i], section, fmt, paint)
  {
    HasRunsPrefix(c, names, |names| - 1);
    if i < |names| - 1 {
      SolutionRowsAt(c, names[..|names| - 1], section, fmt, paint, i);
    }
  }

  /** One more solution adds its row at the end. */
  lemma SolutionRowsSnoc(c: Collected, names: seq<string>, section: string -> RunSection,
                         fmt: Format, paint: Paint, n: nat)
    requires HasRuns(c, names) && n < |names|
    ensures HasRuns(c, names[..n]) && HasRuns(c, names[..n + 1])
    ensures SolutionRows(c, names[..n + 1], section, fmt, paint)
            == SolutionRows(c, names[..n], section, fmt, paint) + [SolutionRow(c, names[n], section, fmt, paint)]
  {
    HasRunsPrefix(c, names, n);
    HasRunsPrefix(c, names, n + 1);
    assert names[..n + 1][..n] == names[..n];
  }

  /** Every solution row has the nine cells. */
  lemma SolutionRowsRect(c: Collected, names: seq<string>, section: string -> RunSection, fmt: Format, paint: Paint)
    requires HasRuns(c, names)
    ensures Rect(SolutionRows(c, names, section, fmt, paint), RowWidth)
  {
    var s := SolutionRows(c, names, section, fmt, paint);
    forall i | 0 <= i < |s|
      ensures |s[i]| == RowWidth
    {
      SolutionRowsAt(c, names, section, fmt, paint, i);
    }
  }

  /** The loop adding a row per solution. */
  method AddSolutionRows(table: seq<seq<string>>, c: Collected, section: string -> RunSection, fmt: Format, paint: Paint)
    returns (r: seq<seq<string>>)
    requires HasRuns(c, c.order)
    ensures r == table + SolutionRows(c, c.order, section, fmt, paint)
  {
    r := table;
    var i := 0;
    while i < |c.order|
      invariant 0 <= i <= |c.order|
      invariant HasRuns(c, c.order[..i])
      invariant r == table + SolutionRows(c, c.order[..i], section, fmt, paint)
    {
      var s := c.order[i];
      SolutionRowsSnoc(c, c.order, section, fmt, paint, i);
      var row := SolutionRow(c, s, section, fmt, paint);
      r := r + [row];
      i := i + 1;
    }
    assert c.order[..i] == c.order;
  }

  /** The judge row as written: present whenever the solutions are shown
      and a judge is configured, and failing when no checker ran. */
  function JudgeRowAsWritten(cfg: StatusConfig, c: Collected, fmt: Format, paint: Paint): (r: Result<seq<seq<string>>, StatError>)
    ensures r.Err? <==> ShowsSolutions(cfg) && cfg.outJudge.Some? && c.checkerRuns == []
  {
    if ShowsSolutions(cfg) && cfg.outJudge.Some? then
      match PartStatistics("judge " + cfg.outJudge.value.0, c.checkerRuns, cfg.outJudge.value.1, fmt, paint)
      case Err(e) => Err(e)
      case Ok(row) => Result.Ok([row])
    else Result.Ok([])
  }

  /** The judge row as intended: like the generator row, left out when
      there are no runs to report. */
  function JudgeRow(cfg: StatusConfig, c: Collected, fmt: Format, paint: Paint): (r: seq<seq<string>>)
    ensures |r| == 1 <==> ShowsSolutions(cfg) && cfg.outJudge.Some? && c.checkerRuns != []
    ensures |r| <= 1
  {
    if ShowsSolutions(cfg) && cfg.outJudge.Some? && c.checkerRuns != [] then
      [PartStatistics("judge " + cfg.outJudge.value.0, c.checkerRuns, cfg.outJudge.value.1, fmt, paint).value]
    else []
  }

  /** The generator row, left out when the generator did not run here. */
  function GeneratorRow(cfg: StatusConfig, generatorRuns: seq<RR.RunResult>, fmt: Format, paint: Paint)
    : (r: seq<seq<string>>)
    ensures |r| == 1 <==> HasGeneratorRow(cfg, generatorRuns)
    ensures |r| <= 1
  {
    if HasGeneratorRow(cfg, generatorRuns) then
      [PartStatistics("generator " + cfg.inGen.value.0, generatorRuns, cfg.inGen.value.1, fmt, paint).value]
    else []
  }

  /** The rows of the table in order: generator, solutions, judge. */
  function Table(cfg: StatusConfig, generatorRuns: seq<RR.RunResult>, c: Collected, section: string -> RunSection,
                 fmt: Format, paint: Paint): (r: seq<seq<string>>)
    requires HasRuns(c, c.order)
    ensures |r| == (if HasGeneratorRow(cfg, generatorRuns) then 1 else 0)
                   + (if ShowsSolutions(cfg) then |c.order| else 0)
                   + (if ShowsSolutions(cfg) && cfg.outJudge.Some? && c.checkerRuns != [] then 1 else 0)
  {
    GeneratorRow(cfg, generatorRuns, fmt, paint)
    + (if ShowsSolutions(cfg) then SolutionRows(c, c.order, section, fmt, paint) else [])
    + JudgeRow(cfg, c, fmt, paint)
  }

  /** Every row of the table has the same nine cells, so it can be laid
      out in columns. */
  lemma TableRect(cfg: StatusConfig, generatorRuns: seq<RR.RunResult>, c: Collected, section: string -> RunSection,
                  fmt: Format, paint: Paint)
    requires HasRuns(c, c.order)
    ensures Rect(Table(cfg, generatorRuns, c, section, fmt, paint), RowWidth)
  {
    var g := GeneratorRow(cfg, generatorRuns, fmt, paint);
    var s := if ShowsSolutions(cfg) then SolutionRows(c, c.order, section, fmt, paint) else [];
    var j := JudgeRow(cfg, c, fmt, paint);
    assert Rect(g, RowWidth);
    if ShowsSolutions(cfg) {
      SolutionRowsRect(c, c.order, section, fmt, paint);
    }
    assert Rect(j, RowWidth);
    RectConcat(g, s, RowWidth);
    RectConcat(g + s, j, RowWidth);
  }

  // ---------------------------------------------------------------------------
  // Rendering

  /** Every row of the table has `width` cells. */
  predicate Rect(table: seq<seq<string>>, width: nat)
  {
    forall i :: 0 <= i < |table| ==> |table[i]| == width
  }

  lemma RectPrefix(table: seq<seq<string>>, width: nat, n: nat)
    requires Rect(table, width) && n <= |table|
    ensures Rect(table[..n], width)
  {
    assert forall i :: 0 <= i < n ==> table[..n][i] == table[i];
  }

  lemma RectConcat(a: seq<seq<string>>, b: seq<seq<string>>, width: nat)
    requires Rect(a, width) && Rect(b, width)
    ensures Rect(a + b, width)
  {
    forall i | 0 <= i < |a + b|
      ensures |(a + b)[i]| == width
    {
      if i >= |a| { assert (a + b)[i] == b[i - |a|]; }
    }
  }

  /** The width of column `k`: its longest cell. */
  function ColumnWidth(table: seq<seq<string>>, width: nat, k: nat): (w: nat)
    requires Rect(table, width) && k < width
  {
    if table == [] then 0
    else
      var init := table[..|table| - 1];
      RectPrefix(table, width, |table| - 1);
      var w := ColumnWidth(init, width, k);
      if |table[|table| - 1][k]| > w then |table[|table| - 1][k]| else w
  }

  /** No cell of a column is wider than the column. */
  lemma {:induction false} ColumnWidthSpec(table: seq<seq<string>>, width: nat, k: nat, i: nat)
    requires Rect(table, width) && k < width && i < |table|
    ensures |table[i][k]| <= ColumnWidth(table, width, k)
  {
    var init := table[..|table| - 1];
    RectPrefix(table, width, |table| - 1);
    if i < |init| {
      assert init[i] == table[i];
      ColumnWidthSpec(init, width, k, i);
    }
  }

  /** The widths of all columns. */
  function Widths(table: seq<seq<string>>, width: nat): (r: seq<nat>)
    requires Rect(table, width)
    ensures |r| == width
    ensures forall k :: 0 <= k < width ==> r[k] == ColumnWidth(table, width, k)
  {
    seq(width, k requires 0 <= k < width => ColumnWidth(table, width, k))
  }

  /** One cell as printed: the first column left-aligned, the others
      right-aligned, each followed by a space. */
  function Cell(cell: string, w: nat, k: nat): string
  {
    (if k == 0 then PadRight(cell, w) else PadLeft(cell, w)) + " "
  }

  /** The first `n` cells of a row as printed with column widths `widths`. */
  function Line(row: seq<string>, widths: seq<nat>, n: nat): string
    requires n <= |row| && n <= |widths|
  {
    if n == 0 then "" else Line(row, widths, n - 1) + Cell(row[n - 1], widths[n - 1], n - 1)
  }

  /** The message after the first `n` rows: a newline, then each row as
      printed and a newline. */
  function Rendered(table: seq<seq<string>>, widths: seq<nat>, n: nat): string
    requires n <= |table| && Rect(table, |widths|)
  {
    if n == 0 then "\n" else Rendered(table, widths, n - 1) + Line(table[n - 1], widths, |widths|) + "\n"
  }

  function SumWidths(widths: seq<nat>, n: nat): nat
    requires n <= |widths|
  {
    if n == 0 then 0 else SumWidths(widths, n - 1) + widths[n - 1] + 1
  }

  /** A row whose cells fit the widths prints to the sum of the widths
      plus a space per column. */
  lemma {:induction false} LineLength(row: seq<string>, widths: seq<nat>, n: nat)
    requires n <= |row| && n <= |widths|
    requires forall k :: 0 <= k < n ==> |row[k]| <= widths[k]
    ensures |Line(row, widths, n)| == SumWidths(widths, n)
  {
    if n > 0 {
      LineLength(row, widths, n - 1);
    }
  }

  /** Columns line up: every row of the table prints to the same length. */
  lemma RowsAligned(table: seq<seq<string>>, width: nat, i: nat)
    requires Rect(table, width) && i < |table|
    ensures |Line(table[i], Widths(table, width), width)| == SumWidths(Widths(table, width), width)
  {
    var widths := Widths(table, width);
    forall k | 0 <= k < width
      ensures |table[i][k]| <= widths[k]
    {
      ColumnWidthSpec(table, width, k, i);
    }
    LineLength(table[i], widths, width);
  }

  /** The inner loop printing one row. */
  method RenderLine(table: seq<seq<string>>, width: nat, row: seq<string>) returns (s: string)
    requires Rect(table, width) && |row| == width
    ensures s == Line(row, Widths(table, width), width)
  {
    ghost var widths := Widths(table, width);
    s := "";
    var k := 0;
    while k < |row|
      invariant 0 <= k <= |row|
      invariant s == Line(row, widths, k)
    {
      var maxLen := ColumnWidth(table, width, k);
      s := s + Cell(row[k], maxLen, k);
      k := k + 1;
    }
  }

  /** The nested loop printing the rows; each column's width is recomputed
      for every cell. */
  method RenderTable(table: seq<seq<string>>, width: nat) returns (msg: string)
    requires Rect(table, width)
    ensures msg == Rendered(table, Widths(table, width), |table|)
  {
    ghost var widths := Widths(table, width);
    msg := "\n";
    var r := 0;
    while r < |table|
      invariant 0 <= r <= |table|
      invariant msg == Rendered(table, widths, r)
    {
      var line := RenderLine(table, width, table[r]);
      msg := msg + line + "\n";
      r := r + 1;
    }
  }

  /** Every cell fits the width of its column. */
  predicate Fits(table: seq<seq<string>>, widths: seq<nat>)
  {
    forall i, k :: 0 <= i < |table| && 0 <= k < |widths| ==> k < |table[i]| && |table[i][k]| <= widths[k]
  }

  lemma WidthsFit(table: seq<seq<string>>, width: nat)
    requires Rect(table, width)
    ensures Fits(table, Widths(table, width))
  {
    forall i, k | 0 <= i < |table| && 0 <= k < width
      ensures |table[i][k]| <= Widths(table, width)[k]
    {
      ColumnWidthSpec(table, width, k, i);
    }
  }

  /** When every cell fits, the message is a newline followed by `n`
      lines of one length. */
  lemma {:induction false} RenderedLength(table: seq<seq<string>>, widths: seq<nat>, n: nat)
    requires Rect(table, |widths|) && Fits(table, widths) && n <= |table|
    ensures |Rendered(table, widths, n)| == 1 + n * (SumWidths(widths, |widths|) + 1)
  {
    if n > 0 {
      var lineLen := SumWidths(widths, |widths|) + 1;
      RenderedLength(table, widths, n - 1);
      LineLength(table[n - 1], widths, |widths|);
      assert (n - 1) * lineLen + lineLen == n * lineLen;
    }
  }

  // ---------------------------------------------------------------------------
  // The status

  /** The table of the runs collected from the prerequisites. */
  function StatusTable(cfg: StatusConfig, generatorRuns: seq<RR.RunResult>, ps: seq<Prereq>, prefix: string,
                       section: string -> RunSection, fmt: Format, paint: Paint): (r: seq<seq<string>>)
    ensures Rect(r, RowWidth)
  {
    var c := CollectedFrom(ps, prefix);
    CollectedWell(ps, prefix);
    WellCollectedHasRuns(c);
    TableRect(cfg, generatorRuns, c, section, fmt, paint);
    Table(cfg, generatorRuns, c, section, fmt, paint)
  }

  /** The message `get_status` gives: the job bar of a cancelled job,
      otherwise the rendered table of the collected runs. */
  function Status(cancelled: bool, jobBar: string, cfg: StatusConfig, generatorRuns: seq<RR.RunResult>,
                  ps: seq<Prereq>, prefix: string, section: string -> RunSection, fmt: Format, paint: Paint): string
  {
    if cancelled then jobBar
    else
      var table := StatusTable(cfg, generatorRuns, ps, prefix, section, fmt, paint);
      Rendered(table, Widths(table, RowWidth), |table|)
  }

  /** `get_status` as written: the judge row is built even when no checker
      ran, and taking the largest of no runs fails. */
  function StatusAsWritten(cancelled: bool, jobBar: string, cfg: StatusConfig, generatorRuns: seq<RR.RunResult>,
                           ps: seq<Prereq>, prefix: string, section: string -> RunSection, fmt: Format, paint: Paint)
    : Result<string, StatError>
  {
    if cancelled then Result.Ok(jobBar)
    else
      var c := CollectedFrom(ps, prefix);
      match JudgeRowAsWritten(cfg, c, fmt, paint)
      case Err(e) => Err(e)
      case Ok(_) => Result.Ok(Status(cancelled, jobBar, cfg, generatorRuns, ps, prefix, section, fmt, paint))
  }

  /** The code as written fails exactly when the solutions are shown, a
      judge is configured and no checker run was collected; otherwise it
      gives the corrected message. */
  lemma StatusAsWrittenAgrees(cancelled: bool, jobBar: string, cfg: StatusConfig, generatorRuns: seq<RR.RunResult>,
                              ps: seq<Prereq>, prefix: string, section: string -> RunSection, fmt: Format, paint: Paint)
    ensures StatusAsWritten(cancelled, jobBar, cfg, generatorRuns, ps, prefix, section, fmt, paint).Err?
            <==> !cancelled && ShowsSolutions(cfg) && cfg.outJudge.Some? && CollectedFrom(ps, prefix).checkerRuns == []
    ensures StatusAsWritten(cancelled, jobBar, cfg, generatorRuns, ps, prefix, section, fmt, paint).Ok?
            ==> StatusAsWritten(cancelled, jobBar, cfg, generatorRuns, ps, prefix, section, fmt, paint).value
                == Status(cancelled, jobBar, cfg, generatorRuns, ps, prefix, section, fmt, paint)
  {
  }

  /** A solution whose only judged input has no checker run (the checker
      is skipped after a failed run) makes the code as written fail when a
      judge is configured. */
  lemma JudgeWithoutCheckerFails(rr: RR.RunResult, limits: RunSection, section: string -> RunSection, fmt: Format, paint: Paint)
    ensures var cfg := StatusConfig(None, CT.PisekV1, Solutions, Some(("judge", limits)));
            var ps := [Prereq("solution_a", [Some(Detail(rr, None))])];
            StatusAsWritten(false, "", cfg, [], ps, "solution_", section, fmt, paint).Err?
  {
    var ps := [Prereq("solution_a", [Some(Detail(rr, None))])];
    assert Logged(ps[0], "solution_") by {
      assert ps[0].results[0].Some?;
    }
    var ds := ps[0].results;
    assert AddDetails(Collected([], map[], []), "a", ds[..0]) == Collected([], map[], []);
    assert ps[..0] == [];
    assert CollectedFrom(ps, "solution_").checkerRuns == [];
  }

  /** `get_status`, with the judge row left out when no checker ran. */
  method GetStatus(cancelled: bool, jobBar: string, cfg: StatusConfig, generatorRuns: seq<RR.RunResult>,
                   ps: seq<Prereq>, prefix: string, section: string -> RunSection, fmt: Format, paint: Paint)
    returns (msg: string)
    ensures msg == Status(cancelled, jobBar, cfg, generatorRuns, ps, prefix, section, fmt, paint)
  {
    if cancelled {
      return jobBar;
    }
    var c := CollectRuns(ps, prefix);
    WellCollectedHasRuns(c);
    var table := GeneratorRow(cfg, generatorRuns, fmt, paint);
    if ShowsSolutions(cfg) {
      table := AddSolutionRows(table, c, section, fmt, paint);
    }
    table := table + JudgeRow(cfg, c, fmt, paint);
    assert table == StatusTable(cfg, generatorRuns, ps, prefix, section, fmt, paint);
    msg := RenderTable(table, RowWidth);
  }
}
