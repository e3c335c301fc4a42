/** The opendata library of `pisek/opendata/lib.py`: building a task into
    a directory, listing the testcases of each test, picking one testcase
    with its seed and destination paths, and running the opendata
    pipeline for it only as far as the files still missing require. */
module OpendataLib {
  import opened Common
  import DM = DataManagerModel
  import OM = OpendataManagers

  /** The errors the library raises. `NotADirectory` to `SamePaths` except
      `DirectoryNotEmpty` are `InvalidArgument`; `DirectoryNotEmpty` is
      `InvalidOperation`; `MissingSection` is the `KeyError` of looking up
      a test section that does not exist. */
  datatype LibError =
    | NotADirectory(path: string)
    | DirectoryNotEmpty(path: string)
    | NoTest(test: int)
    | NoTestcase(name: string)
    | NotInTest(name: string, test: int)
    | MissingSeed
    | UnexpectedSeed
    | SamePaths
    | MissingSection(test: int)

  predicate IsInvalidArgument(e: LibError)
  {
    !e.DirectoryNotEmpty? && !e.MissingSection?
  }

  // ---------------------------------------------------------------------------
  // Task.build

  /** What the file system holds at a path. */
  datatype PathState = Absent | RegularFile | Directory(entries: seq<string>)

  /** The checks `Task.build` makes on its target before building: the
      target must be absent or an empty directory. */
  function CheckBuildTarget(path: string, st: PathState): (r: Option<LibError>)
    ensures r.None? <==> st.Absent? || st == Directory([])
    ensures r == Some(NotADirectory(path)) <==> st.RegularFile?
    ensures r == Some(DirectoryNotEmpty(path)) <==> st.Directory? && st.entries != []
    ensures r.Some? ==> (IsInvalidArgument(r.value) <==> st.RegularFile?)
  {
    match st
    case Absent => None
    case RegularFile => Some(NotADirectory(path))
    case Directory(entries) => if entries != [] then Some(DirectoryNotEmpty(path)) else None
  }

  // ---------------------------------------------------------------------------
  // The inputs list

  /** The dictionary `_inputs_list` fills from the lines of the inputs
      list: each name maps to the testcase of its last line. */
  function InfoMap(lines: seq<DM.TestcaseInfo>): map<string, DM.TestcaseInfo>
  {
    if lines == [] then map[]
    else InfoMap(lines[..|lines| - 1])[lines[|lines| - 1].name := lines[|lines| - 1]]
  }

  /** A name is a key exactly when some line has it. */
  lemma {:induction false} InfoMapHas(lines: seq<DM.TestcaseInfo>, name: string)
    ensures name in InfoMap(lines) <==> exists i :: 0 <= i < |lines| && lines[i].name == name
  {
    if lines != [] {
      var p := lines[..|lines| - 1];
      InfoMapHas(p, name);
      assert forall i :: 0 <= i < |p| ==> p[i] == lines[i];
    }
  }

  /** The value of a name is the last line with that name. */
  lemma {:induction false} InfoMapLast(lines: seq<DM.TestcaseInfo>, name: string)
    requires name in InfoMap(lines)
    ensures exists i :: (0 <= i < |lines| && lines[i] == InfoMap(lines)[name]
      && forall j :: i < j < |lines| ==> lines[j].name != name)
  {
    var p := lines[..|lines| - 1];
    if name == lines[|lines| - 1].name {
      assert lines[|lines| - 1] == InfoMap(lines)[name];
    } else {
      InfoMapLast(p, name);
      var i :| 0 <= i < |p| && p[i] == InfoMap(p)[name] && forall j :: i < j < |p| ==> p[j].name != name;
      assert lines[i] == InfoMap(lines)[name];
    }
  }

  /** `_inputs_list`: the dictionary and the order of its keys. */
  method ReadInputsList(lines: seq<DM.TestcaseInfo>) returns (keys: seq<string>, infos: map<string, DM.TestcaseInfo>)
    ensures keys == Dedupe(DM.Names(lines))
    ensures infos == InfoMap(lines)
  {
    keys := [];
    infos := map[];
    var i := 0;
    while i < |lines|
      invariant 0 <= i <= |lines|
      invariant keys == Dedupe(DM.Names(lines[..i]))
      invariant infos == InfoMap(lines[..i])
    {
      var ti := lines[i];
      assert lines[..i + 1][..i] == lines[..i];
      assert DM.Names(lines[..i + 1])[..i] == DM.Names(lines[..i]);
      if ti.name !in keys {
        keys := keys + [ti.name];
      }
      infos := infos[ti.name := ti];
      i := i + 1;
    }
    assert lines[..|lines|] == lines;
  }

  /** The keys are exactly the names of the lines. */
  lemma InfoMapKeys(lines: seq<DM.TestcaseInfo>)
    ensures forall k :: k in Dedupe(DM.Names(lines)) <==> k in InfoMap(lines)
  {
    forall k ensures k in Dedupe(DM.Names(lines)) <==> k in InfoMap(lines) {
      InfoMapHas(lines, k);
      if k in InfoMap(lines) {
        var i :| 0 <= i < |lines| && lines[i].name == k;
        assert DM.Names(lines)[i] == k;
      }
      if k in Dedupe(DM.Names(lines)) {
        var i :| 0 <= i < |DM.Names(lines)| && DM.Names(lines)[i] == k;
      }
    }
  }

  /** The values of the dictionary, in key order. */
  function Values(keys: seq<string>, infos: map<string, DM.TestcaseInfo>): (r: seq<DM.TestcaseInfo>)
    requires forall i :: 0 <= i < |keys| ==> keys[i] in infos
    ensures |r| == |keys| && forall i :: 0 <= i < |keys| ==> r[i] == infos[keys[i]]
  {
    seq(|keys|, i requires 0 <= i < |keys| => infos[keys[i]])
  }

  /** `inputs_list`: for every test `0 .. tests_count - 1`, the testcases
      of the dictionary its globs accept, in dictionary order. */
  method InputsList(values: seq<DM.TestcaseInfo>, testsCount: nat, inTest: (int, DM.TestcaseInfo) -> bool)
    returns (result: map<int, seq<DM.TestcaseInfo>>)
    ensures forall t :: t in result <==> 0 <= t < testsCount
    ensures forall t :: 0 <= t < testsCount ==> result[t] == DM.TestList(values, t, inTest)
  {
    result := map[];
    var t := 0;
    while t < testsCount
      invariant 0 <= t <= testsCount
      invariant forall u :: u in result <==> 0 <= u < t
      invariant forall u :: u in result ==> result[u] == []
    {
      result := result[t := []];
      t := t + 1;
    }
    var i := 0;
    while i < |values|
      invariant 0 <= i <= |values|
      invariant forall t :: t in result <==> 0 <= t < testsCount
      invariant forall t :: 0 <= t < testsCount ==> result[t] == DM.TestList(values[..i], t, inTest)
    {
      assert values[..i + 1] == values[..i] + [values[i]];
      result := AddToTests(result, values[..i], values[i], testsCount, inTest);
      i := i + 1;
    }
    assert values[..|values|] == values;
  }

  /** The inner loop of `inputs_list`: append one testcase to the list of
      every test that accepts it. */
  method AddToTests(result: map<int, seq<DM.TestcaseInfo>>, done: seq<DM.TestcaseInfo>, ti: DM.TestcaseInfo,
                    testsCount: nat, inTest: (int, DM.TestcaseInfo) -> bool)
    returns (next: map<int, seq<DM.TestcaseInfo>>)
    requires forall t :: t in result <==> 0 <= t < testsCount
    requires forall t :: 0 <= t < testsCount ==> result[t] == DM.TestList(done, t, inTest)
    ensures forall t :: t in next <==> 0 <= t < testsCount
    ensures forall t :: 0 <= t < testsCount ==> next[t] == DM.TestList(done + [ti], t, inTest)
  {
    next := result;
    var t := 0;
    while t < testsCount
      invariant 0 <= t <= testsCount
      invariant forall u :: u in next <==> 0 <= u < testsCount
      invariant forall u :: 0 <= u < t ==> next[u] == DM.TestList(done + [ti], u, inTest)
      invariant forall u :: t <= u < testsCount ==> next[u] == DM.TestList(done, u, inTest)
    {
      DM.TestListSnoc(done, ti, t, inTest);
      if inTest(t, ti) {
        next := next[t := next[t] + [ti]];
      }
      t := t + 1;
    }
  }

  /** A testcase is listed under test `t` exactly when it is the latest
      line of its name and test `t` accepts it. */
  lemma InputsListMembers(lines: seq<DM.TestcaseInfo>, t: int, inTest: (int, DM.TestcaseInfo) -> bool, x: DM.TestcaseInfo)
    ensures forall i :: 0 <= i < |Dedupe(DM.Names(lines))| ==> Dedupe(DM.Names(lines))[i] in InfoMap(lines)
    ensures var keys := Dedupe(DM.Names(lines));
      x in DM.TestList(Values(keys, InfoMap(lines)), t, inTest)
      <==> x.name in InfoMap(lines) && InfoMap(lines)[x.name] == x && inTest(t, x)
  {
    InfoMapKeys(lines);
    var keys := Dedupe(DM.Names(lines));
    var vs := Values(keys, InfoMap(lines));
    var p := (info: DM.TestcaseInfo) => inTest(t, info);
    if x in Filter(vs, p) {
      var i :| 0 <= i < |vs| && vs[i] == x;
      InfoMapNames(lines, keys[i]);
    }
    if x.name in InfoMap(lines) && InfoMap(lines)[x.name] == x && inTest(t, x) {
      var i :| 0 <= i < |keys| && keys[i] == x.name;
      assert vs[i] == x;
    }
  }

  /** Every value of the dictionary sits under its own name. */
  lemma {:induction false} InfoMapNames(lines: seq<DM.TestcaseInfo>, k: string)
    requires k in InfoMap(lines)
    ensures InfoMap(lines)[k].name == k
  {
    var p := lines[..|lines| - 1];
    if k != lines[|lines| - 1].name {
      InfoMapNames(p, k);
    }
  }

  // ---------------------------------------------------------------------------
  // BuiltTask.get_testcase

  /** The arguments of a testcase handle. */
  datatype Handle = Handle(info: DM.TestcaseInfo, test: int, seed: Option<int>, inputPath: string, outputPath: string)

  /** `get_testcase` as written: the test bound is `0 <= test <=
      tests_count`, so `test == tests_count` passes it and the section
      lookup for that test fails instead. */
  function GetTestcaseAsWritten(testsCount: nat, infos: map<string, DM.TestcaseInfo>, inTest: (int, DM.TestcaseInfo) -> bool,
                                name: string, test: int, seed: Option<int>, inputPath: string, outputPath: string)
    : (r: Result<Handle, LibError>)
    ensures r.Ok? ==> 0 <= test < testsCount
  {
    if !(0 <= test <= testsCount) then Err(NoTest(test))
    else if name !in infos then Err(NoTestcase(name))
    else if test == testsCount then Err(MissingSection(test))
    else CheckTestcase(infos[name], inTest, name, test, seed, inputPath, outputPath)
  }

  /** The checks after the test and the name are known to be valid. */
  function CheckTestcase(info: DM.TestcaseInfo, inTest: (int, DM.TestcaseInfo) -> bool,
                         name: string, test: int, seed: Option<int>, inputPath: string, outputPath: string)
    : (r: Result<Handle, LibError>)
    ensures r.Ok? <==> inTest(test, info) && (seed.Some? <==> info.seeded) && inputPath != outputPath
    ensures r.Ok? ==> r.value == Handle(info, test, seed, inputPath, outputPath)
    ensures r.Err? ==> IsInvalidArgument(r.error)
  {
    if !inTest(test, info) then Err(NotInTest(name, test))
    else if seed.None? && info.seeded then Err(MissingSeed)
    else if seed.Some? && !info.seeded then Err(UnexpectedSeed)
    else if inputPath == outputPath then Err(SamePaths)
    else Ok(Handle(info, test, seed, inputPath, outputPath))
  }

  /** `get_testcase` with the bound the error message states: only tests
      `0 .. tests_count - 1` exist. */
  function GetTestcase(testsCount: nat, infos: map<string, DM.TestcaseInfo>, inTest: (int, DM.TestcaseInfo) -> bool,
                       name: string, test: int, seed: Option<int>, inputPath: string, outputPath: string)
    : (r: Result<Handle, LibError>)
  {
    if !(0 <= test < testsCount) then Err(NoTest(test))
    else if name !in infos then Err(NoTestcase(name))
    else CheckTestcase(infos[name], inTest, name, test, seed, inputPath, outputPath)
  }

  /** A handle is returned exactly for an existing test, a known name in
      that test, a seed given exactly for a seeded testcase and two
      different paths; every failure is an `InvalidArgument`. */
  lemma GetTestcaseSpec(testsCount: nat, infos: map<string, DM.TestcaseInfo>, inTest: (int, DM.TestcaseInfo) -> bool,
                        name: string, test: int, seed: Option<int>, inputPath: string, outputPath: string)
    ensures var r := GetTestcase(testsCount, infos, inTest, name, test, seed, inputPath, outputPath);
      && (r.Ok? <==> (0 <= test < testsCount && name in infos && inTest(test, infos[name])
            && (seed.Some? <==> infos[name].seeded) && inputPath != outputPath))
      && (r.Ok? ==> r.value == Handle(infos[name], test, seed, inputPath, outputPath))
      && (r.Err? ==> IsInvalidArgument(r.error))
      && (!(0 <= test < testsCount) ==> r == Err(NoTest(test)))
  {
  }

  /** The two versions differ only at `test == tests_count`. */
  lemma AsWrittenAgrees(testsCount: nat, infos: map<string, DM.TestcaseInfo>, inTest: (int, DM.TestcaseInfo) -> bool,
                        name: string, test: int, seed: Option<int>, inputPath: string, outputPath: string)
    requires test != testsCount
    ensures GetTestcaseAsWritten(testsCount, infos, inTest, name, test, seed, inputPath, outputPath)
      == GetTestcase(testsCount, infos, inTest, name, test, seed, inputPath, outputPath)
  {
  }

  /** At `test == tests_count` with a known name the code as written gets
      past its bound check and fails with the section lookup, which is
      not an `InvalidArgument`; the intended check rejects the test. */
  lemma TestBoundInclusive(testsCount: nat, infos: map<string, DM.TestcaseInfo>, inTest: (int, DM.TestcaseInfo) -> bool,
                           name: string, seed: Option<int>, inputPath: string, outputPath: string)
    requires name in infos
    ensures GetTestcaseAsWritten(testsCount, infos, inTest, name, testsCount, seed, inputPath, outputPath) == Err(MissingSection(testsCount))
    ensures !IsInvalidArgument(MissingSection(testsCount))
    ensures GetTestcase(testsCount, infos, inTest, name, testsCount, seed, inputPath, outputPath) == Err(NoTest(testsCount))
  {
  }

  // ---------------------------------------------------------------------------
  // Testcase

  /** The flags of `_run_pipeline` after it drops what already exists:
      the output is generated only if asked for and absent; the input is
      generated if asked for or needed for the output, and absent. */
  function NeededFlags(inputNeeded: bool, outputNeeded: bool, inputPresent: bool, outputPresent: bool): (r: (bool, bool))
    ensures r.1 <==> outputNeeded && !outputPresent
    ensures r.0 <==> (inputNeeded || r.1) && !inputPresent
  {
    var output := outputNeeded && !outputPresent;
    var input := (inputNeeded || output) && !inputPresent;
    (input, output)
  }

  /** Once both files exist nothing is generated, and an output to be
      generated brings its input along unless the input exists. */
  lemma NeededFlagsFacts(inputNeeded: bool, outputNeeded: bool, inputPresent: bool, outputPresent: bool)
    ensures inputPresent && outputPresent ==> NeededFlags(inputNeeded, outputNeeded, inputPresent, outputPresent) == (false, false)
    ensures NeededFlags(inputNeeded, outputNeeded, inputPresent, outputPresent).1 && !inputPresent
      ==> NeededFlags(inputNeeded, outputNeeded, inputPresent, outputPresent).0
    ensures !inputNeeded && !outputNeeded ==> NeededFlags(inputNeeded, outputNeeded, inputPresent, outputPresent) == (false, false)
  {
  }

  /** One pipeline run: its managers, the temporary directory it works in
      and the contestant output it checks. */
  datatype PipelineRun = PipelineRun(managers: seq<OM.ManagerKind>, tmpDir: string, inputDst: string, outputDst: string,
                                     contestantOutput: Option<string>)

  class Testcase {
    const info: DM.TestcaseInfo
    const test: int
    const seed: Option<int>
    const inputDst: string
    const outputDst: string
    var tmpDir: Option<string>
    /** The pipelines run so far, oldest first. */
    var runs: seq<PipelineRun>

    constructor(h: Handle)
      ensures info == h.info && test == h.test && seed == h.seed
      ensures inputDst == h.inputPath && outputDst == h.outputPath
      ensures tmpDir.None? && runs == []
    {
      info := h.info;
      test := h.test;
      seed := h.seed;
      inputDst := h.inputPath;
      outputDst := h.outputPath;
      tmpDir := None;
      runs := [];
    }

    /** `_run_pipeline`. `present` is the set of existing files, `freshDir`
        the directory a new temporary directory would get, and `judged`
        the verdict the checker would give. */
    method RunPipeline(inputNeeded: bool, outputNeeded: bool, check: bool, contestantOutput: Option<string>, clear: bool,
                       present: set<string>, freshDir: string, judged: OM.OpendataVerdict)
      returns (r: Option<OM.OpendataVerdict>)
      requires check ==> contestantOutput.Some?
      modifies this
      ensures var flags := NeededFlags(inputNeeded, outputNeeded, inputDst in present, outputDst in present);
        var ran := flags.0 || flags.1 || check;
        var dir := if old(tmpDir).Some? then old(tmpDir).value else freshDir;
        && runs == old(runs) + (if ran then [PipelineRun(OM.ManagerPlan(flags.0, flags.1, check), dir, inputDst, outputDst, contestantOutput)] else [])
        && tmpDir == (if !ran then old(tmpDir) else if clear then None else Some(dir))
      ensures r == if check then Some(judged) else None
    {
      var outNeeded := outputNeeded;
      var inNeeded := inputNeeded;
      outNeeded := outNeeded && outputDst !in present;
      inNeeded := inNeeded || outNeeded;
      inNeeded := inNeeded && inputDst !in present;
      assert (inNeeded, outNeeded) == NeededFlags(inputNeeded, outputNeeded, inputDst in present, outputDst in present);
      r := None;
      if inNeeded || outNeeded || check {
        if tmpDir.None? {
          tmpDir := Some(freshDir);
        }
        var pipeline := new OM.OpendataPipeline(inNeeded, outNeeded, check, contestantOutput);
        runs := runs + [PipelineRun(pipeline.jobManagers, tmpDir.value, inputDst, outputDst, contestantOutput)];
        if check {
          var v := pipeline.Verdict(judged);
          r := Some(v);
        }
        if clear {
          tmpDir := None;
        }
      }
    }

    /** `gen_input`. */
    method GenInput(clear: bool, present: set<string>, freshDir: string, judged: OM.OpendataVerdict)
      modifies this
      ensures var ran := inputDst !in present;
        var dir := if old(tmpDir).Some? then old(tmpDir).value else freshDir;
        && runs == old(runs) + (if ran then [PipelineRun([OM.InputMan], dir, inputDst, outputDst, None)] else [])
        && tmpDir == (if !ran then old(tmpDir) else if clear then None else Some(dir))
    {
      var _ := RunPipeline(true, false, false, None, clear, present, freshDir, judged);
      assert OM.ManagerPlan(true, false, false) == [OM.InputMan];
    }

    /** `gen_output`: generates the output, and the input first when it is
        missing. */
    method GenOutput(clear: bool, present: set<string>, freshDir: string, judged: OM.OpendataVerdict)
      modifies this
      ensures var ran := outputDst !in present;
        var managers := if inputDst in present then [OM.OutputMan] else [OM.InputMan, OM.OutputMan];
        var dir := if old(tmpDir).Some? then old(tmpDir).value else freshDir;
        && runs == old(runs) + (if ran then [PipelineRun(managers, dir, inputDst, outputDst, None)] else [])
        && tmpDir == (if !ran then old(tmpDir) else if clear then None else Some(dir))
    {
      ghost var flags := NeededFlags(false, true, inputDst in present, outputDst in present);
      assert flags == (outputDst !in present && inputDst !in present, outputDst !in present);
      var _ := RunPipeline(false, true, false, None, clear, present, freshDir, judged);
      if outputDst !in present {
        PlanOutput(inputDst in present);
      }
    }

    /** The managers that generate an output, its input first when it is
        missing. */
    static lemma PlanOutput(inputPresent: bool)
      ensures OM.ManagerPlan(!inputPresent, true, false)
              == if inputPresent then [OM.OutputMan] else [OM.InputMan, OM.OutputMan]
    {
      if inputPresent {
        assert OM.ManagerPlan(false, true, false) == [] + [OM.OutputMan] + [];
      } else {
        assert OM.ManagerPlan(true, true, false) == [OM.InputMan] + [OM.OutputMan] + [];
      }
    }

    /** `judge`: always runs a pipeline that ends with the check, and
        returns its verdict. */
    method Judge(contestantOutput: string, judgeNeedsIn: bool, judgeNeedsOut: bool, clear: bool,
                 present: set<string>, freshDir: string, judged: OM.OpendataVerdict)
      returns (v: OM.OpendataVerdict)
      modifies this
      ensures var flags := NeededFlags(judgeNeedsIn, judgeNeedsOut, inputDst in present, outputDst in present);
        var dir := if old(tmpDir).Some? then old(tmpDir).value else freshDir;
        && runs == old(runs) + [PipelineRun(OM.ManagerPlan(flags.0, flags.1, true), dir, inputDst, outputDst, Some(contestantOutput))]
        && tmpDir == (if clear then None else Some(dir))
      ensures var managers := runs[|runs| - 1].managers;
        |managers| >= 1 && managers[|managers| - 1] == OM.CheckerMan
      ensures v == judged
    {
      var r := RunPipeline(judgeNeedsIn, judgeNeedsOut, true, Some(contestantOutput), clear, present, freshDir, judged);
      v := r.value;
    }
  }
}
