/** The CMS test suite of the older test runner (`pisek/tests/cms_test_suite.py`):
    which inputs belong to a subtask, the subtasks as the tests see them,
    and which test cases the suite holds, in which order and with which
    time limits. The test cases themselves are not run here. */
module CmsTestSuiteModel {
  import opened Common
  import opened Text

  /** One input file, tagged with its subtask. */
  datatype TaskInput = TaskInput(name: string, subtask: nat)

  datatype SubtaskConfig = SubtaskConfig(num: nat, score: int, name: string, inGlobs: seq<string>)

  datatype Subtask = Subtask(score: int, inputs: seq<TaskInput>, num: nat, name: string)

  /** The configuration the suite reads; a time limit of `None` is unset. */
  datatype SuiteConfig = SuiteConfig(
    solutions: seq<string>,
    timeoutModelSolution: Option<real>,
    timeoutOtherSolutions: Option<real>,
    subtasks: seq<SubtaskConfig>)

  /** The base names of the data-directory files one glob matches
      (`glob.glob`, which reads the file system). */
  type Globber = string -> seq<string>

  // ---------------------------------------------------------------------------
  // Inputs and subtasks

  /** The matches of every glob, in glob order, duplicates kept. */
  function GlobAll(globs: seq<string>, glob: Globber): seq<string>
  {
    if globs == [] then [] else GlobAll(globs[..|globs| - 1], glob) + glob(globs[|globs| - 1])
  }

  function Tag(names: seq<string>, num: nat): (r: seq<TaskInput>)
    ensures |r| == |names|
    ensures forall i :: 0 <= i < |r| ==> r[i] == TaskInput(names[i], num)
  {
    seq(|names|, i requires 0 <= i < |names| => TaskInput(names[i], num))
  }

  function Name(t: TaskInput): string
  {
    t.name
  }

  function Identity(s: string): string
  {
    s
  }

  /** `inputs_for_subtask`: the matched names, sorted and each tagged with
      the subtask. */
  function SubtaskInputs(sub: SubtaskConfig, glob: Globber): seq<TaskInput>
  {
    Tag(SortBy(GlobAll(sub.inGlobs, glob), Identity), sub.num)
  }

  /** The inputs of a subtask are every match of its globs, each as often
      as it matched, sorted by name and tagged with the subtask. */
  lemma SubtaskInputsSpec(sub: SubtaskConfig, glob: Globber)
    ensures var r := SubtaskInputs(sub, glob);
            |r| == |GlobAll(sub.inGlobs, glob)|
            && (forall i :: 0 <= i < |r| ==> r[i].subtask == sub.num)
            && multiset(seq(|r|, i requires 0 <= i < |r| => r[i].name)) == multiset(GlobAll(sub.inGlobs, glob))
            && SortedBy(r, Name)
  {
    var sorted := SortBy(GlobAll(sub.inGlobs, glob), Identity);
    var r := SubtaskInputs(sub, glob);
    assert seq(|r|, i requires 0 <= i < |r| => r[i].name) == sorted;
    assert |sorted| == |GlobAll(sub.inGlobs, glob)| by {
      assert |multiset(sorted)| == |multiset(GlobAll(sub.inGlobs, glob))|;
    }
    forall i, j | 0 <= i < j < |r|
      ensures StrLe(Name(r[i]), Name(r[j]))
    {
      assert Name(r[i]) == Identity(sorted[i]) && Name(r[j]) == Identity(sorted[j]);
    }
  }

  /** `inputs_for_subtask`, collecting the matches glob by glob. */
  method InputsForSubtask(sub: SubtaskConfig, glob: Globber) returns (r: seq<TaskInput>)
    ensures r == SubtaskInputs(sub, glob)
  {
    var names: seq<string> := [];
    var k := 0;
    while k < |sub.inGlobs|
      invariant 0 <= k <= |sub.inGlobs|
      invariant names == GlobAll(sub.inGlobs[..k], glob)
    {
      assert sub.inGlobs[..k + 1][..k] == sub.inGlobs[..k];
      names := names + glob(sub.inGlobs[k]);
      k := k + 1;
    }
    assert sub.inGlobs[..k] == sub.inGlobs;
    var sorted := SortBy(names, Identity);
    r := Tag(sorted, sub.num);
  }

  /** `get_subtasks`: one subtask per configured one, in configuration
      order, with its score, name and inputs. */
  method GetSubtasks(subs: seq<SubtaskConfig>, glob: Globber) returns (r: seq<Subtask>)
    ensures |r| == |subs|
    ensures forall i :: 0 <= i < |r| ==>
              r[i] == Subtask(subs[i].score, SubtaskInputs(subs[i], glob), subs[i].num, subs[i].name)
  {
    r := [];
    var k := 0;
    while k < |subs|
      invariant 0 <= k <= |subs| && |r| == k
      invariant forall i :: 0 <= i < k ==>
                  r[i] == Subtask(subs[i].score, SubtaskInputs(subs[i], glob), subs[i].num, subs[i].name)
    {
      var inputs := InputsForSubtask(subs[k], glob);
      r := r + [Subtask(subs[k].score, inputs, subs[k].num, subs[k].name)];
      k := k + 1;
    }
  }

  // ---------------------------------------------------------------------------
  // The generator test

  datatype GeneratorFailure = GeneratorReturnCode(code: int) | NoInputFiles | MissingInputs(subtask: nat)

  /** `GeneratorWorks.runTest`: the generator must exit with 0, some
      `*.in` must exist, and every subtask must have inputs; the first
      failed assertion ends the test. */
  function GeneratorWorksRun(returnCode: int, inFiles: seq<string>, subs: seq<SubtaskConfig>, glob: Globber): (r: Option<GeneratorFailure>)
    ensures r.None? <==>
              returnCode == 0 && inFiles != [] && forall i :: 0 <= i < |subs| ==> HasInputs(subs[i], glob)
    ensures r == Some(NoInputFiles) <==> returnCode == 0 && inFiles == []
    ensures r.Some? && r.value.MissingInputs? ==>
              returnCode == 0 && inFiles != [] && exists i :: 0 <= i < |subs| && subs[i].num == r.value.subtask && !HasInputs(subs[i], glob)
  {
    if returnCode != 0 then Some(GeneratorReturnCode(returnCode))
    else if inFiles == [] then Some(NoInputFiles)
    else FirstMissing(subs, glob)
  }

  /** Whether the globs of a subtask match anything. */
  predicate HasInputs(sub: SubtaskConfig, glob: Globber)
  {
    SubtaskInputs(sub, glob) != []
  }

  /** Subtask `i` is the first one whose globs match nothing. */
  predicate FirstWithoutInputs(subs: seq<SubtaskConfig>, i: int, glob: Globber)
  {
    0 <= i < |subs| && !HasInputs(subs[i], glob) && forall j :: 0 <= j < i ==> HasInputs(subs[j], glob)
  }

  function FirstMissing(subs: seq<SubtaskConfig>, glob: Globber): (r: Option<GeneratorFailure>)
    ensures r.None? <==> forall i :: 0 <= i < |subs| ==> HasInputs(subs[i], glob)
    ensures r.Some? ==> r.value.MissingInputs? && exists i :: 0 <= i < |subs| && subs[i].num == r.value.subtask && !HasInputs(subs[i], glob)
  {
    if subs == [] then None
    else if !HasInputs(subs[0], glob) then Some(MissingInputs(subs[0].num))
    else
      var r := FirstMissing(subs[1..], glob);
      assert forall i :: 1 <= i < |subs| ==> subs[i] == subs[1..][i - 1];
      assert r.Some? ==> exists i :: 1 <= i < |subs| && subs[i].num == r.value.subtask && !HasInputs(subs[i], glob);
      r
  }

  /** The subtask reported missing is the first one without inputs: every
      subtask before it has some. */
  lemma {:induction false} FirstMissingIsFirst(subs: seq<SubtaskConfig>, glob: Globber)
    requires FirstMissing(subs, glob).Some?
    ensures exists i :: FirstWithoutInputs(subs, i, glob) && subs[i].num == FirstMissing(subs, glob).value.subtask
  {
    if HasInputs(subs[0], glob) {
      FirstMissingIsFirst(subs[1..], glob);
      var k :| FirstWithoutInputs(subs[1..], k, glob) && subs[1..][k].num == FirstMissing(subs[1..], glob).value.subtask;
      forall j | 0 <= j < k + 1
        ensures HasInputs(subs[j], glob)
      {
        if j > 0 {
          assert subs[j] == subs[1..][j - 1];
        }
      }
      assert subs[k + 1] == subs[1..][k];
      assert FirstWithoutInputs(subs, k + 1, glob);
    } else {
      assert FirstWithoutInputs(subs, 0, glob);
    }
  }

  // ---------------------------------------------------------------------------
  // The suite

  datatype TestCase =
    | SampleExists
    | GeneratorWorks
    | CheckerCases(inSelfTest: bool, strict: bool)
    | SolutionWorks(solution: string, timeout: real, inSelfTest: bool)

  /** `config.solutions[0]` on a configuration without solutions. */
  datatype SuiteError = NoModelSolution

  /** Python's `a or b` on an optional time limit: an unset or zero limit
      gives way to `b`. */
  function OrElse(a: Option<real>, b: real): (r: real)
    ensures a.Some? && a.value != 0.0 ==> r == a.value
    ensures a.None? || a.value == 0.0 ==> r == b
  {
    if a.Some? && a.value != 0.0 then a.value else b
  }

  /** The limit of every solution but the model one: the argument when
      given, else the configured one when set, else the default. */
  function GeneralTimeout(timeout: Option<real>, config: SuiteConfig, defaultTimeout: real): real
  {
    if timeout.Some? then timeout.value else OrElse(config.timeoutOtherSolutions, defaultTimeout)
  }

  /** The model solution's limit: the configured one when set, else the
      general one. */
  function ModelTimeout(timeout: Option<real>, config: SuiteConfig, defaultTimeout: real): real
  {
    OrElse(config.timeoutModelSolution, GeneralTimeout(timeout, config, defaultTimeout))
  }

  /** The general limit follows the argument, then the configuration,
      then the default; the model limit prefers its own configured value. */
  lemma TimeoutsSpec(timeout: Option<real>, config: SuiteConfig, defaultTimeout: real)
    ensures timeout.Some? ==> GeneralTimeout(timeout, config, defaultTimeout) == timeout.value
    ensures timeout.None? && config.timeoutOtherSolutions.Some? && config.timeoutOtherSolutions.value != 0.0 ==>
              GeneralTimeout(timeout, config, defaultTimeout) == config.timeoutOtherSolutions.value
    ensures timeout.None? && (config.timeoutOtherSolutions.None? || config.timeoutOtherSolutions.value == 0.0) ==>
              GeneralTimeout(timeout, config, defaultTimeout) == defaultTimeout
    ensures config.timeoutModelSolution.Some? && config.timeoutModelSolution.value != 0.0 ==>
              ModelTimeout(timeout, config, defaultTimeout) == config.timeoutModelSolution.value
    ensures config.timeoutModelSolution.None? || config.timeoutModelSolution.value == 0.0 ==>
              ModelTimeout(timeout, config, defaultTimeout) == GeneralTimeout(timeout, config, defaultTimeout)
  {
  }

  /** The solutions to test: the model solution first, prepended when the
      request does not start with it. */
  function SolutionOrder(requested: seq<string>, model: string): (r: seq<string>)
    requires requested != []
    ensures r != [] && r[0] == model
    ensures requested[0] == model ==> r == requested
    ensures requested[0] != model ==> r == [model] + requested
  {
    if requested[0] != model then [model] + requested else requested
  }

  /** The test cases before the solutions. */
  function Preamble(solutions: Option<seq<string>>, inSelfTest: bool, onlyNecessary: bool, strict: bool): (r: seq<TestCase>)
    ensures SampleExists in r <==> solutions != Some([])
    ensures GeneratorWorks in r
    ensures (exists t :: t in r && t.CheckerCases?) <==> !onlyNecessary
    ensures forall t :: t in r ==> !t.SolutionWorks?
  {
    var r := (if solutions != Some([]) then [SampleExists] else []) + [GeneratorWorks]
      + (if onlyNecessary then [] else [CheckerCases(inSelfTest, strict)]);
    assert !onlyNecessary ==> r[|r| - 1].CheckerCases?;
    r
  }

  /** The solution tests, the first with the model solution's limit and
      the others with the general one. */
  function SolutionTests(order: seq<string>, modelTimeout: real, general: real, inSelfTest: bool): (r: seq<TestCase>)
    ensures |r| == |order|
    ensures forall i :: 0 <= i < |r| ==>
              r[i] == SolutionWorks(order[i], if i == 0 then modelTimeout else general, inSelfTest)
  {
    seq(|order|, i requires 0 <= i < |order| => SolutionWorks(order[i], if i == 0 then modelTimeout else general, inSelfTest))
  }

  /** The loop adding a solution test per solution. */
  method AddSolutions(suite: seq<TestCase>, order: seq<string>, modelTimeout: real, general: real, inSelfTest: bool)
    returns (r: seq<TestCase>)
    ensures r == suite + SolutionTests(order, modelTimeout, general, inSelfTest)
  {
    r := suite;
    var i := 0;
    while i < |order|
      invariant 0 <= i <= |order|
      invariant r == suite + SolutionTests(order[..i], modelTimeout, general, inSelfTest)
    {
      var current := if i == 0 then modelTimeout else general;
      assert SolutionTests(order[..i + 1], modelTimeout, general, inSelfTest)
             == SolutionTests(order[..i], modelTimeout, general, inSelfTest) + [SolutionWorks(order[i], current, inSelfTest)];
      r := r + [SolutionWorks(order[i], current, inSelfTest)];
      i := i + 1;
    }
    assert order[..i] == order;
  }

  /** The solutions `cms_test_suite` tests: those requested, or all
      configured ones when none are named. */
  function Requested(config: SuiteConfig, solutions: Option<seq<string>>): seq<string>
  {
    if solutions.None? then config.solutions else solutions.value
  }

  /** `cms_test_suite`. */
  method CmsTestSuite(config: SuiteConfig, solutions: Option<seq<string>>, timeout: Option<real>, defaultTimeout: real,
                      inSelfTest: bool, onlyNecessary: bool, strict: bool)
    returns (r: Result<seq<TestCase>, SuiteError>)
    ensures r.Err? <==> Requested(config, solutions) != [] && config.solutions == []
    ensures r.Ok? && Requested(config, solutions) == [] ==> r.value == Preamble(solutions, inSelfTest, onlyNecessary, strict)
    ensures r.Ok? && Requested(config, solutions) != [] ==>
              r.value == Preamble(solutions, inSelfTest, onlyNecessary, strict)
                         + SolutionTests(SolutionOrder(Requested(config, solutions), config.solutions[0]),
                                         ModelTimeout(timeout, config, defaultTimeout),
                                         GeneralTimeout(timeout, config, defaultTimeout), inSelfTest)
  {
    var general := if timeout.None? then OrElse(config.timeoutOtherSolutions, defaultTimeout) else timeout.value;
    var modelTimeout := OrElse(config.timeoutModelSolution, general);
    var suite := Preamble(solutions, inSelfTest, onlyNecessary, strict);
    var requested := if solutions.None? then config.solutions else solutions.value;
    if requested == [] {
      return Result.Ok(suite);
    }
    if config.solutions == [] {
      return Err(NoModelSolution);
    }
    if requested[0] != config.solutions[0] {
      requested := [config.solutions[0]] + requested;
    }
    suite := AddSolutions(suite, requested, modelTimeout, general, inSelfTest);
    return Result.Ok(suite);
  }
}
