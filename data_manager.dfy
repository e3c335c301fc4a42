/** The data manager of `pisek/task_jobs/data/data_manager.py`: it collects
    the static inputs and the generated ones, assigns them to the tests
    whose globs they match, checks that every test has an input and that
    the samples are static, reports inputs that are unused or missing from
    the last test, and creates the jobs that link the data into place. */
module DataManagerModel {
  import opened Common
  import opened Text

  /** The seed whose input file name decides test membership. */
  const TestSeed := 25265

  datatype GenerationMode = Static | Mixed | Generated

  /** A testcase: static (input and reference output given), mixed (input
      given, output computed) or generated; `repeat` counts its copies. */
  datatype TestcaseInfo = TestcaseInfo(name: string, mode: GenerationMode, repeat: nat, seeded: bool)

  function NameOf(info: TestcaseInfo): string
  {
    info.name
  }

  datatype TestSection = TestSection(num: int, name: string, checksValidate: bool)

  datatype Checks = Checks(noUnusedInputs: bool, allInputsInLastTest: bool, oneInputInEachNonsampleTest: bool)

  /** The configuration the manager reads. */
  datatype DataConfig = DataConfig(
    interactive: bool,
    inGen: bool,
    tests: seq<TestSection>,
    hasValidator: bool,
    checks: Checks,
    verbosity: int)

  /** Test sections are numbered 0 (the samples) to `tests_count - 1`, in
      that order. */
  predicate WellNumbered(tests: seq<TestSection>)
  {
    |tests| >= 1 && forall i :: 0 <= i < |tests| ==> tests[i].num == i
  }

  /** `LinkData` jobs: an input, or a reference output, put in place. */
  datatype Job = LinkInput(name: string) | LinkOutput(name: string)

  /** The PipelineItemFailure raised while assigning inputs. */
  datatype Failure = NoInputs(test: int) | SampleNotStatic(name: string, mode: GenerationMode)

  datatype Warning =
    | UnusedInputs(names: seq<string>)
    | UnusedInput(name: string, generated: bool)
    | NotIncludedInputs(names: seq<string>)
    | NotIncludedInput(name: string)
    | WrongCount(test: string, count: nat)
    | NoValidator

  // ---------------------------------------------------------------------------
  // Collecting testcases

  /** A static input `<name>.in` is static when the task is interactive or
      `<name>.out` exists, and mixed otherwise. */
  function StaticInfo(file: string, interactive: bool, files: set<string>): (info: TestcaseInfo)
    ensures info.name + ".in" == file || !EndsWith(file, ".in")
    ensures info.mode == Static <==> interactive || info.name + ".out" in files
    ensures info.mode != Generated
  {
    var name := RemoveSuffix(file, ".in");
    if interactive || name + ".out" in files then TestcaseInfo(name, Static, 1, false)
    else TestcaseInfo(name, Mixed, 1, false)
  }

  /** The loop over the static inputs. */
  method ClassifyStatic(inputs: seq<string>, interactive: bool, files: set<string>) returns (infos: seq<TestcaseInfo>)
    ensures |infos| == |inputs|
    ensures forall i :: 0 <= i < |inputs| ==> infos[i] == StaticInfo(inputs[i], interactive, files)
  {
    infos := [];
    var i := 0;
    while i < |inputs|
      invariant 0 <= i <= |inputs| && |infos| == i
      invariant forall k :: 0 <= k < i ==> infos[k] == StaticInfo(inputs[k], interactive, files)
    {
      var name := RemoveSuffix(inputs[i], ".in");
      if interactive || name + ".out" in files {
        infos := infos + [TestcaseInfo(name, Static, 1, false)];
      } else {
        infos := infos + [TestcaseInfo(name, Mixed, 1, false)];
      }
      i := i + 1;
    }
  }

  /** All testcases: the static ones and, when a generator is configured,
      the generated ones, sorted by name. */
  function AllInfos(inGen: bool, statics: seq<TestcaseInfo>, generated: seq<TestcaseInfo>): (r: seq<TestcaseInfo>)
    ensures multiset(r) == multiset(statics) + (if inGen then multiset(generated) else multiset{})
    ensures SortedBy(r, NameOf)
  {
    SortBy(statics + (if inGen then generated else []), NameOf)
  }

  // ---------------------------------------------------------------------------
  // Assigning testcases to tests

  /** The testcases of test `num`: those its globs accept, in the order of
      `all`. */
  function TestList(all: seq<TestcaseInfo>, num: int, inTest: (int, TestcaseInfo) -> bool): seq<TestcaseInfo>
  {
    Filter(all, (info: TestcaseInfo) => inTest(num, info))
  }

  /** Extending the testcases extends each test's list by the new one
      exactly when the test accepts it. */
  lemma TestListSnoc(all: seq<TestcaseInfo>, x: TestcaseInfo, num: int, inTest: (int, TestcaseInfo) -> bool)
    ensures TestList(all + [x], num, inTest) == TestList(all, num, inTest) + (if inTest(num, x) then [x] else [])
  {
    FilterAppend(all, [x], (info: TestcaseInfo) => inTest(num, info));
  }

  /** A test's list holds exactly the testcases its globs accept, sorted
      by name. */
  lemma TestListSpec(all: seq<TestcaseInfo>, num: int, inTest: (int, TestcaseInfo) -> bool, x: TestcaseInfo)
    requires SortedBy(all, NameOf)
    ensures SortedBy(TestList(all, num, inTest), NameOf)
    ensures x in TestList(all, num, inTest) <==> x in all && inTest(num, x)
  {
    FilterSortedBy(all, (info: TestcaseInfo) => inTest(num, info), NameOf);
    if x in all && inTest(num, x) {
      var k :| 0 <= k < |all| && all[k] == x;
    }
  }

  /** The first test (by position) that accepts no testcase. */
  function FirstEmpty(tests: seq<TestSection>, all: seq<TestcaseInfo>, inTest: (int, TestcaseInfo) -> bool): (r: Option<nat>)
    ensures r.Some? ==> r.value < |tests| && TestList(all, tests[r.value].num, inTest) == []
    ensures r.Some? ==> forall k :: 0 <= k < r.value ==> TestList(all, tests[k].num, inTest) != []
    ensures r.None? <==> forall k :: 0 <= k < |tests| ==> TestList(all, tests[k].num, inTest) != []
  {
    FirstEmptyFrom(tests, all, inTest, 0)
  }

  /** The first test from position `i` on that accepts no testcase. */
  function FirstEmptyFrom(tests: seq<TestSection>, all: seq<TestcaseInfo>, inTest: (int, TestcaseInfo) -> bool, i: nat): (r: Option<nat>)
    requires i <= |tests|
    ensures r.Some? ==> i <= r.value < |tests| && TestList(all, tests[r.value].num, inTest) == []
    ensures r.Some? ==> forall k :: i <= k < r.value ==> TestList(all, tests[k].num, inTest) != []
    ensures r.None? <==> forall k :: i <= k < |tests| ==> TestList(all, tests[k].num, inTest) != []
    decreases |tests| - i
  {
    if i == |tests| then None
    else if TestList(all, tests[i].num, inTest) == [] then Some(i)
    else FirstEmptyFrom(tests, all, inTest, i + 1)
  }

  /** The lists of the first `n` tests, keyed by test number. */
  function ListsUpTo(tests: seq<TestSection>, all: seq<TestcaseInfo>, inTest: (int, TestcaseInfo) -> bool, n: nat): map<int, seq<TestcaseInfo>>
    requires n <= |tests|
  {
    if n == 0 then map[]
    else ListsUpTo(tests, all, inTest, n - 1)[tests[n - 1].num := TestList(all, tests[n - 1].num, inTest)]
  }

  lemma {:induction false} ListsUpToAt(tests: seq<TestSection>, all: seq<TestcaseInfo>, inTest: (int, TestcaseInfo) -> bool, n: nat, k: nat)
    requires WellNumbered(tests) && k < n <= |tests|
    ensures k in ListsUpTo(tests, all, inTest, n)
    ensures ListsUpTo(tests, all, inTest, n)[k] == TestList(all, k, inTest)
  {
    if k < n - 1 {
      ListsUpToAt(tests, all, inTest, n - 1, k);
    }
  }

  lemma {:induction false} ListsUpToKeys(tests: seq<TestSection>, all: seq<TestcaseInfo>, inTest: (int, TestcaseInfo) -> bool, n: nat, key: int)
    requires WellNumbered(tests) && n <= |tests|
    ensures key in ListsUpTo(tests, all, inTest, n) <==> 0 <= key < n
  {
    if n > 0 {
      ListsUpToKeys(tests, all, inTest, n - 1, key);
    }
  }

  /** The loop over the tests: each test's list, failing at the first
      test without inputs. On failure `lists` holds the tests up to and
      including the failing one, as the dictionary does. */
  method AssignTests(tests: seq<TestSection>, all: seq<TestcaseInfo>, inTest: (int, TestcaseInfo) -> bool)
    returns (lists: map<int, seq<TestcaseInfo>>, failure: Option<Failure>)
    ensures failure.None? <==> FirstEmpty(tests, all, inTest).None?
    ensures failure.None? ==> lists == ListsUpTo(tests, all, inTest, |tests|)
    ensures failure.Some? ==> var k := FirstEmpty(tests, all, inTest).value;
      failure == Some(NoInputs(tests[k].num)) && lists == ListsUpTo(tests, all, inTest, k + 1)
  {
    lists := map[];
    var t := 0;
    while t < |tests|
      invariant 0 <= t <= |tests|
      invariant lists == ListsUpTo(tests, all, inTest, t)
      invariant forall k :: 0 <= k < t ==> TestList(all, tests[k].num, inTest) != []
    {
      var num := tests[t].num;
      var list := SelectFor(all, num, inTest);
      lists := lists[num := list];
      ListsUpToSnoc(tests, all, inTest, t);
      if |list| == 0 {
        assert FirstEmpty(tests, all, inTest) == Some(t);
        assert lists == ListsUpTo(tests, all, inTest, t + 1);
        return lists, Some(NoInputs(num));
      }
      t := t + 1;
    }
    return lists, None;
  }

  lemma ListsUpToSnoc(tests: seq<TestSection>, all: seq<TestcaseInfo>, inTest: (int, TestcaseInfo) -> bool, n: nat)
    requires n < |tests|
    ensures ListsUpTo(tests, all, inTest, n + 1)
            == ListsUpTo(tests, all, inTest, n)[tests[n].num := TestList(all, tests[n].num, inTest)]
  {
  }

  /** The inner loop: the testcases test `num` accepts, in order. */
  method SelectFor(all: seq<TestcaseInfo>, num: int, inTest: (int, TestcaseInfo) -> bool) returns (list: seq<TestcaseInfo>)
    ensures list == TestList(all, num, inTest)
  {
    list := [];
    var i := 0;
    while i < |all|
      invariant 0 <= i <= |all|
      invariant list == TestList(all[..i], num, inTest)
    {
      TestListSnoc(all[..i], all[i], num, inTest);
      assert all[..i + 1] == all[..i] + [all[i]];
      if inTest(num, all[i]) {
        list := list + [all[i]];
      }
      i := i + 1;
    }
    assert all[..|all|] == all;
  }

  /** The first sample testcase that is not static. */
  function FirstNonStatic(samples: seq<TestcaseInfo>): (r: Option<TestcaseInfo>)
    ensures r.Some? ==> r.value in samples && r.value.mode != Static
    ensures r.None? <==> forall i :: 0 <= i < |samples| ==> samples[i].mode == Static
  {
    if samples == [] then None
    else if samples[0].mode != Static then Some(samples[0])
    else FirstNonStatic(samples[1..])
  }

  method CheckSamples(samples: seq<TestcaseInfo>) returns (failure: Option<Failure>)
    ensures failure.None? <==> FirstNonStatic(samples).None?
    ensures failure.Some? ==> failure == Some(SampleNotStatic(FirstNonStatic(samples).value.name, FirstNonStatic(samples).value.mode))
  {
    var i := 0;
    while i < |samples|
      invariant 0 <= i <= |samples|
      invariant FirstNonStatic(samples) == FirstNonStatic(samples[i..])
    {
      assert samples[i..][0] == samples[i];
      if samples[i].mode != Static {
        return Some(SampleNotStatic(samples[i].name, samples[i].mode));
      }
      assert samples[i..][1..] == samples[i + 1..];
      i := i + 1;
    }
    return None;
  }

  // ---------------------------------------------------------------------------
  // Used, unused and not included inputs

  /** Every testcase of some test. */
  function UsedSet(lists: map<int, seq<TestcaseInfo>>): set<TestcaseInfo>
  {
    set n, x | n in lists && x in lists[n] :: x
  }

  /** Testcases of some test but not of the last one. */
  function NotIncluded(lists: map<int, seq<TestcaseInfo>>, last: int): set<TestcaseInfo>
  {
    UsedSet(lists) - (if last in lists then Elems(lists[last]) else {})
  }

  /** Testcases of no test. */
  function Unused(all: seq<TestcaseInfo>, lists: map<int, seq<TestcaseInfo>>): set<TestcaseInfo>
  {
    Elems(all) - UsedSet(lists)
  }

  function Names(infos: seq<TestcaseInfo>): (r: seq<string>)
    ensures |r| == |infos| && forall i :: 0 <= i < |infos| ==> r[i] == infos[i].name
  {
    seq(|infos|, i requires 0 <= i < |infos| => infos[i].name)
  }

  /** The warnings of `_report_unused_inputs` for the sorted inputs: none
      when the check is off or nothing is unused; otherwise one summary,
      or one warning per input when verbose. */
  function UnusedWarnings(sorted: seq<TestcaseInfo>, enabled: bool, verbosity: int): seq<Warning>
  {
    if !enabled || sorted == [] then []
    else if verbosity <= 0 then [UnusedInputs(Names(sorted))]
    else seq(|sorted|, i requires 0 <= i < |sorted| => UnusedInput(sorted[i].name, sorted[i].mode == Generated))
  }

  /** The warnings of `_report_not_included_inputs`, in the same shape. */
  function NotIncludedWarnings(sorted: seq<TestcaseInfo>, enabled: bool, verbosity: int): seq<Warning>
  {
    if !enabled || sorted == [] then []
    else if verbosity <= 0 then [NotIncludedInputs(Names(sorted))]
    else seq(|sorted|, i requires 0 <= i < |sorted| => NotIncludedInput(sorted[i].name))
  }

  /** A report is made exactly when its check is on and its set is not
      empty; a verbose report has one warning per input of the set, and
      a summary names each of them once. */
  lemma ReportSpec(sorted: seq<TestcaseInfo>, s: set<TestcaseInfo>, enabled: bool, verbosity: int)
    requires multiset(sorted) == multiset(s)
    ensures UnusedWarnings(sorted, enabled, verbosity) != [] <==> enabled && s != {}
    ensures NotIncludedWarnings(sorted, enabled, verbosity) != [] <==> enabled && s != {}
    ensures enabled && verbosity > 0 ==> |UnusedWarnings(sorted, enabled, verbosity)| == |s|
    ensures enabled && verbosity > 0 ==> |NotIncludedWarnings(sorted, enabled, verbosity)| == |s|
    ensures enabled && verbosity <= 0 && s != {} ==>
      UnusedWarnings(sorted, enabled, verbosity) == [UnusedInputs(Names(sorted))] && |Names(sorted)| == |s|
  {
    assert |multiset(sorted)| == |sorted|;
    assert |multiset(s)| == |s|;
  }

  /** `_report_unused_inputs`, given the inputs sorted by name. */
  method ReportUnused(inputs: seq<TestcaseInfo>, enabled: bool, verbosity: int) returns (ws: seq<Warning>)
    ensures ws == UnusedWarnings(inputs, enabled, verbosity)
  {
    ws := [];
    if enabled && |inputs| > 0 {
      if verbosity <= 0 {
        ws := [UnusedInputs(Names(inputs))];
      } else {
        var i := 0;
        while i < |inputs|
          invariant 0 <= i <= |inputs| && |ws| == i
          invariant forall k :: 0 <= k < i ==> ws[k] == UnusedInput(inputs[k].name, inputs[k].mode == Generated)
        {
          ws := ws + [UnusedInput(inputs[i].name, inputs[i].mode == Generated)];
          i := i + 1;
        }
      }
    }
  }

  /** `_report_not_included_inputs`, given the inputs sorted by name. */
  method ReportNotIncluded(inputs: seq<TestcaseInfo>, enabled: bool, verbosity: int) returns (ws: seq<Warning>)
    ensures ws == NotIncludedWarnings(inputs, enabled, verbosity)
  {
    ws := [];
    if enabled && |inputs| > 0 {
      if verbosity <= 0 {
        ws := [NotIncludedInputs(Names(inputs))];
      } else {
        var i := 0;
        while i < |inputs|
          invariant 0 <= i <= |inputs| && |ws| == i
          invariant forall k :: 0 <= k < i ==> ws[k] == NotIncludedInput(inputs[k].name)
        {
          ws := ws + [NotIncludedInput(inputs[i].name)];
          i := i + 1;
        }
      }
    }
  }

  // ---------------------------------------------------------------------------
  // One input per test

  function SumRepeat(infos: seq<TestcaseInfo>): nat
  {
    if infos == [] then 0 else infos[0].repeat + SumRepeat(infos[1..])
  }

  lemma {:induction false} SumRepeatSnoc(infos: seq<TestcaseInfo>, x: TestcaseInfo)
    ensures SumRepeat(infos + [x]) == SumRepeat(infos) + x.repeat
  {
    if infos != [] {
      assert (infos + [x])[1..] == infos[1..] + [x];
      SumRepeatSnoc(infos[1..], x);
    }
  }

  /** The copies of a list's testcases, counted in a loop. */
  method CountRepeat(testcases: seq<TestcaseInfo>) returns (cnt: nat)
    ensures cnt == SumRepeat(testcases)
  {
    cnt := 0;
    var i := 0;
    while i < |testcases|
      invariant 0 <= i <= |testcases| && cnt == SumRepeat(testcases[..i])
    {
      SumRepeatSnoc(testcases[..i], testcases[i]);
      assert testcases[..i + 1] == testcases[..i] + [testcases[i]];
      cnt := cnt + testcases[i].repeat;
      i := i + 1;
    }
    assert testcases[..|testcases|] == testcases;
  }

  /** The warnings of `_check_one_input_in_nonsample_test` for the tests
      from `from` on: every non-sample test whose copies do not add up to
      one. */
  function CountWarnings(tests: seq<TestSection>, lists: map<int, seq<TestcaseInfo>>, from: nat): seq<Warning>
    requires forall k :: 0 <= k < |tests| ==> tests[k].num in lists
    decreases |tests| - from
  {
    if from >= |tests| then []
    else
      var t := tests[from];
      var cnt := SumRepeat(lists[t.num]);
      (if t.num != 0 && cnt != 1 then [WrongCount(t.name, cnt)] else []) + CountWarnings(tests, lists, from + 1)
  }

  /** A test gets a warning exactly when it is not the samples and its
      copies do not add up to one. */
  lemma {:induction false} CountWarningsSpec(tests: seq<TestSection>, lists: map<int, seq<TestcaseInfo>>, from: nat, name: string, cnt: nat)
    requires forall k :: 0 <= k < |tests| ==> tests[k].num in lists
    ensures WrongCount(name, cnt) in CountWarnings(tests, lists, from) <==>
      exists k :: from <= k < |tests| && tests[k].name == name && tests[k].num != 0
        && cnt == SumRepeat(lists[tests[k].num]) && cnt != 1
    decreases |tests| - from
  {
    if from < |tests| {
      var t := tests[from];
      var here := if t.num != 0 && SumRepeat(lists[t.num]) != 1 then [WrongCount(t.name, SumRepeat(lists[t.num]))] else [];
      var rest := CountWarnings(tests, lists, from + 1);
      assert CountWarnings(tests, lists, from) == here + rest;
      CountWarningsSpec(tests, lists, from + 1, name, cnt);
      var w := WrongCount(name, cnt);
      if w in here {
        assert from <= from < |tests| && tests[from].name == name && tests[from].num != 0
          && cnt == SumRepeat(lists[tests[from].num]) && cnt != 1;
      }
      if exists k :: from <= k < |tests| && tests[k].name == name && tests[k].num != 0
           && cnt == SumRepeat(lists[tests[k].num]) && cnt != 1 {
        var k :| from <= k < |tests| && tests[k].name == name && tests[k].num != 0
           && cnt == SumRepeat(lists[tests[k].num]) && cnt != 1;
        if k == from {
          assert w in here;
        }
      }
    }
  }

  method CheckOneInput(tests: seq<TestSection>, lists: map<int, seq<TestcaseInfo>>, enabled: bool) returns (ws: seq<Warning>)
    requires forall k :: 0 <= k < |tests| ==> tests[k].num in lists
    ensures ws == if enabled then CountWarnings(tests, lists, 0) else []
  {
    ws := [];
    if !enabled {
      return;
    }
    var t := 0;
    while t < |tests|
      invariant 0 <= t <= |tests|
      invariant ws + CountWarnings(tests, lists, t) == CountWarnings(tests, lists, 0)
    {
      var num := tests[t].num;
      if num != 0 {
        var cnt := CountRepeat(lists[num]);
        if cnt != 1 {
          ws := ws + [WrongCount(tests[t].name, cnt)];
        }
      }
      t := t + 1;
    }
  }

  // ---------------------------------------------------------------------------
  // Jobs

  /** The jobs of one testcase: an input link for a static or mixed
      testcase, then a reference-output link for a static one unless the
      task is interactive. */
  function JobsOf(x: TestcaseInfo, interactive: bool): seq<Job>
  {
    (if x.mode == Static || x.mode == Mixed then [LinkInput(x.name)] else [])
    + (if x.mode == Static && !interactive then [LinkOutput(x.name)] else [])
  }

  /** The jobs for testcases in the given order. */
  function JobsFor(infos: seq<TestcaseInfo>, interactive: bool): seq<Job>
  {
    if infos == [] then [] else JobsOf(infos[0], interactive) + JobsFor(infos[1..], interactive)
  }

  lemma {:induction false} JobsForSnoc(infos: seq<TestcaseInfo>, x: TestcaseInfo, interactive: bool)
    ensures JobsFor(infos + [x], interactive) == JobsFor(infos, interactive) + JobsOf(x, interactive)
  {
    if infos == [] {
      assert JobsFor([x], interactive) == JobsOf(x, interactive) + JobsFor([], interactive);
    } else {
      assert (infos + [x])[1..] == infos[1..] + [x];
      JobsForSnoc(infos[1..], x, interactive);
    }
  }

  /** An input is linked exactly for a static or mixed testcase, a
      reference output exactly for a static testcase of a non-interactive
      task; generated testcases get no job here. */
  lemma JobsForSpec(infos: seq<TestcaseInfo>, interactive: bool, name: string)
    ensures LinkInput(name) in JobsFor(infos, interactive) <==>
      exists i :: 0 <= i < |infos| && infos[i].name == name && infos[i].mode != Generated
    ensures LinkOutput(name) in JobsFor(infos, interactive) <==>
      !interactive && exists i :: 0 <= i < |infos| && infos[i].name == name && infos[i].mode == Static
  {
    LinkInputSpec(infos, interactive, name);
    LinkOutputSpec(infos, interactive, name);
  }

  lemma {:induction false} LinkInputSpec(infos: seq<TestcaseInfo>, interactive: bool, name: string)
    ensures LinkInput(name) in JobsFor(infos, interactive) <==>
      exists i :: 0 <= i < |infos| && infos[i].name == name && infos[i].mode != Generated
  {
    if infos != [] {
      var rest := infos[1..];
      LinkInputSpec(rest, interactive, name);
      assert LinkInput(name) in JobsOf(infos[0], interactive) <==> infos[0].name == name && infos[0].mode != Generated;
      if exists i :: 0 <= i < |rest| && rest[i].name == name && rest[i].mode != Generated {
        var i :| 0 <= i < |rest| && rest[i].name == name && rest[i].mode != Generated;
        assert infos[i + 1] == rest[i];
      }
      if exists i :: 0 <= i < |infos| && infos[i].name == name && infos[i].mode != Generated {
        var i :| 0 <= i < |infos| && infos[i].name == name && infos[i].mode != Generated;
        if i > 0 {
          assert rest[i - 1] == infos[i];
        }
      }
    }
  }

  lemma {:induction false} LinkOutputSpec(infos: seq<TestcaseInfo>, interactive: bool, name: string)
    ensures LinkOutput(name) in JobsFor(infos, interactive) <==>
      !interactive && exists i :: 0 <= i < |infos| && infos[i].name == name && infos[i].mode == Static
  {
    if infos != [] {
      var rest := infos[1..];
      LinkOutputSpec(rest, interactive, name);
      assert LinkOutput(name) in JobsOf(infos[0], interactive) <==>
        infos[0].name == name && infos[0].mode == Static && !interactive;
      if exists i :: 0 <= i < |rest| && rest[i].name == name && rest[i].mode == Static {
        var i :| 0 <= i < |rest| && rest[i].name == name && rest[i].mode == Static;
        assert infos[i + 1] == rest[i];
      }
      if exists i :: 0 <= i < |infos| && infos[i].name == name && infos[i].mode == Static {
        var i :| 0 <= i < |infos| && infos[i].name == name && infos[i].mode == Static;
        if i > 0 {
          assert rest[i - 1] == infos[i];
        }
      }
    }
  }

  /** Each testcase contributes at most two jobs. */
  lemma {:induction false} JobsForLength(infos: seq<TestcaseInfo>, interactive: bool)
    ensures |JobsFor(infos, interactive)| <= 2 * |infos|
    ensures interactive ==> |JobsFor(infos, interactive)| <= |infos|
  {
    if infos != [] {
      JobsForLength(infos[1..], interactive);
    }
  }

  method BuildJobs(sorted: seq<TestcaseInfo>, interactive: bool) returns (jobs: seq<Job>)
    ensures jobs == JobsFor(sorted, interactive)
  {
    jobs := [];
    var i := 0;
    while i < |sorted|
      invariant 0 <= i <= |sorted|
      invariant jobs == JobsFor(sorted[..i], interactive)
    {
      var tc := sorted[i];
      JobsForSnoc(sorted[..i], tc, interactive);
      assert sorted[..i + 1] == sorted[..i] + [tc];
      if tc.mode == Static || tc.mode == Mixed {
        jobs := jobs + [LinkInput(tc.name)];
      }
      if tc.mode == Static && !interactive {
        jobs := jobs + [LinkOutput(tc.name)];
      }
      i := i + 1;
    }
    assert sorted[..|sorted|] == sorted;
  }

  /** The validator warning: no validator while some test validates. */
  function ValidatorWarnings(hasValidator: bool, tests: seq<TestSection>): (r: seq<Warning>)
    ensures r == [NoValidator] <==> !hasValidator && exists k :: 0 <= k < |tests| && tests[k].checksValidate
    ensures r == [] || r == [NoValidator]
  {
    if !hasValidator && exists k :: 0 <= k < |tests| && tests[k].checksValidate then [NoValidator] else []
  }

  // ---------------------------------------------------------------------------
  // Putting it together

  function StaticInfos(inputs: seq<string>, interactive: bool, files: set<string>): (r: seq<TestcaseInfo>)
    ensures |r| == |inputs| && forall i :: 0 <= i < |inputs| ==> r[i] == StaticInfo(inputs[i], interactive, files)
  {
    seq(|inputs|, i requires 0 <= i < |inputs| => StaticInfo(inputs[i], interactive, files))
  }

  /** `seq` is `set` in name order. */
  ghost predicate SortedOf(sorted: seq<TestcaseInfo>, s: set<TestcaseInfo>)
  {
    multiset(sorted) == multiset(s) && SortedBy(sorted, NameOf)
  }

  /** What the data step produces once every test has inputs and the
      samples are static: the jobs of the used testcases in name order,
      and the reports of the not-included and unused inputs, the count
      check and the validator warning, in that order. */
  ghost predicate Finished(cfg: DataConfig, all: seq<TestcaseInfo>, lists: map<int, seq<TestcaseInfo>>,
                           jobs: seq<Job>, ws: seq<Warning>)
    requires forall k :: 0 <= k < |cfg.tests| ==> cfg.tests[k].num in lists
  {
    && (exists used :: SortedOf(used, UsedSet(lists)) && jobs == JobsFor(used, cfg.interactive))
    && (exists notIncluded, unused :: SortedOf(notIncluded, NotIncluded(lists, |cfg.tests| - 1))
         && SortedOf(unused, Unused(all, lists))
         && ws == NotIncludedWarnings(notIncluded, cfg.checks.allInputsInLastTest, cfg.verbosity)
           + UnusedWarnings(unused, cfg.checks.noUnusedInputs, cfg.verbosity)
           + (if cfg.checks.oneInputInEachNonsampleTest then CountWarnings(cfg.tests, lists, 0) else [])
           + ValidatorWarnings(cfg.hasValidator, cfg.tests))
  }

  /** The finished step links an input exactly for each used static or
      mixed testcase, and a reference output exactly for each used static
      testcase of a non-interactive task. */
  lemma FinishedJobs(cfg: DataConfig, all: seq<TestcaseInfo>, lists: map<int, seq<TestcaseInfo>>,
                     jobs: seq<Job>, ws: seq<Warning>, name: string)
    requires forall k :: 0 <= k < |cfg.tests| ==> cfg.tests[k].num in lists
    requires Finished(cfg, all, lists, jobs, ws)
    ensures LinkInput(name) in jobs <==> exists x :: x in UsedSet(lists) && x.name == name && x.mode != Generated
    ensures LinkOutput(name) in jobs <==>
      !cfg.interactive && exists x :: x in UsedSet(lists) && x.name == name && x.mode == Static
  {
    var used :| SortedOf(used, UsedSet(lists)) && jobs == JobsFor(used, cfg.interactive);
    JobsForSpec(used, cfg.interactive, name);
    forall x | x in UsedSet(lists)
      ensures exists i :: 0 <= i < |used| && used[i] == x
    {
      assert x in multiset(used);
    }
    forall i | 0 <= i < |used|
      ensures used[i] in UsedSet(lists)
    {
      assert used[i] in multiset(UsedSet(lists));
    }
  }

  /** The part of `_get_jobs` after the inputs are assigned. */
  method Finish(cfg: DataConfig, all: seq<TestcaseInfo>, lists: map<int, seq<TestcaseInfo>>)
    returns (jobs: seq<Job>, ws: seq<Warning>)
    requires forall k :: 0 <= k < |cfg.tests| ==> cfg.tests[k].num in lists
    ensures Finished(cfg, all, lists, jobs, ws)
  {
    var used := UsedSet(lists);
    var last := |cfg.tests| - 1;
    var notIncluded := SortSetBy(used - (if last in lists then Elems(lists[last]) else {}), NameOf);
    var w1 := ReportNotIncluded(notIncluded, cfg.checks.allInputsInLastTest, cfg.verbosity);
    var unused := SortSetBy(Elems(all) - used, NameOf);
    var w2 := ReportUnused(unused, cfg.checks.noUnusedInputs, cfg.verbosity);
    var w3 := CheckOneInput(cfg.tests, lists, cfg.checks.oneInputInEachNonsampleTest);
    var sorted := SortSetBy(used, NameOf);
    jobs := BuildJobs(sorted, cfg.interactive);
    ws := w1 + w2 + w3 + ValidatorWarnings(cfg.hasValidator, cfg.tests);
    assert SortedOf(sorted, UsedSet(lists));
    assert SortedOf(notIncluded, NotIncluded(lists, last));
    assert SortedOf(unused, Unused(all, lists));
  }

  /** The outcome of `_get_jobs` for the sorted testcases `all`: the
      first test without inputs fails, then a non-static sample fails,
      and otherwise the step finishes; `infos` is the test-to-testcases
      dictionary as far as it was filled. */
  ghost predicate Planned(cfg: DataConfig, all: seq<TestcaseInfo>, inTest: (int, TestcaseInfo) -> bool,
                          infos: map<int, seq<TestcaseInfo>>, r: Result<seq<Job>, Failure>, ws: seq<Warning>)
    requires WellNumbered(cfg.tests)
  {
    match FirstEmpty(cfg.tests, all, inTest)
    case Some(k) =>
      r == Err(NoInputs(cfg.tests[k].num)) && infos == ListsUpTo(cfg.tests, all, inTest, k + 1) && ws == []
    case None =>
      && infos == ListsUpTo(cfg.tests, all, inTest, |cfg.tests|)
      && 0 in infos
      && match FirstNonStatic(infos[0])
         case Some(x) => r == Err(SampleNotStatic(x.name, x.mode)) && ws == []
         case None =>
           && r.Ok?
           && (forall k :: 0 <= k < |cfg.tests| ==> cfg.tests[k].num in infos)
           && Finished(cfg, all, infos, r.value, ws)
  }

  method Plan(cfg: DataConfig, all: seq<TestcaseInfo>, inTest: (int, TestcaseInfo) -> bool)
    returns (infos: map<int, seq<TestcaseInfo>>, r: Result<seq<Job>, Failure>, ws: seq<Warning>)
    requires WellNumbered(cfg.tests)
    ensures Planned(cfg, all, inTest, infos, r, ws)
  {
    var failure;
    infos, failure := AssignTests(cfg.tests, all, inTest);
    ws := [];
    if failure.Some? {
      return infos, Err(failure.value), ws;
    }
    ListsUpToAt(cfg.tests, all, inTest, |cfg.tests|, 0);
    var sampleFailure := CheckSamples(infos[0]);
    if sampleFailure.Some? {
      return infos, Err(sampleFailure.value), ws;
    }
    forall k | 0 <= k < |cfg.tests|
      ensures cfg.tests[k].num in infos
    {
      ListsUpToKeys(cfg.tests, all, inTest, |cfg.tests|, k);
    }
    var jobs;
    jobs, ws := Finish(cfg, all, infos);
    r := Ok(jobs);
  }

  /** The static and generated testcases, sorted by name. */
  function AllOf(cfg: DataConfig, staticInputs: seq<string>, files: set<string>, generated: seq<TestcaseInfo>): seq<TestcaseInfo>
  {
    AllInfos(cfg.inGen, StaticInfos(staticInputs, cfg.interactive, files), generated)
  }

  /** The first half of `_get_jobs`: classify the static inputs, add the
      generated ones, sort by name. */
  method Collect(cfg: DataConfig, staticInputs: seq<string>, files: set<string>, generated: seq<TestcaseInfo>)
    returns (all: seq<TestcaseInfo>)
    ensures all == AllOf(cfg, staticInputs, files, generated)
  {
    var statics := ClassifyStatic(staticInputs, cfg.interactive, files);
    assert statics == StaticInfos(staticInputs, cfg.interactive, files);
    all := SortBy(statics + (if cfg.inGen then generated else []), NameOf);
  }

  class DataManager {
    /** `_testcase_infos`: the testcases of each test, by test number. */
    var testcaseInfos: map<int, seq<TestcaseInfo>>
    /** The warnings issued so far. */
    var warnings: seq<Warning>

    constructor()
      ensures testcaseInfos == map[] && warnings == []
    {
      testcaseInfos := map[];
      warnings := [];
    }

    /** `_get_jobs`. `staticInputs` are the `*.in` files of the static
        directory, `files` every file there; `generated` is what the
        generator manager produced; `inTest(n, tc)` says whether the
        globs of test `n` accept the input file of `tc` under the test
        seed. */
    method GetJobs(cfg: DataConfig, staticInputs: seq<string>, files: set<string>,
                   generated: seq<TestcaseInfo>, inTest: (int, TestcaseInfo) -> bool)
      returns (r: Result<seq<Job>, Failure>)
      requires WellNumbered(cfg.tests)
      modifies this
      ensures exists ws :: (warnings == old(warnings) + ws
        && Planned(cfg, AllOf(cfg, staticInputs, files, generated), inTest, testcaseInfos, r, ws))
    {
      var all := Collect(cfg, staticInputs, files, generated);
      var infos, ws;
      infos, r, ws := Plan(cfg, all, inTest);
      testcaseInfos := infos;
      warnings := warnings + ws;
      assert warnings == old(warnings) + ws && Planned(cfg, all, inTest, testcaseInfos, r, ws);
    }

    /** `_compute_result`: the dictionary built by `GetJobs`. */
    function ComputeResult(): map<int, seq<TestcaseInfo>>
      reads this
    {
      testcaseInfos
    }
  }
}
