/** The checker manager of the older job API (`pisek/jobs/parts/checker.py`):
    the task's checker, which accepts an input only if it is valid for a
    subtask, is run on every input of its subtask, expecting success, and
    on the new inputs of each subtask against every predecessor subtask,
    where it ought to reject them ("loose" checks). */
module PartsCheckerModel {
  import opened Common
  import RR = RunResults
  import JP = JobPipelineModel

  /** A subtask as the manager sees it: its key, all its inputs, the inputs
      it adds over its predecessors, and the keys of its predecessors. */
  datatype Subtask = Subtask(num: string, inputs: seq<string>, newInputs: seq<string>, predecessors: seq<string>)

  /** The settings `_get_jobs` reads: the checker program, strict mode, the
      `no_checker` switch. */
  datatype CheckerConfig = CheckerConfig(checker: Option<string>, strict: bool, noChecker: bool)

  /** A run of the checker on one input, with the subtask it is told to
      check against and the run result it must end with, if any. */
  datatype CheckerJob = CheckerJob(inputName: string, subtask: string, expected: Option<RR.RunResultKind>)

  datatype PJob = Compile(program: string) | Check(checker: string, job: CheckerJob)

  /** Job `from` waits for job `on`. */
  datatype Dependency = Dependency(from: nat, on: nat)

  /** Why checking is skipped; either way the manager plans nothing. */
  datatype SkipReason = NoCheckerWarning | SkippingChecking

  /** The failures the manager reports. */
  datatype LooseError =
    | NotStrictAll(num: string, pred: string, input: string)
    | NotStrictAny(num: string, pred: string)
    | CheckerTimeout(input: string, num: string)

  datatype ManagerFailure = NoCheckerSpecified | NotStrictEnough(error: LooseError)

  /** The `RuntimeError` for a loose job that has not finished. */
  datatype Unfinished = Unfinished(job: CheckerJob)

  /** `LooseCheckJobGroup`: for each predecessor, in the order it was first
      met, the checks of the subtask's new inputs against it. */
  datatype LooseGroup = LooseGroup(num: string, order: seq<string>, jobs: map<string, seq<CheckerJob>>)

  predicate GroupValid(g: LooseGroup)
  {
    forall k :: 0 <= k < |g.order| ==> g.order[k] in g.jobs
  }

  // ---------------------------------------------------------------------------
  // The planned jobs

  /** The checks of `inputs` against `subtask`, in order. */
  function ChecksOf(inputs: seq<string>, subtask: string, expected: Option<RR.RunResultKind>): (r: seq<CheckerJob>)
    ensures |r| == |inputs|
    ensures forall i :: 0 <= i < |r| ==> r[i] == CheckerJob(inputs[i], subtask, expected)
  {
    if inputs == [] then [] else ChecksOf(inputs[..|inputs| - 1], subtask, expected) + [CheckerJob(inputs[|inputs| - 1], subtask, expected)]
  }

  function AsJobs(checker: string, checks: seq<CheckerJob>): (r: seq<PJob>)
    ensures |r| == |checks|
    ensures forall i :: 0 <= i < |r| ==> r[i] == Check(checker, checks[i])
  {
    if checks == [] then [] else AsJobs(checker, checks[..|checks| - 1]) + [Check(checker, checks[|checks| - 1])]
  }

  /** The loose checks of `newInputs` against each predecessor in turn. */
  function PredecessorChecks(preds: seq<string>, newInputs: seq<string>): seq<CheckerJob>
  {
    if preds == [] then []
    else PredecessorChecks(preds[..|preds| - 1], newInputs) + ChecksOf(newInputs, preds[|preds| - 1], None)
  }

  /** The checks planned for one subtask: none for the samples ("0"). */
  function SubtaskChecks(sub: Subtask): seq<CheckerJob>
  {
    if sub.num == "0" then []
    else ChecksOf(sub.inputs, sub.num, Some(RR.Ok)) + PredecessorChecks(sub.predecessors, sub.newInputs)
  }

  function PlannedChecks(subs: seq<Subtask>): seq<CheckerJob>
  {
    if subs == [] then [] else PlannedChecks(subs[..|subs| - 1]) + SubtaskChecks(subs[|subs| - 1])
  }

  /** The loose group of a subtask that has predecessors. */
  function GroupOf(sub: Subtask): LooseGroup
  {
    LooseGroup(sub.num, Dedupe(sub.predecessors), map p | p in sub.predecessors :: ChecksOf(sub.newInputs, p, None))
  }

  function PlannedGroups(subs: seq<Subtask>): seq<LooseGroup>
  {
    if subs == [] then []
    else
      var last := subs[|subs| - 1];
      PlannedGroups(subs[..|subs| - 1]) + (if last.num != "0" && last.predecessors != [] then [GroupOf(last)] else [])
  }

  /** Every job after the first, the compile, waits for it. */
  predicate AllOnCompile(deps: seq<Dependency>, n: nat)
  {
    |deps| + 1 == n && forall i :: 0 <= i < |deps| ==> deps[i] == Dependency(i + 1, 0)
  }

  /** `PredecessorChecks` holds, for each predecessor, the checks of every
      new input against it and expects nothing of them. */
  lemma {:induction false} PredecessorChecksMembers(preds: seq<string>, newInputs: seq<string>, j: CheckerJob)
    ensures j in PredecessorChecks(preds, newInputs) <==> j.expected.None? && j.subtask in preds && j.inputName in newInputs
  {
    if preds != [] {
      var init := preds[..|preds| - 1];
      var last := preds[|preds| - 1];
      PredecessorChecksMembers(init, newInputs, j);
      assert preds == init + [last];
      var c := ChecksOf(newInputs, last, None);
      if j in c {
        var i :| 0 <= i < |c| && c[i] == j;
      }
      if j.expected.None? && j.subtask == last && j.inputName in newInputs {
        var i :| 0 <= i < |newInputs| && newInputs[i] == j.inputName;
        assert c[i] == j;
      }
    }
  }

  /** The planned checks: for every subtask but the samples, each of its
      inputs expecting OK, and each new input against each predecessor
      expecting nothing; nothing else. */
  lemma PlannedChecksMembers(subs: seq<Subtask>, j: CheckerJob)
    ensures j in PlannedChecks(subs) <==>
              exists k :: 0 <= k < |subs| && subs[k].num != "0" && j in SubtaskChecks(subs[k])
    ensures j in PlannedChecks(subs) && j.expected == Some(RR.Ok) ==>
              exists k :: 0 <= k < |subs| && subs[k].num != "0" && subs[k].num == j.subtask && j.inputName in subs[k].inputs
  {
    PlannedChecksIn(subs, j);
    if j in PlannedChecks(subs) && j.expected == Some(RR.Ok) {
      var k :| 0 <= k < |subs| && subs[k].num != "0" && j in SubtaskChecks(subs[k]);
      SubtaskOkCheck(subs[k], j);
    }
  }

  lemma {:induction false} PlannedChecksIn(subs: seq<Subtask>, j: CheckerJob)
    ensures j in PlannedChecks(subs) <==>
              exists k :: 0 <= k < |subs| && subs[k].num != "0" && j in SubtaskChecks(subs[k])
  {
    if subs != [] {
      var init := subs[..|subs| - 1];
      var last := subs[|subs| - 1];
      PlannedChecksIn(init, j);
      assert PlannedChecks(subs) == PlannedChecks(init) + SubtaskChecks(last);
      if j in PlannedChecks(init) {
        var k :| 0 <= k < |init| && init[k].num != "0" && j in SubtaskChecks(init[k]);
        assert subs[k] == init[k];
      } else if j in SubtaskChecks(last) {
        assert subs[|subs| - 1].num != "0" && j in SubtaskChecks(subs[|subs| - 1]);
      }
      if exists k :: 0 <= k < |subs| && subs[k].num != "0" && j in SubtaskChecks(subs[k]) {
        var k :| 0 <= k < |subs| && subs[k].num != "0" && j in SubtaskChecks(subs[k]);
        if k < |subs| - 1 {
          assert init[k] == subs[k];
        }
      }
    }
  }

  /** A check of a subtask expecting OK is one of its own inputs. */
  lemma SubtaskOkCheck(sub: Subtask, j: CheckerJob)
    requires j in SubtaskChecks(sub) && j.expected == Some(RR.Ok)
    ensures sub.num == j.subtask && j.inputName in sub.inputs
  {
    PredecessorChecksMembers(sub.predecessors, sub.newInputs, j);
    var c := ChecksOf(sub.inputs, sub.num, Some(RR.Ok));
    assert j in c;
    var i :| 0 <= i < |c| && c[i] == j;
  }

  /** A loose group lists each predecessor once, in the order first met,
      and for each the checks of all the subtask's new inputs. */
  lemma GroupOfSpec(sub: Subtask)
    ensures GroupValid(GroupOf(sub)) && NoDups(GroupOf(sub).order)
    ensures forall p :: p in GroupOf(sub).jobs <==> p in sub.predecessors
    ensures forall p :: p in GroupOf(sub).jobs ==>
              (|GroupOf(sub).jobs[p]| == |sub.newInputs|
               && forall i :: 0 <= i < |sub.newInputs| ==> GroupOf(sub).jobs[p][i] == CheckerJob(sub.newInputs[i], p, None))
  {
  }

  // ---------------------------------------------------------------------------
  // Judging the loose checks

  /** The result kind of each job of a predecessor; an unfinished job is a
      `RuntimeError`, raised for the first one. */
  function ResultKinds(jobs: seq<CheckerJob>, resultOf: CheckerJob -> Option<RR.RunResultKind>)
    : (r: Result<seq<RR.RunResultKind>, Unfinished>)
    ensures r.Ok? <==> forall i :: 0 <= i < |jobs| ==> resultOf(jobs[i]).Some?
    ensures r.Ok? ==> |r.value| == |jobs| && forall i :: 0 <= i < |jobs| ==> resultOf(jobs[i]) == Some(r.value[i])
    ensures r.Err? ==> exists i :: 0 <= i < |jobs| && r.error == Unfinished(jobs[i]) && resultOf(jobs[i]).None?
                                   && forall j :: 0 <= j < i ==> resultOf(jobs[j]).Some?
  {
    if jobs == [] then Result.Ok([])
    else match resultOf(jobs[0])
      case None => Err(Unfinished(jobs[0]))
      case Some(k) =>
        match ResultKinds(jobs[1..], resultOf)
        case Err(e) => Err(e)
        case Ok(rest) => Result.Ok([k] + rest)
  }

  /** The verdict on one predecessor: in "all" mode the checker must reject
      every new input, in "any" mode at least one; a timeout is an error in
      any mode. */
  function PredecessorVerdict(num: string, pred: string, failMode: string, jobs: seq<CheckerJob>, kinds: seq<RR.RunResultKind>)
    : (r: Option<LooseError>)
    requires |jobs| == |kinds|
    ensures r.None? <==> (failMode == "all" ==> RR.Ok !in kinds) && (failMode == "any" ==> RR.RuntimeError in kinds)
                         && RR.Timeout !in kinds
    ensures failMode == "all" && RR.Ok in kinds ==> r.Some? && r.value.NotStrictAll?
    ensures r.Some? && r.value.NotStrictAll? ==>
              r.value.pred == pred && exists i :: 0 <= i < |kinds| && kinds[i] == RR.Ok && r.value.input == jobs[i].inputName
                                                 && forall j :: 0 <= j < i ==> kinds[j] != RR.Ok
    ensures r.Some? && r.value.CheckerTimeout? ==>
              exists i :: 0 <= i < |kinds| && kinds[i] == RR.Timeout && r.value.input == jobs[i].inputName
                          && forall j :: 0 <= j < i ==> kinds[j] != RR.Timeout
  {
    if failMode == "all" && RR.Ok in kinds then Some(NotStrictAll(num, pred, jobs[FirstIndex(kinds, RR.Ok)].inputName))
    else if failMode == "any" && RR.RuntimeError !in kinds then Some(NotStrictAny(num, pred))
    else if RR.Timeout in kinds then Some(CheckerTimeout(jobs[FirstIndex(kinds, RR.Timeout)].inputName, num))
    else None
  }

  /** What one predecessor contributes to `failed`. */
  function PredecessorOutcome(g: LooseGroup, pred: string, failMode: string, resultOf: CheckerJob -> Option<RR.RunResultKind>)
    : Result<Option<LooseError>, Unfinished>
    requires pred in g.jobs
  {
    match ResultKinds(g.jobs[pred], resultOf)
    case Err(e) => Err(e)
    case Ok(kinds) => Result.Ok(PredecessorVerdict(g.num, pred, failMode, g.jobs[pred], kinds))
  }

  /** `LooseCheckJobGroup.failed`, from the `k`-th predecessor on: the
      outcome of the first predecessor that has something to report. */
  function FailedFrom(g: LooseGroup, failMode: string, resultOf: CheckerJob -> Option<RR.RunResultKind>, k: nat)
    : (r: Result<Option<LooseError>, Unfinished>)
    requires GroupValid(g) && k <= |g.order|
    ensures r == Result.Ok(None) <==>
              forall i :: k <= i < |g.order| ==> PredecessorOutcome(g, g.order[i], failMode, resultOf) == Result.Ok(None)
    ensures r != Result.Ok(None) ==>
              exists i :: k <= i < |g.order| && r == PredecessorOutcome(g, g.order[i], failMode, resultOf)
                          && forall j :: k <= j < i ==> PredecessorOutcome(g, g.order[j], failMode, resultOf) == Result.Ok(None)
    decreases |g.order| - k
  {
    if k == |g.order| then Result.Ok(None)
    else
      var o := PredecessorOutcome(g, g.order[k], failMode, resultOf);
      if o != Result.Ok(None) then o else FailedFrom(g, failMode, resultOf, k + 1)
  }

  function Failed(g: LooseGroup, failMode: string, resultOf: CheckerJob -> Option<RR.RunResultKind>)
    : Result<Option<LooseError>, Unfinished>
    requires GroupValid(g)
  {
    FailedFrom(g, failMode, resultOf, 0)
  }

  // ---------------------------------------------------------------------------
  // One check

  datatype CheckOutcome =
    | NotRun
    | Passed(kind: RR.RunResultKind)
    | ShouldHaveSucceeded(kind: RR.RunResultKind)
    | ShouldHaveFailed(kind: RR.RunResultKind)

  /** `CheckerJob._run`: a checker that was expected to accept must end OK,
      one expected to reject must end with a runtime error, and a check
      expecting nothing accepts any result. */
  function RunCheck(expected: Option<RR.RunResultKind>, result: Option<RR.RunResultKind>): (r: CheckOutcome)
    ensures r.NotRun? <==> result.None?
    ensures r.ShouldHaveSucceeded? <==> result.Some? && expected == Some(RR.Ok) && result.value != RR.Ok
    ensures r.ShouldHaveFailed? <==> result.Some? && expected == Some(RR.RuntimeError) && result.value != RR.RuntimeError
    ensures result.Some? ==> r.kind == result.value
  {
    match result
    case None => NotRun
    case Some(k) =>
      if expected == Some(RR.Ok) && RR.Ok != k then ShouldHaveSucceeded(k)
      else if expected == Some(RR.RuntimeError) && RR.RuntimeError != k then ShouldHaveFailed(k)
      else Passed(k)
  }

  // ---------------------------------------------------------------------------
  // The manager

  /** The status text of a skipped checker, without its colouring. */
  function SkipText(reason: SkipReason): (r: string)
    ensures |r| > 0
  {
    match reason
    case NoCheckerWarning => "Warning: No checker specified in config.\nIt is recommended to set `checker` is section [tests]"
    case SkippingChecking => "Skipping checking"
  }

  class CheckerManager {
    var skippedChecker: Option<SkipReason>
    var looseSubtasks: seq<LooseGroup>
    var jobs: seq<PJob>
    var dependencies: seq<Dependency>
    var state: JP.State
    var failure: Option<ManagerFailure>

    constructor()
      ensures skippedChecker.None? && looseSubtasks == [] && jobs == [] && dependencies == []
      ensures state == JP.Pending && failure.None?
    {
      skippedChecker := None;
      looseSubtasks := [];
      jobs := [];
      dependencies := [];
      state := JP.Pending;
      failure := None;
    }

    /** `_get_jobs`, storing what it plans in `jobs`. Without a checker,
        strict mode fails the manager; otherwise a missing checker or
        `no_checker` skips checking. Else the checker is compiled first and
        every check waits for the compile. */
    method GetJobs(cfg: CheckerConfig, subtasks: seq<Subtask>)
      modifies this
      ensures state == old(state)
      ensures cfg.checker.None? && cfg.strict ==>
                jobs == [] && dependencies == [] && failure == Some(NoCheckerSpecified)
                && skippedChecker == old(skippedChecker) && looseSubtasks == old(looseSubtasks)
      ensures !(cfg.checker.None? && cfg.strict) ==>
                failure == old(failure)
                && skippedChecker == (if cfg.noChecker then Some(SkippingChecking)
                                      else if cfg.checker.None? then Some(NoCheckerWarning)
                                      else old(skippedChecker))
      ensures !(cfg.checker.None? && cfg.strict) && skippedChecker.Some? ==>
                jobs == [] && dependencies == [] && looseSubtasks == old(looseSubtasks)
      ensures !(cfg.checker.None? && cfg.strict) && skippedChecker.None? ==>
                cfg.checker.Some?
                && jobs == [Compile(cfg.checker.value)] + AsJobs(cfg.checker.value, PlannedChecks(subtasks))
                && looseSubtasks == PlannedGroups(subtasks)
                && AllOnCompile(dependencies, |jobs|)
    {
      if cfg.checker.None? {
        if cfg.strict {
          failure := Some(NoCheckerSpecified);
          jobs := [];
          dependencies := [];
          return;
        }
        skippedChecker := Some(NoCheckerWarning);
      }
      if cfg.noChecker {
        skippedChecker := Some(SkippingChecking);
      }
      if skippedChecker.Some? {
        jobs := [];
        dependencies := [];
        return;
      }
      var checker := cfg.checker.value;
      var checks, groups := PlanSubtasks(subtasks);
      jobs := [Compile(checker)] + AsJobs(checker, checks);
      dependencies := CompileDependencies(|jobs|);
      looseSubtasks := groups;
    }

    /** `_evaluate`: nothing to do without jobs; otherwise the first loose
        group that reports an error fails the manager. An unfinished loose
        check is the error `Unfinished`. */
    method Evaluate(failMode: string, resultOf: CheckerJob -> Option<RR.RunResultKind>) returns (r: Result<Option<LooseError>, Unfinished>)
      requires forall k :: 0 <= k < |looseSubtasks| ==> GroupValid(looseSubtasks[k])
      modifies this
      ensures jobs == old(jobs) && looseSubtasks == old(looseSubtasks) && skippedChecker == old(skippedChecker)
      ensures |jobs| == 0 ==> r == Result.Ok(None)
      ensures |jobs| > 0 ==>
                (r == Result.Ok(None) <==> forall k :: 0 <= k < |looseSubtasks| ==> Failed(looseSubtasks[k], failMode, resultOf) == Result.Ok(None))
      ensures r != Result.Ok(None) ==>
                exists k :: 0 <= k < |looseSubtasks| && r == Failed(looseSubtasks[k], failMode, resultOf)
                            && forall j :: 0 <= j < k ==> Failed(looseSubtasks[j], failMode, resultOf) == Result.Ok(None)
      ensures failure == (if r.Ok? && r.value.Some? then Some(NotStrictEnough(r.value.value)) else old(failure))
    {
      r := Result.Ok(None);
      if |jobs| == 0 {
        return;
      }
      var k := 0;
      while k < |looseSubtasks|
        invariant 0 <= k <= |looseSubtasks|
        invariant forall j :: 0 <= j < k ==> Failed(looseSubtasks[j], failMode, resultOf) == Result.Ok(None)
        invariant jobs == old(jobs) && looseSubtasks == old(looseSubtasks) && skippedChecker == old(skippedChecker)
        invariant failure == old(failure)
      {
        var err := Failed(looseSubtasks[k], failMode, resultOf);
        if err != Result.Ok(None) {
          r := err;
          if err.Ok? {
            failure := Some(NotStrictEnough(err.value.value));
          }
          return;
        }
        k := k + 1;
      }
    }

    /** `_get_status`: a skipped checker shows why once the manager has
        succeeded and nothing before; otherwise the usual status
        `inherited`. */
    function Status(inherited: string): (r: string)
      reads this
      ensures skippedChecker.Some? ==> (r != "" <==> state == JP.Succeeded)
      ensures skippedChecker.Some? && r != "" ==> r == SkipText(skippedChecker.value)
      ensures skippedChecker.None? ==> r == inherited
    {
      if skippedChecker.Some? then
        if state == JP.Succeeded then SkipText(skippedChecker.value) else ""
      else inherited
    }
  }

  /** The loop over the subtasks, in order, skipping the samples. */
  method PlanSubtasks(subtasks: seq<Subtask>) returns (checks: seq<CheckerJob>, groups: seq<LooseGroup>)
    ensures checks == PlannedChecks(subtasks) && groups == PlannedGroups(subtasks)
  {
    checks := [];
    groups := [];
    var i := 0;
    while i < |subtasks|
      invariant 0 <= i <= |subtasks|
      invariant checks == PlannedChecks(subtasks[..i])
      invariant groups == PlannedGroups(subtasks[..i])
    {
      var sub := subtasks[i];
      assert subtasks[..i + 1][..i] == subtasks[..i];
      assert subtasks[..i + 1][i] == sub;
      assert PlannedChecks(subtasks[..i + 1]) == PlannedChecks(subtasks[..i]) + SubtaskChecks(sub);
      assert PlannedGroups(subtasks[..i + 1])
             == PlannedGroups(subtasks[..i]) + (if sub.num != "0" && sub.predecessors != [] then [GroupOf(sub)] else []);
      if sub.num != "0" {
        var more, group := PlanSubtask(sub);
        checks := checks + more;
        if group.Some? {
          groups := groups + [group.value];
        }
      }
      i := i + 1;
    }
    assert subtasks[..i] == subtasks;
  }

  /** Each of the jobs after the compile waits for it. */
  method CompileDependencies(n: nat) returns (deps: seq<Dependency>)
    requires n >= 1
    ensures AllOnCompile(deps, n)
  {
    deps := [];
    var j := 1;
    while j < n
      invariant 1 <= j <= n
      invariant AllOnCompile(deps, j)
    {
      deps := deps + [Dependency(j, 0)];
      j := j + 1;
    }
  }

  /** One subtask other than the samples: a check of each of its inputs
      expecting OK, then, when it has predecessors, a loose group with the
      checks of its new inputs against each predecessor. */
  method PlanSubtask(sub: Subtask) returns (checks: seq<CheckerJob>, group: Option<LooseGroup>)
    requires sub.num != "0"
    ensures checks == SubtaskChecks(sub)
    ensures group == (if sub.predecessors != [] then Some(GroupOf(sub)) else None)
  {
    checks := CheckAll(sub.inputs, sub.num);
    group := None;
    if sub.predecessors != [] {
      var order, byPred, loose := PlanPredecessors(sub.predecessors, sub.newInputs);
      checks := checks + loose;
      GroupMap(byPred, sub.predecessors, sub.newInputs);
      assert GroupOf(sub) == LooseGroup(sub.num, order, byPred);
      group := Some(LooseGroup(sub.num, order, byPred));
    } else {
      assert checks + [] == checks;
    }
  }

  /** The dictionary the loop builds is the one of the group. */
  lemma GroupMap(byPred: map<string, seq<CheckerJob>>, preds: seq<string>, newInputs: seq<string>)
    requires forall q :: q in byPred <==> q in preds
    requires forall q :: q in byPred ==> byPred[q] == ChecksOf(newInputs, q, None)
    ensures byPred == map p | p in preds :: ChecksOf(newInputs, p, None)
  {
  }

  /** The checks of a subtask's own inputs, each expecting OK. */
  method CheckAll(inputs: seq<string>, num: string) returns (checks: seq<CheckerJob>)
    ensures checks == ChecksOf(inputs, num, Some(RR.Ok))
  {
    checks := [];
    var i := 0;
    while i < |inputs|
      invariant 0 <= i <= |inputs|
      invariant checks == ChecksOf(inputs[..i], num, Some(RR.Ok))
    {
      assert inputs[..i + 1][..i] == inputs[..i];
      checks := checks + [CheckerJob(inputs[i], num, Some(RR.Ok))];
      i := i + 1;
    }
    assert inputs[..i] == inputs;
  }

  /** The loop over the predecessors: each gets an entry in the group's
      dictionary, a repeated one keeping its first place and starting over
      with a fresh list, and the checks of every new input against it. */
  method PlanPredecessors(preds: seq<string>, newInputs: seq<string>)
    returns (order: seq<string>, byPred: map<string, seq<CheckerJob>>, loose: seq<CheckerJob>)
    ensures order == Dedupe(preds)
    ensures forall q :: q in byPred <==> q in preds
    ensures forall q :: q in byPred ==> byPred[q] == ChecksOf(newInputs, q, None)
    ensures loose == PredecessorChecks(preds, newInputs)
  {
    order := [];
    byPred := map[];
    loose := [];
    var p := 0;
    while p < |preds|
      invariant 0 <= p <= |preds|
      invariant order == Dedupe(preds[..p])
      invariant GroupSoFar(byPred, preds[..p], newInputs)
      invariant loose == PredecessorChecks(preds[..p], newInputs)
    {
      var pred := preds[p];
      var checks := ChecksAgainst(newInputs, pred);
      ghost var (p0, order0, byPred0, loose0) := (p, order, byPred, loose);
      if pred !in byPred {
        order := order + [pred];
      }
      byPred := byPred[pred := checks];
      loose := loose + checks;
      p := p + 1;
      PredecessorStep(preds, p0, p, newInputs, order0, byPred0, loose0, order, byPred, loose);
    }
    assert preds[..p] == preds;
  }

  /** One more predecessor keeps the loop's invariant. */
  lemma PredecessorStep(preds: seq<string>, p: nat, p': nat, newInputs: seq<string>,
                        order0: seq<string>, byPred0: map<string, seq<CheckerJob>>, loose0: seq<CheckerJob>,
                        order: seq<string>, byPred: map<string, seq<CheckerJob>>, loose: seq<CheckerJob>)
    requires p < |preds| && p' == p + 1
    requires order0 == Dedupe(preds[..p]) && GroupSoFar(byPred0, preds[..p], newInputs)
    requires loose0 == PredecessorChecks(preds[..p], newInputs)
    requires order == if preds[p] in byPred0 then order0 else order0 + [preds[p]]
    requires byPred == byPred0[preds[p] := ChecksOf(newInputs, preds[p], None)]
    requires loose == loose0 + ChecksOf(newInputs, preds[p], None)
    ensures order == Dedupe(preds[..p']) && GroupSoFar(byPred, preds[..p'], newInputs)
    ensures loose == PredecessorChecks(preds[..p'], newInputs)
  {
    var pred := preds[p];
    assert preds[..p'] == preds[..p] + [pred];
    DedupeSnoc(preds[..p], pred);
    GroupSoFarSnoc(byPred0, preds[..p], pred, newInputs);
    assert PredecessorChecks(preds[..p'], newInputs) == PredecessorChecks(preds[..p], newInputs) + ChecksOf(newInputs, pred, None);
  }

  /** The dictionary of a loose group after the predecessors `preds`. */
  ghost predicate GroupSoFar(byPred: map<string, seq<CheckerJob>>, preds: seq<string>, newInputs: seq<string>)
  {
    (forall q :: q in byPred <==> q in preds)
    && forall q :: q in byPred ==> byPred[q] == ChecksOf(newInputs, q, None)
  }

  lemma GroupSoFarSnoc(byPred: map<string, seq<CheckerJob>>, preds: seq<string>, pred: string, newInputs: seq<string>)
    requires GroupSoFar(byPred, preds, newInputs)
    ensures GroupSoFar(byPred[pred := ChecksOf(newInputs, pred, None)], preds + [pred], newInputs)
    ensures pred in byPred <==> pred in preds
  {
  }

  lemma DedupeSnoc<T>(s: seq<T>, x: T)
    ensures Dedupe(s + [x]) == if x in s then Dedupe(s) else Dedupe(s) + [x]
  {
    assert (s + [x])[..|s + [x]| - 1] == s;
  }

  /** The inner loop: the new inputs checked against one predecessor,
      expecting nothing. */
  method ChecksAgainst(newInputs: seq<string>, pred: string) returns (checks: seq<CheckerJob>)
    ensures checks == ChecksOf(newInputs, pred, None)
  {
    checks := [];
    var n := 0;
    while n < |newInputs|
      invariant 0 <= n <= |newInputs|
      invariant checks == ChecksOf(newInputs[..n], pred, None)
    {
      assert newInputs[..n + 1][..n] == newInputs[..n];
      checks := checks + [CheckerJob(newInputs[n], pred, None)];
      n := n + 1;
    }
    assert newInputs[..n] == newInputs;
  }
}
