/** The pipeline of the opendata library (`pisek/opendata/managers.py`):
    up to three managers, for the input, the reference output and the
    check of a contestant's output, chained one after another, and the
    jobs each of them plans. */
module OpendataManagers {
  import opened Common
  import DM = DataManagerModel
  import RR = RunResults

  datatype ManagerKind = InputMan | OutputMan | CheckerMan

  /** A prerequisite edge: manager or job `from` waits for `on`, under an
      optional name. */
  datatype Prerequisite = Prerequisite(from: nat, on: nat, name: Option<string>)

  /** The verdict of a check, as the checker job reports it; its points are
      those the checker awarded for the test. */
  datatype OpendataVerdict = OpendataVerdict(verdict: string, message: string, points: string, log: string, note: string)

  /** The managers a pipeline holds: input, output, checker, each only when
      asked for. */
  function ManagerPlan(genInput: bool, genOutput: bool, check: bool): (r: seq<ManagerKind>)
    ensures InputMan in r <==> genInput
    ensures OutputMan in r <==> genOutput
    ensures CheckerMan in r <==> check
    ensures NoDups(r)
    ensures forall i, j :: 0 <= i < j < |r| ==> Rank(r[i]) < Rank(r[j])
  {
    (if genInput then [InputMan] else [])
    + (if genOutput then [OutputMan] else [])
    + (if check then [CheckerMan] else [])
  }

  /** The position of a manager kind in the fixed order. */
  function Rank(k: ManagerKind): nat
  {
    match k
    case InputMan => 0
    case OutputMan => 1
    case CheckerMan => 2
  }

  /** Each manager after the first waits for the one before it. */
  predicate Chained(prereqs: seq<Prerequisite>, n: nat)
  {
    |prereqs| == (if n == 0 then 0 else n - 1)
    && forall i :: 0 <= i < |prereqs| ==> prereqs[i] == Prerequisite(i + 1, i, None)
  }

  class OpendataPipeline {
    var jobManagers: seq<ManagerKind>
    var prerequisites: seq<Prerequisite>
    /** The index of the checker manager, when there is one. */
    var checkerMan: Option<nat>

    /** `check` needs a contestant output to check. */
    constructor(genInput: bool, genOutput: bool, check: bool, contestantOutput: Option<string>)
      requires check ==> contestantOutput.Some?
      ensures jobManagers == ManagerPlan(genInput, genOutput, check)
      ensures Chained(prerequisites, |jobManagers|)
      ensures checkerMan.Some? <==> check
      ensures checkerMan.Some? ==> checkerMan.value == |jobManagers| - 1 && jobManagers[checkerMan.value] == CheckerMan
    {
      var managers: seq<ManagerKind> := [];
      if genInput {
        managers := managers + [InputMan];
      }
      if genOutput {
        managers := managers + [OutputMan];
      }
      checkerMan := None;
      if check {
        checkerMan := Some(|managers|);
        managers := managers + [CheckerMan];
      }
      jobManagers := managers;
      var prereqs: seq<Prerequisite> := [];
      var i := 1;
      while i < |managers|
        invariant 1 <= i <= if |managers| == 0 then 1 else |managers|
        invariant |prereqs| == i - 1
        invariant forall k :: 0 <= k < |prereqs| ==> prereqs[k] == Prerequisite(k + 1, k, None)
      {
        prereqs := prereqs + [Prerequisite(i, i - 1, None)];
        i := i + 1;
      }
      prerequisites := prereqs;
    }

    /** `verdict`: the judging result of the checker manager, which must
        exist. */
    method Verdict(judged: OpendataVerdict) returns (v: OpendataVerdict)
      requires checkerMan.Some?
      ensures v == judged
    {
      v := judged;
    }
  }

  /** The jobs the opendata managers plan; `SanitizeJob(what)` cleans the
      named file. */
  datatype OJob =
    | GenerateInput
    | LinkStaticInput
    | LinkReferenceOutput
    | RunPrimarySolution
    | SanitizeJob(what: string)
    | CheckJob

  /** `InputManager._get_jobs`. `sanitizes` says whether the task's input
      format asks for a sanitize job. */
  method InputManagerJobs(info: DM.TestcaseInfo, sanitizes: bool) returns (jobs: seq<OJob>, prereqs: seq<Prerequisite>)
    ensures info.mode == DM.Generated ==> |jobs| >= 1 && jobs[0] == GenerateInput
    ensures info.mode == DM.Generated ==> (|jobs| == 2 <==> sanitizes) && |jobs| <= 2
    ensures info.mode == DM.Generated && sanitizes ==> jobs[1] == SanitizeJob("input") && prereqs == [Prerequisite(1, 0, None)]
    ensures info.mode != DM.Generated ==> jobs == [LinkStaticInput] && prereqs == []
    ensures !sanitizes ==> prereqs == []
  {
    jobs := [];
    prereqs := [];
    if info.mode == DM.Generated {
      jobs := jobs + [GenerateInput];
      if sanitizes {
        jobs := jobs + [SanitizeJob("input")];
        prereqs := prereqs + [Prerequisite(1, 0, None)];
      }
    } else {
      jobs := jobs + [LinkStaticInput];
    }
  }

  /** `OutputManager`: plans a link of the reference output for a static
      testcase, otherwise a run of the primary solution, and remembers
      whether it did. */
  class OutputManager {
    var info: DM.TestcaseInfo
    /** `_solve`: whether a solution run was planned. */
    var solve: bool

    constructor(info: DM.TestcaseInfo)
      ensures this.info == info && !solve
    {
      this.info := info;
      solve := false;
    }

    method GetJobs(sanitizes: bool) returns (jobs: seq<OJob>, prereqs: seq<Prerequisite>)
      modifies this
      ensures info == old(info)
      ensures solve <==> info.mode != DM.Static
      ensures info.mode == DM.Static ==> jobs == [LinkReferenceOutput] && prereqs == []
      ensures info.mode != DM.Static ==> jobs == [RunPrimarySolution] + (if sanitizes then [SanitizeJob("output")] else [])
      ensures info.mode != DM.Static && sanitizes ==> prereqs == [Prerequisite(1, 0, Some("create-source"))]
      ensures !sanitizes ==> prereqs == []
    {
      solve := false;
      jobs := [];
      prereqs := [];
      if info.mode == DM.Static {
        jobs := jobs + [LinkReferenceOutput];
      } else {
        solve := true;
        jobs := jobs + [RunPrimarySolution];
        if sanitizes {
          jobs := jobs + [SanitizeJob("output")];
          prereqs := prereqs + [Prerequisite(1, 0, Some("create-source"))];
        }
      }
    }

    /** `_evaluate`: fails exactly when the primary solution ran and did
        not finish with OK. */
    function Evaluate(kind: RR.RunResultKind): (failed: bool)
      reads this
      ensures failed <==> solve && kind != RR.Ok
    {
      solve && kind != RR.Ok
    }
  }

  /** `CheckerManager._get_jobs`: the optional sanitize job of the
      contestant's output first, the check last, depending on it under the
      name `sanitize`. */
  method CheckerManagerJobs(sanitizes: bool) returns (jobs: seq<OJob>, prereqs: seq<Prerequisite>)
    ensures |jobs| >= 1 && jobs[|jobs| - 1] == CheckJob
    ensures CheckJob !in jobs[..|jobs| - 1]
    ensures sanitizes ==> jobs == [SanitizeJob("contestant output"), CheckJob] && prereqs == [Prerequisite(1, 0, Some("sanitize"))]
    ensures !sanitizes ==> jobs == [CheckJob] && prereqs == []
  {
    jobs := [];
    prereqs := [];
    if sanitizes {
      jobs := jobs + [SanitizeJob("contestant output")];
      prereqs := prereqs + [Prerequisite(|jobs|, 0, Some("sanitize"))];
    }
    jobs := jobs + [CheckJob];
  }
}
