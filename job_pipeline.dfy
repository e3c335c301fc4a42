/** The job-pipeline executor of `pisek/jobs/job_pipeline.py`.

    A pipeline is a queue of items. Popping a job manager puts it on a second
    queue of managers in flight and splices the jobs it creates, in their
    declared order, in front of everything still queued; popping a job runs
    it. After every pop the managers in flight are drained front to back for
    a status report, which says whether anything failed.

    The job managers, jobs and the cache are not part of this model: a
    `World` stands for them. It gives the jobs a manager creates from a given
    environment, and the report a manager gives on its n-th `update()`. */
module JobPipelineModel {
  import opened Common
  import opened Text

  /** The states of a job manager. */
  datatype State = Pending | Running | Succeeded | Failed | Canceled

  /** The environment handed to `create_jobs`: the shared one, or the n-th
      fork made by this pipeline. */
  datatype EnvHandle = SharedEnv | ForkedEnv(n: nat)

  /** A pipeline item: a job, a job manager, or anything else (a mistake). */
  datatype Item =
    | JobItem(id: nat, name: string)
    | ManagerItem(id: nat, name: string)
    | OtherItem(name: string)

  /** What one `update()` call of a manager shows: the ongoing message it
      returns, `any_failed()`, `state` and `ready()` after the update, and
      what `finalize()` would print and leave as the state. */
  datatype Report = Report(
    ongoingMsg: string,
    anyFailed: bool,
    state: State,
    ready: bool,
    finalizeMsg: string,
    stateAfterFinalize: State)

  /** The behaviour of the unseen managers: the jobs (id, name) a manager
      creates from an environment, and its report on the n-th update. */
  datatype World = World(
    createJobs: (nat, EnvHandle) -> seq<(nat, string)>,
    report: (nat, nat) -> Report)

  datatype Error = TypeError | IndexError

  /** What `run_jobs` does: return the `failed` flag, or raise. */
  datatype Outcome = Completed(failed: bool) | Raised(error: Error)

  /** The created jobs of manager `id`, as pipeline items. */
  function Children(w: World, id: nat, env: EnvHandle): (r: seq<Item>)
    ensures ManagerCount(r) == 0
  {
    AsJobs(w.createJobs(id, env))
  }

  function AsJobs(cs: seq<(nat, string)>): (r: seq<Item>)
    ensures ManagerCount(r) == 0
  {
    if cs == [] then []
    else
      var r := [JobItem(cs[0].0, cs[0].1)] + AsJobs(cs[1..]);
      assert r[1..] == AsJobs(cs[1..]);
      r
  }

  /** Number of job managers among `items`. */
  function ManagerCount(items: seq<Item>): nat
  {
    if items == [] then 0
    else (if items[0].ManagerItem? then 1 else 0) + ManagerCount(items[1..])
  }

  lemma {:induction false} ManagerCountAppend(a: seq<Item>, b: seq<Item>)
    ensures ManagerCount(a + b) == ManagerCount(a) + ManagerCount(b)
  {
    if a == [] {
      assert a + b == b;
    } else {
      assert (a + b)[1..] == a[1..] + b;
      ManagerCountAppend(a[1..], b);
    }
  }

  /** The order in which items leave the pipeline when it starts as `items`
      and `k` forks have been made: depth first, each manager followed by
      the jobs it creates from the next fork. */
  function Flatten(w: World, items: seq<Item>, k: nat): seq<Item>
    decreases |items|
  {
    if items == [] then []
    else match items[0]
      case ManagerItem(id, _) =>
        [items[0]] + Children(w, id, ForkedEnv(k)) + Flatten(w, items[1..], k + 1)
      case _ => [items[0]] + Flatten(w, items[1..], k)
  }

  /** Items without managers leave the pipeline as they are. */
  lemma {:induction false} FlattenJobs(w: World, items: seq<Item>, k: nat)
    requires ManagerCount(items) == 0
    ensures Flatten(w, items, k) == items
  {
    if items != [] {
      FlattenJobs(w, items[1..], k);
    }
  }

  /** Flattening is compositional: what is queued later is flattened with
      the forks the earlier part made. */
  lemma {:induction false} FlattenAppend(w: World, a: seq<Item>, b: seq<Item>, k: nat)
    ensures Flatten(w, a + b, k) == Flatten(w, a, k) + Flatten(w, b, k + ManagerCount(a))
  {
    if a == [] {
      assert a + b == b;
    } else {
      assert (a + b)[0] == a[0];
      assert (a + b)[1..] == a[1..] + b;
      if a[0].ManagerItem? {
        FlattenAppend(w, a[1..], b, k + 1);
      } else {
        FlattenAppend(w, a[1..], b, k);
      }
    }
  }

  /** Popping a manager and splicing its jobs in front keeps the order in
      which the rest will leave the pipeline. */
  lemma SpliceKeepsFlatten(w: World, id: nat, name: string, rest: seq<Item>, k: nat)
    ensures [ManagerItem(id, name)] + Flatten(w, Children(w, id, ForkedEnv(k)) + rest, k + 1)
         == Flatten(w, [ManagerItem(id, name)] + rest, k)
  {
    var cs := Children(w, id, ForkedEnv(k));
    FlattenAppend(w, cs, rest, k + 1);
    FlattenJobs(w, cs, k + 1);
    assert ([ManagerItem(id, name)] + rest)[1..] == rest;
  }

  /** The pipeline after its front item is popped, with `k` forks made so
      far: a manager is replaced by the jobs it creates. */
  function AfterPop(w: World, items: seq<Item>, k: nat): seq<Item>
    requires items != []
  {
    match items[0]
    case ManagerItem(id, _) => Children(w, id, ForkedEnv(k)) + items[1..]
    case _ => items[1..]
  }

  /** Popping takes the first item of the flattened order, and the pipeline
      shrinks: it loses a manager, or keeps its managers and loses an item. */
  lemma FlattenPop(w: World, items: seq<Item>, k: nat)
    requires items != []
    ensures Flatten(w, items, k) == [items[0]] + Flatten(w, AfterPop(w, items, k), k + ManagerCount([items[0]]))
  {
    var rest := items[1..];
    assert items == [items[0]] + rest;
    ManagerCountAppend([items[0]], rest);
    if items[0].ManagerItem? {
      SpliceKeepsFlatten(w, items[0].id, items[0].name, rest, k);
      ManagerCountAppend(Children(w, items[0].id, ForkedEnv(k)), rest);
    }
  }

  lemma PopShrinks(w: World, items: seq<Item>, k: nat)
    requires items != []
    ensures ManagerCount(AfterPop(w, items, k)) < ManagerCount(items) ||
      (ManagerCount(AfterPop(w, items, k)) == ManagerCount(items) && |AfterPop(w, items, k)| < |items|)
  {
    var rest := items[1..];
    assert items == [items[0]] + rest;
    ManagerCountAppend([items[0]], rest);
    if items[0].ManagerItem? {
      ManagerCountAppend(Children(w, items[0].id, ForkedEnv(k)), rest);
    }
  }

  /** The bookkeeping of `run_jobs` after the items `popped` left a pipeline
      that started as `start` with `k0` forks made. */
  ghost predicate Trace(w: World, start: seq<Item>, k0: nat, e0: seq<(nat, EnvHandle)>, r0: seq<nat>,
                        popped: seq<Item>, pipeline: seq<Item>, forks: nat,
                        expansions: seq<(nat, EnvHandle)>, ranJobs: seq<nat>)
  {
    && popped + Flatten(w, pipeline, forks) == Flatten(w, start, k0)
    && forks == k0 + ManagerCount(popped)
    && expansions == e0 + Expansions(popped, k0)
    && ranJobs == r0 + JobIds(popped)
  }

  lemma TraceStep(w: World, start: seq<Item>, k0: nat, e0: seq<(nat, EnvHandle)>, r0: seq<nat>,
                  popped: seq<Item>, pipeline: seq<Item>, forks: nat,
                  expansions: seq<(nat, EnvHandle)>, ranJobs: seq<nat>)
    requires pipeline != []
    requires Trace(w, start, k0, e0, r0, popped, pipeline, forks, expansions, ranJobs)
    ensures var item := pipeline[0];
      Trace(w, start, k0, e0, r0, popped + [item], AfterPop(w, pipeline, forks),
            forks + ManagerCount([item]), expansions + Expansions([item], forks),
            ranJobs + JobIds([item]))
  {
    var item := pipeline[0];
    var after := AfterPop(w, pipeline, forks);
    var forks' := forks + ManagerCount([item]);
    assert popped + [item] + Flatten(w, after, forks') == Flatten(w, start, k0) by {
      OrderStep(w, start, k0, popped, pipeline, forks);
    }
    LogsStep(k0, e0, r0, popped, item, forks, expansions, ranJobs);
  }

  lemma LogsStep(k0: nat, e0: seq<(nat, EnvHandle)>, r0: seq<nat>, popped: seq<Item>, item: Item,
                 forks: nat, expansions: seq<(nat, EnvHandle)>, ranJobs: seq<nat>)
    requires forks == k0 + ManagerCount(popped)
    requires expansions == e0 + Expansions(popped, k0)
    requires ranJobs == r0 + JobIds(popped)
    ensures forks + ManagerCount([item]) == k0 + ManagerCount(popped + [item])
    ensures expansions + Expansions([item], forks) == e0 + Expansions(popped + [item], k0)
    ensures ranJobs + JobIds([item]) == r0 + JobIds(popped + [item])
  {
    ManagerCountAppend(popped, [item]);
    ExpansionsStep(k0, e0, popped, item, forks, expansions);
    JobIdsAppend(popped, [item]);
    assert ranJobs + JobIds([item]) == r0 + (JobIds(popped) + JobIds([item]));
  }

  lemma ExpansionsStep(k0: nat, e0: seq<(nat, EnvHandle)>, popped: seq<Item>, item: Item,
                       forks: nat, expansions: seq<(nat, EnvHandle)>)
    requires forks == k0 + ManagerCount(popped)
    requires expansions == e0 + Expansions(popped, k0)
    ensures expansions + Expansions([item], forks) == e0 + Expansions(popped + [item], k0)
  {
    ExpansionsAppend(popped, [item], k0);
    assert expansions + Expansions([item], forks) == e0 + (Expansions(popped, k0) + Expansions([item], forks));
  }

  lemma OrderStep(w: World, start: seq<Item>, k0: nat, popped: seq<Item>, pipeline: seq<Item>, forks: nat)
    requires pipeline != []
    requires popped + Flatten(w, pipeline, forks) == Flatten(w, start, k0)
    ensures popped + [pipeline[0]] + Flatten(w, AfterPop(w, pipeline, forks), forks + ManagerCount([pipeline[0]]))
      == Flatten(w, start, k0)
  {
    var item := pipeline[0];
    FlattenPop(w, pipeline, forks);
    var tail := Flatten(w, AfterPop(w, pipeline, forks), forks + ManagerCount([item]));
    assert (popped + [item]) + tail == popped + ([item] + tail);
  }

  /** The ids of the jobs among `items`, in order. */
  function JobIds(items: seq<Item>): seq<nat>
  {
    if items == [] then []
    else (if items[0].JobItem? then [items[0].id] else []) + JobIds(items[1..])
  }

  lemma {:induction false} JobIdsAppend(a: seq<Item>, b: seq<Item>)
    ensures JobIds(a + b) == JobIds(a) + JobIds(b)
  {
    if a == [] {
      assert a + b == b;
    } else {
      var ab := a + b;
      var head := if a[0].JobItem? then [a[0].id] else [];
      assert ab[0] == a[0] && ab[1..] == a[1..] + b;
      JobIdsAppend(a[1..], b);
      assert JobIds(ab) == head + JobIds(ab[1..]);
      assert JobIds(a) == head + JobIds(a[1..]);
    }
  }

  /** The (manager, environment) pairs `create_jobs` is called with when the
      managers among `items` are popped in order, starting at fork `k`. */
  function Expansions(items: seq<Item>, k: nat): seq<(nat, EnvHandle)>
  {
    if items == [] then []
    else if items[0].ManagerItem? then [(items[0].id, ForkedEnv(k))] + Expansions(items[1..], k + 1)
    else Expansions(items[1..], k)
  }

  lemma {:induction false} ExpansionsAppend(a: seq<Item>, b: seq<Item>, k: nat)
    ensures Expansions(a + b, k) == Expansions(a, k) + Expansions(b, k + ManagerCount(a))
  {
    if a == [] {
      assert a + b == b;
    } else {
      assert (a + b)[1..] == a[1..] + b;
      var k' := k + ManagerCount([a[0]]);
      ExpansionsAppend(a[1..], b, k');
      ManagerCountAppend([a[0]], a[1..]);
      assert a == [a[0]] + a[1..];
    }
  }

  /** Every manager gets its own fork: never the shared environment, never
      a fork given to another manager. */
  lemma {:induction false} ExpansionsFresh(items: seq<Item>, k: nat)
    ensures forall i :: 0 <= i < |Expansions(items, k)| ==>
      Expansions(items, k)[i].1 == ForkedEnv(k + i)
  {
    if items != [] {
      ExpansionsFresh(items[1..], if items[0].ManagerItem? then k + 1 else k);
    }
  }

  /** Every status update succeeded. */
  predicate AllOk(log: seq<bool>)
  {
    forall i :: 0 <= i < |log| ==> log[i]
  }

  /** Every status update but the last succeeded. */
  predicate AllButLastOk(log: seq<bool>)
  {
    forall i :: 0 <= i < |log| - 1 ==> log[i]
  }

  /** How `_status_update` treats a manager after its update. */
  datatype Action =
    | Stop    // a failure: report it and return False
    | Finish  // finalized without failing: removed
    | Drop    // canceled: removed
    | Keep    // still ongoing: pushed back, the drain stops

  function Classify(r: Report, full: bool): Action
  {
    if !full && r.anyFailed then Stop
    else if r.state == Failed || r.ready then
      (if r.stateAfterFinalize == Failed then Stop else Finish)
    else if r.state == Canceled then Drop
    else Keep
  }

  /** Number of `update()` calls already made on manager `m`. */
  function Count(counts: map<nat, nat>, m: nat): nat
  {
    if m in counts then counts[m] else 0
  }

  /** The result of draining the in-flight managers. */
  datatype Drain = Drain(ok: bool, remaining: seq<nat>, counts: map<nat, nat>, lines: nat)

  /** The drain loop of `_status_update`, front to back. */
  function DrainSpec(ms: seq<nat>, counts: map<nat, nat>, full: bool, w: World): (d: Drain)
    decreases |ms|
  {
    if ms == [] then Drain(true, [], counts, 0)
    else
      var m := ms[0];
      var r := w.report(m, Count(counts, m));
      var next := counts[m := Count(counts, m) + 1];
      match Classify(r, full)
      case Stop => Drain(false, ms[1..], next, 0)
      case Keep => Drain(true, ms, next, CountChar(r.ongoingMsg, '\n') + 1)
      case _ => DrainSpec(ms[1..], next, full, w)
  }

  /** The report the drain sees for the i-th manager, when no manager occurs
      twice. */
  function Seen(ms: seq<nat>, counts: map<nat, nat>, i: nat, w: World): Report
    requires i < |ms|
  {
    w.report(ms[i], Count(counts, ms[i]))
  }

  /** Number of managers the drain removes without stopping on them. */
  function Removed(ms: seq<nat>, counts: map<nat, nat>, full: bool, w: World): (n: nat)
    ensures n <= |ms|
    decreases |ms|
  {
    if ms == [] then 0
    else
      var m := ms[0];
      var r := w.report(m, Count(counts, m));
      match Classify(r, full)
      case Stop => 0
      case Keep => 0
      case _ => 1 + Removed(ms[1..], counts[m := Count(counts, m) + 1], full, w)
  }

  /** Once the front manager is updated, the others see the reports they
      would have seen before: no manager occurs twice. */
  lemma SeenShift(ms: seq<nat>, counts: map<nat, nat>, w: World, j: nat)
    requires NoDups(ms) && j + 1 < |ms|
    ensures Seen(ms[1..], counts[ms[0] := Count(counts, ms[0]) + 1], j, w) == Seen(ms, counts, j + 1, w)
  {
    assert ms[1..][j] == ms[j + 1] && ms[j + 1] != ms[0];
  }

  /** The drain in words: managers are taken in FIFO order; the first n are
      finalized or canceled and removed; then either the queue is empty and
      the result is True, or the next manager failed (it is removed and the
      result is False), or it is still ongoing (it stays at the front and the
      result is True). */
  predicate DrainShaped(ms: seq<nat>, counts: map<nat, nat>, full: bool, w: World)
  {
    var n := Removed(ms, counts, full, w);
    n <= |ms| && FrontRemoved(ms, counts, full, w, n) && EndShaped(ms, counts, full, w, n, DrainSpec(ms, counts, full, w))
  }

  /** The first n managers are finalized or canceled. */
  predicate FrontRemoved(ms: seq<nat>, counts: map<nat, nat>, full: bool, w: World, n: nat)
    requires n <= |ms|
  {
    forall j :: 0 <= j < n ==>
      Classify(Seen(ms, counts, j, w), full).Finish? || Classify(Seen(ms, counts, j, w), full).Drop?
  }

  /** How the drain ends after removing n managers: on the first manager
      that failed or is still ongoing, or with the queue empty. */
  predicate EndShaped(ms: seq<nat>, counts: map<nat, nat>, full: bool, w: World, n: nat, d: Drain)
    requires n <= |ms|
  {
    && (n == |ms| ==> d.ok && d.remaining == [])
    && (n < |ms| ==> Classify(Seen(ms, counts, n, w), full) in {Stop, Keep})
    && (n < |ms| && Classify(Seen(ms, counts, n, w), full) == Stop ==> !d.ok && d.remaining == ms[n + 1..])
    && (n < |ms| && Classify(Seen(ms, counts, n, w), full) == Keep ==> d.ok && d.remaining == ms[n..])
  }

  /** Removing a finalized or canceled front manager keeps the shape. */
  lemma DrainShapeStep(ms: seq<nat>, counts: map<nat, nat>, full: bool, w: World)
    requires NoDups(ms) && ms != []
    requires Classify(Seen(ms, counts, 0, w), full).Finish? || Classify(Seen(ms, counts, 0, w), full).Drop?
    requires DrainShaped(ms[1..], counts[ms[0] := Count(counts, ms[0]) + 1], full, w)
    ensures DrainShaped(ms, counts, full, w)
  {
    var next := counts[ms[0] := Count(counts, ms[0]) + 1];
    var k := Removed(ms[1..], next, full, w);
    assert Removed(ms, counts, full, w) == k + 1;
    assert DrainSpec(ms, counts, full, w) == DrainSpec(ms[1..], next, full, w);
    FrontStep(ms, counts, full, w, k);
    EndStep(ms, counts, full, w, k, DrainSpec(ms, counts, full, w));
  }

  lemma FrontStep(ms: seq<nat>, counts: map<nat, nat>, full: bool, w: World, k: nat)
    requires NoDups(ms) && k < |ms|
    requires Classify(Seen(ms, counts, 0, w), full).Finish? || Classify(Seen(ms, counts, 0, w), full).Drop?
    requires FrontRemoved(ms[1..], counts[ms[0] := Count(counts, ms[0]) + 1], full, w, k)
    ensures FrontRemoved(ms, counts, full, w, k + 1)
  {
    forall j | 0 <= j < k + 1
      ensures Classify(Seen(ms, counts, j, w), full).Finish? || Classify(Seen(ms, counts, j, w), full).Drop?
    {
      if j > 0 {
        SeenShift(ms, counts, w, j - 1);
      }
    }
  }

  lemma EndStep(ms: seq<nat>, counts: map<nat, nat>, full: bool, w: World, k: nat, d: Drain)
    requires NoDups(ms) && k < |ms|
    requires EndShaped(ms[1..], counts[ms[0] := Count(counts, ms[0]) + 1], full, w, k, d)
    ensures EndShaped(ms, counts, full, w, k + 1, d)
  {
    if k + 1 < |ms| {
      SeenShift(ms, counts, w, k);
      assert ms[k + 1..] == ms[1..][k..];
      assert ms[k + 2..] == ms[1..][k + 1..];
    }
  }

  /** Every drain of distinct managers has that shape. */
  lemma {:induction false} DrainShape(ms: seq<nat>, counts: map<nat, nat>, full: bool, w: World)
    requires NoDups(ms)
    ensures DrainShaped(ms, counts, full, w)
    decreases |ms|
  {
    if ms != [] {
      var a := Classify(Seen(ms, counts, 0, w), full);
      if a.Finish? || a.Drop? {
        assert NoDups(ms[1..]);
        DrainShape(ms[1..], counts[ms[0] := Count(counts, ms[0]) + 1], full, w);
        DrainShapeStep(ms, counts, full, w);
      } else {
        assert Removed(ms, counts, full, w) == 0;
      }
    }
  }

  /** A failed drain is caused by a failing manager: the report of a manager
      that is not ongoing, finalized or canceled. */
  lemma DrainFailureCause(ms: seq<nat>, counts: map<nat, nat>, full: bool, w: World)
    requires NoDups(ms)
    ensures var n := Removed(ms, counts, full, w);
      !DrainSpec(ms, counts, full, w).ok <==>
        n < |ms| && ((!full && Seen(ms, counts, n, w).anyFailed) ||
          ((Seen(ms, counts, n, w).state == Failed || Seen(ms, counts, n, w).ready) &&
           Seen(ms, counts, n, w).stateAfterFinalize == Failed))
  {
    DrainShape(ms, counts, full, w);
    var n := Removed(ms, counts, full, w);
    var d := DrainSpec(ms, counts, full, w);
    assert EndShaped(ms, counts, full, w, n, d);
    if n < |ms| {
      assert Classify(Seen(ms, counts, n, w), full) in {Stop, Keep};
    }
  }

  class JobPipeline {
    /** The queued items. */
    var pipeline: seq<Item>
    /** Ids of the managers in flight. */
    var jobManagers: seq<nat>
    var failed: bool
    /** Number of lines printed since the last status refresh. */
    var tmpLines: nat
    /** `update()` calls made so far, per manager. */
    var updates: map<nat, nat>
    /** Forks of the environment made so far. */
    var forks: nat
    /** Each `create_jobs` call: the manager and the environment it got. */
    var expansions: seq<(nat, EnvHandle)>
    /** Jobs run (`run_job` then `finish`), in order. */
    var ranJobs: seq<nat>
    /** Calls of `cache.export()`. */
    var exports: nat
    /** Items popped by the current `run_jobs`. */
    ghost var popped: seq<Item>
    /** Results of the status updates of the current `run_jobs`. */
    ghost var statusLog: seq<bool>

    constructor(items: seq<Item>)
      ensures pipeline == items && !failed && tmpLines == 0
      ensures jobManagers == [] && updates == map[] && forks == 0
      ensures expansions == [] && ranJobs == [] && exports == 0
    {
      pipeline := items;
      jobManagers := [];
      failed := false;
      tmpLines := 0;
      updates := map[];
      forks := 0;
      expansions := [];
      ranJobs := [];
      exports := 0;
      popped := [];
      statusLog := [];
    }

    /** `_print_tmp`: a message that will be overwritten later. */
    method PrintTmp(msg: string)
      modifies this`tmpLines
      ensures tmpLines == old(tmpLines) + CountChar(msg, '\n') + 1
    {
      tmpLines := tmpLines + CountChar(msg, '\n') + 1;
    }

    /** `_status_update`: drains the managers in flight; True iff no
        failure was met. */
    method StatusUpdate(w: World, full: bool) returns (ok: bool)
      modifies this`jobManagers, this`updates, this`tmpLines
      ensures var d := DrainSpec(old(jobManagers), old(updates), full, w);
        ok == d.ok && jobManagers == d.remaining && updates == d.counts &&
        tmpLines == d.lines +
          (if ok && pipeline != [] then CountChar("Active job: " + pipeline[0].name, '\n') + 1 else 0)
    {
      tmpLines := 0;
      var stop := false;
      while jobManagers != [] && !stop
        invariant !stop ==> tmpLines == 0
        invariant !stop ==>
          DrainSpec(old(jobManagers), old(updates), full, w) == DrainSpec(jobManagers, updates, full, w)
        invariant stop ==>
          DrainSpec(old(jobManagers), old(updates), full, w) == Drain(true, jobManagers, updates, tmpLines)
        decreases |jobManagers|, if stop then 0 else 1
      {
        var m := jobManagers[0];
        jobManagers := jobManagers[1..];
        var r := w.report(m, Count(updates, m));
        updates := updates[m := Count(updates, m) + 1];
        if !full && r.anyFailed {
          return false;
        }
        if r.state == Failed || r.ready {
          if r.stateAfterFinalize == Failed {
            return false;
          }
        } else if r.state == Canceled {
        } else {
          PrintTmp(r.ongoingMsg);
          jobManagers := [m] + jobManagers;
          stop := true;
        }
      }
      if pipeline != [] {
        PrintTmp("Active job: " + pipeline[0].name);
      }
      return true;
    }

    /** One pop from the front of the pipeline: a manager goes in flight
        and its jobs, created from a fresh fork, are spliced in front; a job
        is run and finished; anything else is only removed. */
    method Pop(w: World) returns (item: Item)
      requires pipeline != []
      modifies this`pipeline, this`jobManagers, this`expansions, this`forks, this`ranJobs, this`popped
      ensures item == old(pipeline[0]) && popped == old(popped) + [item]
      ensures pipeline == AfterPop(w, old(pipeline), old(forks))
      ensures forks == old(forks) + ManagerCount([item])
      ensures expansions == old(expansions) + Expansions([item], old(forks))
      ensures ranJobs == old(ranJobs) + JobIds([item])
      ensures jobManagers == old(jobManagers) + (if item.ManagerItem? then [item.id] else [])
    {
      item := pipeline[0];
      var rest := pipeline[1..];
      popped := popped + [item];
      match item {
        case ManagerItem(id, name) =>
          var env := ForkedEnv(forks);
          jobManagers := jobManagers + [id];
          expansions := expansions + [(id, env)];
          forks := forks + 1;
          pipeline := Children(w, id, env) + rest;
        case JobItem(id, _) =>
          pipeline := rest;
          ranJobs := ranJobs + [id];
        case OtherItem(_) =>
          pipeline := rest;
      }
    }

    /** `popleft` and the expansion of a manager, keeping the trace of the
        run so far; the deques shrink in the order used for termination. */
    method PopTraced(w: World, ghost start: seq<Item>, ghost k0: nat,
                     ghost e0: seq<(nat, EnvHandle)>, ghost r0: seq<nat>) returns (item: Item)
      requires pipeline != []
      requires Trace(w, start, k0, e0, r0, popped, pipeline, forks, expansions, ranJobs)
      modifies this`pipeline, this`jobManagers, this`expansions, this`forks, this`ranJobs, this`popped
      ensures Trace(w, start, k0, e0, r0, popped, pipeline, forks, expansions, ranJobs)
      ensures popped == old(popped) + [item]
      ensures jobManagers == old(jobManagers) + (if item.ManagerItem? then [item.id] else [])
      ensures ManagerCount(pipeline) < old(ManagerCount(pipeline)) ||
        (ManagerCount(pipeline) == old(ManagerCount(pipeline)) && |pipeline| < old(|pipeline|))
    {
      TraceStep(w, start, k0, e0, r0, popped, pipeline, forks, expansions, ranJobs);
      PopShrinks(w, pipeline, forks);
      item := Pop(w);
    }

    /** One iteration of the loop of `run_jobs`, up to the `failed` update:
        pop an item, then (unless it was neither a job nor a manager) take
        a status update. */
    method Step(w: World, full: bool, ghost start: seq<Item>, ghost k0: nat,
                ghost e0: seq<(nat, EnvHandle)>, ghost r0: seq<nat>) returns (typeError: bool)
      requires pipeline != []
      requires Trace(w, start, k0, e0, r0, popped, pipeline, forks, expansions, ranJobs)
      modifies this`pipeline, this`jobManagers, this`expansions, this`forks, this`ranJobs, this`popped
      modifies this`updates, this`tmpLines, this`statusLog, this`failed
      ensures Trace(w, start, k0, e0, r0, popped, pipeline, forks, expansions, ranJobs)
      ensures |popped| == old(|popped|) + 1
      ensures ManagerCount(pipeline) < old(ManagerCount(pipeline)) ||
        (ManagerCount(pipeline) == old(ManagerCount(pipeline)) && |pipeline| < old(|pipeline|))
      ensures typeError ==> popped[|popped| - 1].OtherItem? && statusLog == old(statusLog) && failed == old(failed)
      ensures typeError ==> jobManagers == old(jobManagers) && updates == old(updates) && tmpLines == old(tmpLines)
      ensures !typeError ==>
        var item := popped[|popped| - 1];
        var d := DrainSpec(old(jobManagers) + (if item.ManagerItem? then [item.id] else []), old(updates), full, w);
        && statusLog == old(statusLog) + [d.ok] && failed == (old(failed) || !d.ok)
        && jobManagers == d.remaining && updates == d.counts
    {
      var item := PopTraced(w, start, k0, e0, r0);
      if item.OtherItem? {
        return true;
      }
      ghost var d := DrainSpec(jobManagers, updates, full, w);
      var ok := StatusUpdate(w, full);
      assert ok == d.ok;
      statusLog := statusLog + [ok];
      failed := failed || !ok;
      return false;
    }

    /** `run_jobs`: runs the pipeline to the end, or, outside full mode,
        until the first failure; then exports the cache once. */
    method RunJobs(w: World, full: bool) returns (outcome: Outcome)
      modifies this
      ensures Trace(w, old(pipeline), old(forks), old(expansions), old(ranJobs),
                    popped, pipeline, forks, expansions, ranJobs)
      ensures failed == (old(failed) || false in statusLog)
      ensures outcome.Completed? ==>
        outcome.failed == failed && exports == old(exports) + 1 && |statusLog| == |popped|
      ensures outcome == Completed(false) ==> pipeline == [] && jobManagers == []
      ensures outcome.Completed? && (pipeline != [] || jobManagers != []) ==> failed && !full
      ensures outcome.Raised? ==> exports == old(exports)
      ensures outcome == Raised(TypeError) ==>
        popped != [] && popped[|popped| - 1].OtherItem? && |statusLog| + 1 == |popped|
      ensures outcome == Raised(IndexError) ==> pipeline == [] && jobManagers != []
      ensures !full && outcome.Completed? ==> AllButLastOk(statusLog)
      ensures !full && old(failed) && outcome.Completed? ==> |popped| <= 1
    {
      jobManagers := [];
      popped := [];
      statusLog := [];
      while pipeline != [] || jobManagers != []
        invariant Trace(w, old(pipeline), old(forks), old(expansions), old(ranJobs),
                        popped, pipeline, forks, expansions, ranJobs)
        invariant failed == (old(failed) || false in statusLog)
        invariant |statusLog| == |popped| && exports == old(exports)
        invariant failed && !full ==> popped == []
        invariant !full ==> AllOk(statusLog)
        decreases ManagerCount(pipeline), |pipeline|
      {
        if pipeline == [] {
          return Raised(IndexError);
        }
        var typeError := Step(w, full, old(pipeline), old(forks), old(expansions), old(ranJobs));
        if typeError {
          return Raised(TypeError);
        }
        if failed && !full {
          break;
        }
      }
      exports := exports + 1;
      return Completed(failed);
    }
  }
}
