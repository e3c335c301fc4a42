/** File helpers of `pisek/utils/util.py`: expanding globs into a sorted
    list of task files, removing the build, tests and internals
    directories of a task, and removing the files of the tests directory
    that a run did not use. The file system is a class whose entries the
    removals update. */
module Util {
  import opened Common
  import opened Text
  import opened PosixPath

  // ---------------------------------------------------------------------------
  // Globs

  /** `glob.glob(g, root_dir=directory, recursive=True, include_hidden=True)`:
      the matches of one pattern, as paths relative to the directory. */
  type Glob = string -> seq<string>

  /** `sum(files_per_glob, start=[])`: the matches of every pattern, one
      pattern after another. */
  function AllMatches(globs: seq<string>, glob: Glob): seq<string>
  {
    if globs == [] then []
    else AllMatches(globs[..|globs| - 1], glob) + glob(globs[|globs| - 1])
  }

  /** Some pattern matches `path`. */
  predicate Matched(path: string, globs: seq<string>, glob: Glob)
  {
    exists i :: 0 <= i < |globs| && path in glob(globs[i])
  }

  /** Some exclude entry is a prefix of `path`. */
  predicate Excluded(path: string, exclude: seq<string>, isPrefix: (string, string) -> bool)
  {
    exists j :: 0 <= j < |exclude| && isPrefix(exclude[j], path)
  }

  lemma {:induction false} AllMatchesSpec(globs: seq<string>, glob: Glob, path: string)
    ensures path in AllMatches(globs, glob) <==> Matched(path, globs, glob)
  {
    if globs != [] {
      var init := globs[..|globs| - 1];
      AllMatchesSpec(init, glob, path);
      if Matched(path, init, glob) {
        var i :| 0 <= i < |init| && path in glob(init[i]);
        assert globs[i] == init[i];
      }
      if path in glob(globs[|globs| - 1]) {
        assert Matched(path, globs, glob);
      } else if Matched(path, globs, glob) {
        var i :| 0 <= i < |globs| && path in glob(globs[i]);
        assert i < |init| && init[i] == globs[i];
      }
    }
  }

  /** `globs_to_files`: the files some pattern matches, each once, in
      increasing order, without those under an excluded path. */
  function GlobsToFiles(globs: seq<string>, glob: Glob, exclude: seq<string>, isPrefix: (string, string) -> bool)
    : seq<string>
  {
    Filter(SortedUnique(AllMatches(globs, glob)), path => !Excluded(path, exclude, isPrefix))
  }

  /** Keeping some elements of a strictly increasing list keeps it strictly
      increasing. */
  lemma {:induction false} FilterStrictlySorted(s: seq<string>, p: string -> bool)
    requires StrictlySorted(s)
    ensures StrictlySorted(Filter(s, p))
  {
    if s != [] {
      FilterStrictlySorted(s[1..], p);
      var t := Filter(s[1..], p);
      forall j | 0 <= j < |t|
        ensures StrLt(s[0], t[j])
      {
        var k :| 0 <= k < |s[1..]| && s[1..][k] == t[j];
        assert s[k + 1] == t[j];
      }
      var r := Filter(s, p);
      forall i, j | 0 <= i < j < |r|
        ensures StrLt(r[i], r[j])
      {
        if p(s[0]) && i == 0 {
          assert r[j] == t[j - 1];
        }
      }
    }
  }

  /** A file is listed exactly when some pattern matches it and no exclude
      entry is a prefix of it; the list is sorted and has no repetitions. */
  lemma GlobsToFilesSpec(globs: seq<string>, glob: Glob, exclude: seq<string>, isPrefix: (string, string) -> bool)
    ensures StrictlySorted(GlobsToFiles(globs, glob, exclude, isPrefix))
    ensures NoDups(GlobsToFiles(globs, glob, exclude, isPrefix))
    ensures forall path :: path in GlobsToFiles(globs, glob, exclude, isPrefix)
              <==> Matched(path, globs, glob) && !Excluded(path, exclude, isPrefix)
  {
    var all := AllMatches(globs, glob);
    var unique := SortedUnique(all);
    var keep := path => !Excluded(path, exclude, isPrefix);
    var r := Filter(unique, keep);
    FilterStrictlySorted(unique, keep);
    StrictlySortedNoDups(r);
    forall path
      ensures path in r <==> Matched(path, globs, glob) && !Excluded(path, exclude, isPrefix)
    {
      AllMatchesSpec(globs, glob, path);
      assert path in unique <==> path in Elems(unique);
      assert path in all <==> path in Elems(all);
    }
  }

  // ---------------------------------------------------------------------------
  // The file system

  datatype Kind = File | Dir

  /** The errors of `shutil.rmtree` and `os.remove` the model tells apart. */
  datatype FsError = FileNotFound(path: string) | NotADirectory(path: string) | IsADirectory(path: string)

  /** `path` is `dir` or lies below it. */
  predicate Under(path: string, dir: string)
  {
    path == dir || StartsWith(path, dir + "/")
  }

  /** The entries `shutil.rmtree(dir)` removes. */
  function Subtree(entries: map<string, Kind>, dir: string): set<string>
  {
    set path | path in entries && Under(path, dir)
  }

  /** A file system is a tree: every proper ancestor of an entry is a
      directory entry. */
  ghost predicate Closed(entries: map<string, Kind>)
  {
    forall path, dir :: path in entries && dir != "" && StartsWith(path, dir + "/")
      ==> dir in entries && entries[dir] == Dir
  }

  /** Below something below `dir` is below `dir`. */
  lemma UnderTrans(path: string, mid: string, dir: string)
    requires StartsWith(path, mid + "/") && Under(mid, dir)
    ensures StartsWith(path, dir + "/")
  {
    if mid != dir {
      assert path[..|dir + "/"|] == mid[..|dir + "/"|];
    }
  }

  /** Removing a subtree leaves a tree. */
  lemma ClosedRemoveTree(entries: map<string, Kind>, dir: string)
    requires Closed(entries)
    ensures Closed(entries - Subtree(entries, dir))
  {
    var rest := entries - Subtree(entries, dir);
    forall path, mid | path in rest && mid != "" && StartsWith(path, mid + "/")
      ensures mid in rest && rest[mid] == Dir
    {
      if Under(mid, dir) {
        UnderTrans(path, mid, dir);
      }
    }
  }

  /** Removing a file leaves a tree. */
  lemma ClosedRemoveFile(entries: map<string, Kind>, path: string)
    requires Closed(entries) && path in entries && entries[path] == File
    ensures Closed(entries - {path})
  {
  }

  /** What `shutil.rmtree(dir)` leaves and raises. */
  function RemoveTreeResult(entries: map<string, Kind>, dir: string): (map<string, Kind>, Option<FsError>)
  {
    if dir !in entries then (entries, Some(FileNotFound(dir)))
    else if entries[dir] == File then (entries, Some(NotADirectory(dir)))
    else (entries - Subtree(entries, dir), None)
  }

  /** The files and directories, by normalised path. */
  class FileSystem {
    var entries: map<string, Kind>

    /** The entries form a tree. */
    ghost predicate Valid()
      reads this
    {
      Closed(entries)
    }

    constructor(initial: map<string, Kind>)
      requires Closed(initial)
      ensures Valid() && entries == initial
    {
      entries := initial;
    }

    /** `shutil.rmtree(dir)`: a missing path or a file is an error and
        changes nothing; a directory goes with everything below it. */
    method RemoveTree(dir: string) returns (err: Option<FsError>)
      requires Valid()
      modifies this
      ensures Valid()
      ensures (entries, err) == RemoveTreeResult(old(entries), dir)
    {
      if dir !in entries {
        return Some(FileNotFound(dir));
      }
      if entries[dir] == File {
        return Some(NotADirectory(dir));
      }
      ClosedRemoveTree(entries, dir);
      entries := entries - Subtree(entries, dir);
      err := None;
    }

    /** `os.remove(path)`: only a file can be removed. */
    method Remove(path: string) returns (err: Option<FsError>)
      requires Valid()
      modifies this
      ensures Valid()
      ensures path !in old(entries) ==> err == Some(FileNotFound(path)) && entries == old(entries)
      ensures path in old(entries) && old(entries)[path] == Dir ==> err == Some(IsADirectory(path)) && entries == old(entries)
      ensures path in old(entries) && old(entries)[path] == File ==> err == None && entries == old(entries) - {path}
    {
      if path !in entries {
        return Some(FileNotFound(path));
      }
      if entries[path] == Dir {
        return Some(IsADirectory(path));
      }
      ClosedRemoveFile(entries, path);
      entries := entries - {path};
      err := None;
    }
  }

  // ---------------------------------------------------------------------------
  // clean_task_dir

  /** The directories `clean_task_dir` removes, joined to the task directory. */
  function Targets(taskDir: string, subdirs: seq<string>): (r: seq<string>)
    ensures |r| == |subdirs|
  {
    seq(|subdirs|, i requires 0 <= i < |subdirs| => Normpath(PathJoin(taskDir, subdirs[i])))
  }

  /** One iteration of `clean_task_dir`'s loop: after an error nothing
      happens; a missing directory is skipped. */
  function CleanStep(before: (map<string, Kind>, Option<FsError>), target: string): (map<string, Kind>, Option<FsError>)
  {
    if before.1.Some? then before
    else
      var after := RemoveTreeResult(before.0, target);
      if after.1.Some? && after.1.value.FileNotFound? then (after.0, None) else after
  }

  /** Removing the directories `targets` one after another, a missing one
      skipped; any other error stops the loop. */
  function CleanSteps(entries: map<string, Kind>, targets: seq<string>): (map<string, Kind>, Option<FsError>)
  {
    if targets == [] then (entries, None)
    else CleanStep(CleanSteps(entries, targets[..|targets| - 1]), targets[|targets| - 1])
  }

  lemma CleanStepsSnoc(entries: map<string, Kind>, targets: seq<string>, n: nat)
    requires n < |targets|
    ensures CleanSteps(entries, targets[..n + 1]) == CleanStep(CleanSteps(entries, targets[..n]), targets[n])
  {
    assert targets[..n + 1][..n] == targets[..n];
  }

  /** No target is an existing file. */
  predicate NoFileTarget(entries: map<string, Kind>, targets: seq<string>)
  {
    forall i :: 0 <= i < |targets| && targets[i] in entries ==> entries[targets[i]] == Dir
  }

  /** `small` holds some of the entries of `large`, unchanged. */
  predicate SubMap(small: map<string, Kind>, large: map<string, Kind>)
  {
    forall path :: path in small ==> path in large && small[path] == large[path]
  }

  /** `path` lies under none of the targets. */
  predicate OutsideAll(path: string, targets: seq<string>)
  {
    forall i :: 0 <= i < |targets| ==> !Under(path, targets[i])
  }

  /** The cleaning only removes entries. */
  lemma {:induction false} CleanStepsShrinks(entries: map<string, Kind>, targets: seq<string>)
    ensures SubMap(CleanSteps(entries, targets).0, entries)
  {
    if targets != [] {
      CleanStepsShrinks(entries, targets[..|targets| - 1]);
    }
  }

  /** The cleaning leaves a tree. */
  lemma {:induction false} CleanStepsClosed(entries: map<string, Kind>, targets: seq<string>)
    requires Closed(entries)
    ensures Closed(CleanSteps(entries, targets).0)
  {
    if targets != [] {
      var before := CleanSteps(entries, targets[..|targets| - 1]);
      CleanStepsClosed(entries, targets[..|targets| - 1]);
      ClosedRemoveTree(before.0, targets[|targets| - 1]);
    }
  }

  /** The cleaning succeeds when no target is an existing file, and a
      failure names a target that is one. */
  lemma {:induction false} CleanStepsFails(entries: map<string, Kind>, targets: seq<string>)
    ensures NoFileTarget(entries, targets) ==> CleanSteps(entries, targets).1 == None
    ensures CleanSteps(entries, targets).1 != None ==>
      exists i :: 0 <= i < |targets| && targets[i] in entries && entries[targets[i]] == File
                  && CleanSteps(entries, targets).1 == Some(NotADirectory(targets[i]))
  {
    if targets != [] {
      var init := targets[..|targets| - 1];
      var last := targets[|targets| - 1];
      CleanStepsFails(entries, init);
      CleanStepsShrinks(entries, init);
      var before := CleanSteps(entries, init);
      if before.1.None? {
        if last in before.0 {
          assert before.0[last] == entries[last];
        }
      } else {
        var i :| 0 <= i < |init| && init[i] in entries && entries[init[i]] == File
                 && before.1 == Some(NotADirectory(init[i]));
        assert targets[i] == init[i];
      }
    }
  }

  /** When the cleaning of a tree succeeds, exactly the entries under the
      targets are gone. */
  lemma {:induction false} CleanStepsRemoves(entries: map<string, Kind>, targets: seq<string>, path: string)
    requires Closed(entries) && path in entries && CleanSteps(entries, targets).1 == None
    requires forall i :: 0 <= i < |targets| ==> targets[i] != ""
    ensures path in CleanSteps(entries, targets).0 <==> OutsideAll(path, targets)
  {
    if targets != [] {
      var init := targets[..|targets| - 1];
      var last := targets[|targets| - 1];
      var before := CleanSteps(entries, init);
      CleanStepsRemoves(entries, init, path);
      CleanStepsClosed(entries, init);
      assert forall i :: 0 <= i < |init| ==> targets[i] == init[i];
      if path in before.0 && Under(path, last) && last !in before.0 {
        assert false;
      }
      if OutsideAll(path, init) && !Under(path, last) {
        assert OutsideAll(path, targets);
      }
    }
  }

  /** `clean_task_dir`: removes the given subdirectories of the task
      directory (the build, tests and internals directories), skipping
      those that do not exist. */
  method CleanTaskDir(fs: FileSystem, taskDir: string, subdirs: seq<string>) returns (err: Option<FsError>)
    requires fs.Valid()
    modifies fs
    ensures fs.Valid()
    ensures (fs.entries, err) == CleanSteps(old(fs.entries), Targets(taskDir, subdirs))
  {
    ghost var targets := Targets(taskDir, subdirs);
    ghost var initial := fs.entries;
    var i := 0;
    while i < |subdirs|
      invariant 0 <= i <= |subdirs|
      invariant CleanSteps(initial, targets[..i]) == (fs.entries, None)
      invariant fs.Valid()
    {
      var full := Normpath(PathJoin(taskDir, subdirs[i]));
      assert full == targets[i];
      CleanStepsSnoc(initial, targets, i);
      var e := fs.RemoveTree(full);
      if e.Some? && !e.value.FileNotFound? {
        CleanStepsStops(initial, targets, i + 1);
        return e;
      }
      i := i + 1;
    }
    assert targets[..i] == targets;
    err := None;
  }

  /** Once the cleaning fails, the later targets change nothing. */
  lemma {:induction false} CleanStepsStops(entries: map<string, Kind>, targets: seq<string>, n: nat)
    requires n <= |targets| && CleanSteps(entries, targets[..n]).1.Some?
    ensures CleanSteps(entries, targets) == CleanSteps(entries, targets[..n])
    decreases |targets| - n
  {
    if n < |targets| {
      CleanStepsSnoc(entries, targets, n);
      CleanStepsStops(entries, targets, n + 1);
    } else {
      assert targets[..n] == targets;
    }
  }

  // ---------------------------------------------------------------------------
  // clean_non_relevant_files

  /** The directories holding an accessed file. */
  function AccessedDirs(accessed: set<string>): set<string>
  {
    set file | file in accessed :: Dirname(file)
  }

  /** The files `clean_non_relevant_files` removes: files below the tests
      directory that were not accessed but share a directory with one that
      was. */
  function NonRelevant(entries: map<string, Kind>, testsDir: string, accessed: set<string>): set<string>
  {
    set path | path in entries && entries[path] == File && StartsWith(path, testsDir + "/")
                 && Dirname(path) in AccessedDirs(accessed) && path !in accessed
  }

  /** A file goes exactly when its directory holds an accessed file and it
      was not accessed itself; accessed files always stay. */
  lemma NonRelevantSpec(entries: map<string, Kind>, testsDir: string, accessed: set<string>, path: string)
    requires path in entries && entries[path] == File && StartsWith(path, testsDir + "/")
    ensures path in NonRelevant(entries, testsDir, accessed)
            <==> (exists file :: file in accessed && Dirname(file) == Dirname(path)) && path !in accessed
  {
    if exists file :: file in accessed && Dirname(file) == Dirname(path) {
      var file :| file in accessed && Dirname(file) == Dirname(path);
      assert Dirname(path) in AccessedDirs(accessed);
    }
  }

  /** `clean_non_relevant_files`: walks the files below the tests directory
      and removes the non-relevant ones; the walk's order does not matter. */
  method CleanNonRelevantFiles(fs: FileSystem, testsDir: string, accessed: set<string>)
    requires fs.Valid()
    modifies fs
    ensures fs.Valid()
    ensures fs.entries == old(fs.entries) - NonRelevant(old(fs.entries), testsDir, accessed)
  {
    var accessedDirs := AccessedDirs(accessed);
    ghost var initial := fs.entries;
    var walk := set path | path in fs.entries && fs.entries[path] == File && StartsWith(path, testsDir + "/");
    while walk != {}
      invariant forall path :: path in walk ==> path in initial && initial[path] == File && StartsWith(path, testsDir + "/")
      invariant fs.entries == initial - (NonRelevant(initial, testsDir, accessed) - walk)
      invariant fs.Valid()
      decreases |walk|
    {
      var path :| path in walk;
      ghost var nonRelevant := NonRelevant(initial, testsDir, accessed);
      var remove := Dirname(path) in accessedDirs && path !in accessed;
      assert remove <==> path in nonRelevant;
      if remove {
        var e := fs.Remove(path);
      }
      WalkStep(initial, nonRelevant, walk, path, remove);
      walk := walk - {path};
    }
  }

  /** Visiting one more file of the walk removes it exactly when it is not
      relevant. */
  lemma WalkStep(initial: map<string, Kind>, nonRelevant: set<string>, walk: set<string>, path: string, remove: bool)
    requires path in walk && (remove <==> path in nonRelevant)
    ensures (if remove then (initial - (nonRelevant - walk)) - {path} else initial - (nonRelevant - walk))
            == initial - (nonRelevant - (walk - {path}))
  {
    if remove {
      assert nonRelevant - (walk - {path}) == (nonRelevant - walk) + {path};
    } else {
      assert nonRelevant - (walk - {path}) == nonRelevant - walk;
    }
  }
}
