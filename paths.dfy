/** Paths of task files (`pisek/paths.py`): a task path is a path relative
    to the task directory, normalised, together with its full path and its
    base name; helpers derive the paths of built programs and of the data
    files under the data directory. */
module TaskPaths {
  import opened Common
  import opened Text
  import opened PosixPath

  const BuildDir := "build/"
  const GeneratedSubdir := "generated/"
  const InputsSubdir := "inputs/"
  const InvalidOutputsSubdir := "invalid/"
  const OutputsSubdir := "outputs/"
  const SanitizedSubdir := "sanitized/"
  const LogSubdir := "log/"

  /** The part of the environment the helpers read. */
  datatype TaskEnv = TaskEnv(taskDir: string, solutionsSubdir: string, dataSubdir: string)

  datatype TaskPath = TaskPath(fullpath: string, relpath: string, name: string)

  /** `TaskPath(task_path, *path)`; `None` when no parts are given (joining
      nothing raises TypeError). */
  function NewTaskPath(taskPath: string, parts: seq<string>): (r: Option<TaskPath>)
    ensures r.None? <==> parts == []
  {
    match JoinAll(parts)
    case None => None
    case Some(joined) =>
      var rel := Normpath(joined);
      Some(TaskPath(PathJoin(taskPath, rel), rel, Basename(rel)))
  }

  /** The relative path is normalised and never empty; the full path is
      the relative path placed under the task directory (or the relative
      path itself when it is absolute); the name is its last component. */
  lemma TaskPathShape(taskPath: string, parts: seq<string>)
    requires parts != []
    ensures var tp := NewTaskPath(taskPath, parts).value;
      && tp.relpath == Normpath(JoinAll(parts).value) && tp.relpath != ""
      && (IsAbs(tp.relpath) <==> IsAbs(JoinAll(parts).value))
      && (IsAbs(tp.relpath) ==> tp.fullpath == tp.relpath)
      && (!IsAbs(tp.relpath) ==> EndsWith(tp.fullpath, tp.relpath))
      && '/' !in tp.name && EndsWith(tp.relpath, tp.name)
  {
    var tp := NewTaskPath(taskPath, parts).value;
    var r := tp.relpath;
    assert r == r[..|r| - |tp.name|] + tp.name;
    assert r[|r| - |tp.name|..] == tp.name;
  }

  /** A task path whose last part is a plain file name is named after it. */
  lemma TaskPathName(taskPath: string, parts: seq<string>)
    requires parts != [] && Plain(parts[|parts| - 1])
    ensures NewTaskPath(taskPath, parts).value.name == parts[|parts| - 1]
  {
    var last := parts[|parts| - 1];
    BasenameJoinAll(parts);
    BasenameNoSlash(last);
    NormpathKeepsName(JoinAll(parts).value);
  }

  datatype FormatError = InvalidFormatSpecifier(spec: string)

  /** `format(task_path, spec)`. */
  function Format(tp: TaskPath, spec: string): (r: Result<string, FormatError>)
    ensures spec == "f" ==> r == Ok(tp.fullpath)
    ensures spec == "p" || spec == "" ==> r == Ok(tp.relpath)
    ensures spec == "n" ==> r == Ok(tp.name)
    ensures spec !in {"f", "p", "n", ""} ==> r == Err(InvalidFormatSpecifier(spec))
  {
    if spec == "f" then Ok(tp.fullpath)
    else if spec == "p" then Ok(tp.relpath)
    else if spec == "n" then Ok(tp.name)
    else if spec == "" then Ok(tp.relpath)
    else Err(InvalidFormatSpecifier(spec))
  }

  function BasePath(env: TaskEnv, parts: seq<string>): Option<TaskPath>
  {
    NewTaskPath(env.taskDir, parts)
  }

  /** `from_abspath`: the path relative to the task directory, both taken
      against the working directory `cwd`. */
  function FromAbspath(env: TaskEnv, path: string, cwd: string): (r: Result<TaskPath, string>)
    ensures r.Err? <==> path == ""
  {
    match Relpath(path, env.taskDir, cwd)
    case Err(e) => Err(e)
    case Ok(rel) => Ok(BasePath(env, [rel]).value)
  }

  function SolutionPath(env: TaskEnv, parts: seq<string>): TaskPath
  {
    NewTaskPath(env.taskDir, [env.solutionsSubdir] + parts).value
  }

  function ExecutablePath(env: TaskEnv, parts: seq<string>): TaskPath
  {
    NewTaskPath(env.taskDir, [BuildDir] + parts).value
  }

  /** `executable_file`: the program's base name without extension, under
      the build directory. */
  function ExecutableFile(env: TaskEnv, program: string): TaskPath
  {
    ExecutablePath(env, [Stem(Basename(program))])
  }

  function DataPath(env: TaskEnv, parts: seq<string>): TaskPath
  {
    NewTaskPath(env.taskDir, [env.dataSubdir] + parts).value
  }

  function GeneratedPath(env: TaskEnv, parts: seq<string>): TaskPath
  {
    DataPath(env, [GeneratedSubdir] + parts)
  }

  function InputPath(env: TaskEnv, parts: seq<string>): TaskPath
  {
    DataPath(env, [InputsSubdir] + parts)
  }

  function InvalidPath(env: TaskEnv, parts: seq<string>): TaskPath
  {
    DataPath(env, [InvalidOutputsSubdir] + parts)
  }

  function OutputPath(env: TaskEnv, parts: seq<string>): TaskPath
  {
    DataPath(env, [OutputsSubdir] + parts)
  }

  /** `output_file`: `<input stem>.<solution>.out` under the outputs. */
  function OutputFile(env: TaskEnv, inputName: string, solution: string): TaskPath
  {
    OutputPath(env, [Stem(Basename(inputName)) + "." + Basename(solution) + ".out"])
  }

  function SanitizedPath(env: TaskEnv, parts: seq<string>): TaskPath
  {
    DataPath(env, [SanitizedSubdir] + parts)
  }

  /** `sanitized_file`: `<base name>.clean` under the sanitized files. */
  function SanitizedFile(env: TaskEnv, name: string): TaskPath
  {
    SanitizedPath(env, [Basename(name) + ".clean"])
  }

  function LogPath(env: TaskEnv, parts: seq<string>): TaskPath
  {
    DataPath(env, [LogSubdir] + parts)
  }

  /** `points_file`: only the extension is removed, so a directory in
      `name` stays in the path. */
  function PointsFile(env: TaskEnv, name: string): TaskPath
  {
    LogPath(env, [Stem(name) + ".points"])
  }

  /** `log_file`: `<input stem>.<program>.log` under the logs. */
  function LogFile(env: TaskEnv, name: string, program: string): TaskPath
  {
    LogPath(env, [Stem(Basename(name)) + "." + Basename(program) + ".log"])
  }

  /** A data file sits under the data directory and the given
      subdirectory: its relative path is the normalised join of the
      three. */
  lemma DataFileJoin(env: TaskEnv, sub: string, file: string)
    ensures DataPath(env, [sub, file]).relpath == Normpath(PathJoin(PathJoin(env.dataSubdir, sub), file))
  {
    var d := env.dataSubdir;
    var ps := [d, sub, file];
    assert [d] + [sub, file] == ps;
    assert JoinAll([d, sub]) == Some(PathJoin(d, sub)) by {
      assert [d, sub][..1] == [d];
    }
    assert JoinAll(ps) == Some(PathJoin(PathJoin(d, sub), file)) by {
      assert ps[..2] == [d, sub];
    }
  }

  /** The input helper places a file in the inputs subdirectory of the
      data directory. */
  lemma InputFile(env: TaskEnv, file: string)
    ensures InputPath(env, [file]).relpath == Normpath(PathJoin(PathJoin(env.dataSubdir, InputsSubdir), file))
  {
    assert [InputsSubdir] + [file] == [InputsSubdir, file];
    DataFileJoin(env, InputsSubdir, file);
  }

  /** Any path ending in a part with a plain base name is named after it. */
  lemma SubPathBasename(taskDir: string, prefix: seq<string>, file: string)
    requires Plain(Basename(file))
    ensures NewTaskPath(taskDir, prefix + [file]).value.name == Basename(file)
  {
    var ps := prefix + [file];
    assert ps[|ps| - 1] == file;
    BasenameJoinAll(ps);
    NormpathKeepsName(JoinAll(ps).value);
  }

  lemma SubPathName(taskDir: string, prefix: seq<string>, file: string)
    requires Plain(file)
    ensures NewTaskPath(taskDir, prefix + [file]).value.name == file
  {
    BasenameNoSlash(file);
    SubPathBasename(taskDir, prefix, file);
  }

  lemma StemNoSlash(p: string)
    requires '/' !in p
    ensures '/' !in Stem(p)
  {
    assert forall j :: 0 <= j < |Stem(p)| ==> Stem(p)[j] == p[j];
  }

  /** The output of a solution on an input is named
      `<stem of input>.<base name of solution>.out`, whatever directories
      they came from. */
  lemma OutputFileName(env: TaskEnv, inputName: string, solution: string)
    ensures OutputFile(env, inputName, solution).name ==
      Stem(Basename(inputName)) + "." + Basename(solution) + ".out"
  {
    StemNoSlash(Basename(inputName));
    DottedFileName(env, OutputsSubdir, Stem(Basename(inputName)), Basename(solution), ".out");
  }

  /** The log of a program on an input is named
      `<stem of input>.<base name of program>.log`. */
  lemma LogFileName(env: TaskEnv, name: string, program: string)
    ensures LogFile(env, name, program).name == Stem(Basename(name)) + "." + Basename(program) + ".log"
  {
    StemNoSlash(Basename(name));
    DottedFileName(env, LogSubdir, Stem(Basename(name)), Basename(program), ".log");
  }

  /** A data file named `<stem of a>.<b><ext>` keeps that name. */
  lemma DottedFileName(env: TaskEnv, sub: string, stem: string, b: string, ext: string)
    requires '/' !in stem && '/' !in b && '/' !in ext && |ext| >= 3
    ensures DataPath(env, [sub] + [stem + "." + b + ext]).name == stem + "." + b + ext
  {
    var file := stem + "." + b + ext;
    assert '/' !in stem + "." + b;
    SuffixedPlain(stem + "." + b, ext);
    DataFileNamed(env, sub, file);
  }

  lemma DataFileNamed(env: TaskEnv, sub: string, file: string)
    requires Plain(file)
    ensures DataPath(env, [sub] + [file]).name == file
  {
    SubPathName(env.taskDir, [env.dataSubdir, sub], file);
    ConsPair(env.dataSubdir, sub, file);
  }

  lemma ConsPair(a: string, b: string, c: string)
    ensures [a] + ([b] + [c]) == [a, b] + [c]
  {
  }

  /** A suffix of at least three characters with no slash makes a plain
      name. */
  lemma SuffixedPlain(x: string, suffix: string)
    requires '/' !in x && '/' !in suffix && |suffix| >= 3
    ensures Plain(x + suffix)
  {
    var s := x + suffix;
    forall j | 0 <= j < |s| ensures s[j] != '/' {
      if j < |x| { assert s[j] == x[j]; } else { assert s[j] == suffix[j - |x|]; }
    }
  }

  /** The sanitized copy of a file is named `<its base name>.clean`. */
  lemma SanitizedFileName(env: TaskEnv, name: string)
    ensures SanitizedFile(env, name).name == Basename(name) + ".clean"
  {
    var file := Basename(name) + ".clean";
    SuffixedPlain(Basename(name), ".clean");
    DataFileNamed(env, SanitizedSubdir, file);
  }

  /** A built program is named after the program's base name without its
      extension, when that is a plain name. */
  lemma ExecutableFileName(env: TaskEnv, program: string)
    requires Plain(Stem(Basename(program)))
    ensures ExecutableFile(env, program).name == Stem(Basename(program))
  {
    SubPathName(env.taskDir, [BuildDir], Stem(Basename(program)));
  }

  /** The points file only replaces the extension of `name`: its base name
      is that of `name` without extension, followed by `.points`. */
  lemma PointsFileName(env: TaskEnv, name: string)
    ensures PointsFile(env, name).name == Basename(Stem(name)) + ".points"
  {
    var file := Stem(name) + ".points";
    BasenameAppend(Stem(name), ".points");
    SuffixedPlain(Basename(Stem(name)), ".points");
    assert [LogSubdir] + [file] == [LogSubdir, file];
    ConsPair(env.dataSubdir, LogSubdir, file);
    SubPathBasename(env.taskDir, [env.dataSubdir, LogSubdir], file);
  }

  /** A directory in `name` stays in the path of its points file. */
  lemma PointsFilePath(env: TaskEnv, name: string)
    ensures PointsFile(env, name).relpath ==
      Normpath(PathJoin(PathJoin(env.dataSubdir, LogSubdir), Stem(name) + ".points"))
  {
    assert [LogSubdir] + [Stem(name) + ".points"] == [LogSubdir, Stem(name) + ".points"];
    DataFileJoin(env, LogSubdir, Stem(name) + ".points");
  }

  /** A file below the task directory gets the task path of the
      components below it. */
  lemma FromAbspathBelow(env: TaskEnv, path: string, cwd: string)
    requires path != ""
    requires var s := Components(Abspath(cwd, env.taskDir));
      var t := Components(Abspath(cwd, path));
      |s| < |t| && t[..|s|] == s
    ensures var s := Components(Abspath(cwd, env.taskDir));
      var t := Components(Abspath(cwd, path));
      FromAbspath(env, path, cwd).value.relpath == Normpath(Join(t[|s|..], '/'))
  {
    RelpathBelow(path, env.taskDir, cwd);
  }
}
