# pisek, modelled in Dafny

pisek builds and tests programming-competition tasks. A task has a
configuration, a generator of inputs, a checker of inputs, a judge of
outputs and several solutions. pisek turns these into a pipeline of jobs
and runs it. This project models the core of that machinery and proves
properties of the model:

- **The job-pipeline executor** (`job_pipeline.dfy`). Popping a job manager
  splices the jobs it creates in front of the queue. The managers in
  flight are drained in order for status reports. The run stops at the
  first failure unless in full mode. Job managers, jobs and the cache
  appear only through an abstract `World`.
- **The configuration environment.**
  - `base_env.dfy`: access-logging environments that can be forked, locked
    and asked for the dotted paths read from them.
  - `config_hierarchy.dfy`: the layered config lookup with its `!unset`
    marker, its log of keys asked for and its checks for unused keys and
    TODO comments.
  - `config_types.dfy`: the configuration's value types.
- **The job-graph builders and their verdicts.** Each one turns
  configuration and earlier results into ordered jobs with prerequisite
  edges, or into a verdict.
  - Data assignment: `data_manager.dfy`.
  - The opendata library and its managers: `opendata_lib.dfy`,
    `opendata_managers.dfy`.
  - The judge and checker managers: `checker_base.dfy`,
    `checker_manager.dfy`, `parts_checker.dfy`.
  - Two generations of generator managers: `parts_generator.dfy`,
    `tests_generator.dfy`.
  - The CMS test suite: `cms_test_suite.dfy`.
  - The testing log: `testing_log.dfy`.
  - The resource statistics table: `resource_statistics.dfy`.
- **Paths, files, logging and documentation.**
  - Task paths: `paths.dfy`, over POSIX path functions in `posix_path.dfy`.
  - Glob expansion and cleaning of task directories: `util.dfy`.
  - The JSON log and log levels: `job_logging.dfy`.
  - The documentation's shortcode badges: `shortcodes.dfy`.
- **The task fixtures' programs.**
  - Rust and Go maximum solutions and the `minmax` library:
    `fixture_rs_max.dfy`, `fixture_go_max.dfy`, `fixture_minmax.dfy`.
  - The `sum` judges in Rust and C++: `fixture_sum_cms.dfy`,
    `fixture_sum_kasiopea.dfy`.
  - Their shared numeral parsing: `fixture_numbers.dfy`.

Code that changes state in place is modelled as classes and methods, each
proved against a specification function. Examples are the pipeline's two
queues, the environment's flags, the config's used-key log, the managers'
job lists, the JSON log and the file system. Pure code is modelled as
functions and lemmas. Programs, files, globs, random samples and the clock
are parameters. `common.dfy` and `text.dfy` hold shared values and string
helpers.

Where the documentation and the code disagree, the model follows the code:

- `ConfigHierarchy`'s docstring (pisek/env/config_hierarchy.py:49) says
  the last config overrides the earlier ones. The code searches the task
  config first, so the first config wins.
- `BaseEnv.fork`'s docstring (pisek/config/base_env.py:61-66) says
  earlier accesses carry over to the fork. The code clears them
  (`ForkClears`).

## Model

| member | source | states |
|---|---|---|
| JobPipelineModel.Children | pisek/jobs/job_pipeline.py:27 | the jobs a manager creates hold no managers |
| JobPipelineModel.ManagerCountAppend | pisek/jobs/job_pipeline.py:25-27 | the number of managers in two queued runs adds up |
| JobPipelineModel.FlattenJobs | pisek/jobs/job_pipeline.py:28-30 | items without managers leave the pipeline as they were queued |
| JobPipelineModel.FlattenAppend | pisek/jobs/job_pipeline.py:24-27 | the order in which items leave is compositional: later items follow, with the forks of the earlier managers counted |
| JobPipelineModel.SpliceKeepsFlatten | pisek/jobs/job_pipeline.py:24-27 | popping a manager and putting its created jobs in front, in declared order, keeps the order in which everything leaves |
| JobPipelineModel.FlattenPop | pisek/jobs/job_pipeline.py:24-27 | each pop takes the first item of that order, and what is left continues it |
| JobPipelineModel.PopShrinks | pisek/jobs/job_pipeline.py:24-30 | each pop removes a manager from the queue or shortens it without adding one, so the loop ends |
| JobPipelineModel.ExpansionsAppend | pisek/jobs/job_pipeline.py:27 | the `create_jobs` calls of two runs of items are those of the first followed by those of the second |
| JobPipelineModel.ExpansionsFresh | pisek/jobs/job_pipeline.py:27 | every manager's jobs are created from its own new fork, never the shared environment and never a fork another manager got |
| JobPipelineModel.JobIdsAppend | pisek/jobs/job_pipeline.py:28-30 | the jobs run for two runs of items are those of the first followed by those of the second |
| JobPipelineModel.SeenShift | pisek/jobs/job_pipeline.py:46-48 | once the front manager is updated, the others see the reports they would have seen |
| JobPipelineModel.Removed | pisek/jobs/job_pipeline.py:46-65 | the drain removes at most all managers in flight |
| JobPipelineModel.DrainShape | pisek/jobs/job_pipeline.py:46-65 | the drain takes managers in FIFO order: it removes the finalized and canceled ones, then ends at the first failing manager (removed, result false), at the first ongoing one (kept at the front, result true), or with none left (result true) |
| JobPipelineModel.DrainFailureCause | pisek/jobs/job_pipeline.py:49-59 | the drain fails exactly when it meets a manager that reports `any_failed` outside full mode, or a finalized one whose state is failed |
| JobPipelineModel.JobPipeline.constructor | pisek/jobs/job_pipeline.py:17-18 | a new pipeline holds the items, is not failed and has printed no lines |
| JobPipelineModel.JobPipeline.PrintTmp | pisek/jobs/job_pipeline.py:71-74 | the line count grows by the message's newlines plus one |
| JobPipelineModel.JobPipeline.StatusUpdate | pisek/jobs/job_pipeline.py:40-69 | the loop leaves the managers, the update counts and the result that the drain definition gives, and counts the lines of the ongoing message and of the active-job line |
| JobPipelineModel.JobPipeline.Pop | pisek/jobs/job_pipeline.py:24-30 | a popped manager goes in flight and its jobs, created from a new fork, go in front; a popped job is run; nothing else changes |
| JobPipelineModel.JobPipeline.Step | pisek/jobs/job_pipeline.py:24-33 | one loop iteration keeps the trace invariant and either raises TypeError on a foreign item, leaving the managers in flight, the update counts, the status log, `failed` and the printed line count as they were, or drains the managers in flight (a popped manager joined at the back) as the drain definition says, logs the drain's result and ors its failure into `failed` |
| JobPipelineModel.JobPipeline.RunJobs | pisek/jobs/job_pipeline.py:20-38 | items leave in the flattened order and every manager gets its own fork; `failed` becomes true exactly when some status update fails and never goes back; a normal end exports the cache exactly once and returns `failed`; outside full mode only the last status update may fail, a run that starts failed stops after at most one item, and the run stops early only on a failure; a foreign item raises TypeError and a pop from an empty pipeline raises IndexError, without export |
| PosixPath.PathJoin | pisek/paths.py:36 | `os.path.join`: an absolute second part replaces the first; otherwise the result ends with the second part |
| PosixPath.JoinAll | pisek/paths.py:35 | joining fails exactly when no part is given |
| PosixPath.Basename | pisek/paths.py:38 | the base name holds no slash and is a suffix of the path |
| PosixPath.Dirname | pisek/utils/util.py:47 | `os.path.dirname` is a prefix of the path, empty when the path has no slash, without trailing slashes unless it is all slashes, and only slashes separate it from the base name |
| PosixPath.Splitext | pisek/paths.py:73 | the root and the extension concatenate back to the path; the extension is empty or one dot followed by text with no dot or slash |
| PosixPath.Normpath | pisek/paths.py:35 | `normpath` never yields the empty string and keeps whether the path is absolute |
| PosixPath.BasenameJoin | pisek/paths.py:35-38 | joining keeps the base name of the last part |
| PosixPath.NormpathKeepsName | pisek/paths.py:35-38 | normalising keeps a plain base name |
| PosixPath.RelpathBelow | pisek/paths.py:60-61 | a path below the start directory is reached by descending only: its relative path is the components below the start |
| TaskPaths.NewTaskPath | pisek/paths.py:34-38 | constructing a task path fails (a `TypeError` in Python) exactly when no part is given |
| TaskPaths.TaskPathShape | pisek/paths.py:34-38 | the relative path is normalised and non-empty, absolute exactly when the joined parts are; the full path ends with it (or is it, when absolute); the name is its last component, slash-free |
| TaskPaths.TaskPathName | pisek/paths.py:34-38 | a task path whose last part is a plain file name is named after it |
| TaskPaths.Format | pisek/paths.py:40-53 | `f` gives the full path, `p` and the empty specifier the relative path, `n` the name, and any other specifier the invalid-format error |
| TaskPaths.FromAbspath | pisek/paths.py:59-61 | `from_abspath` fails exactly on the empty path |
| TaskPaths.FromAbspathBelow | pisek/paths.py:59-61 | a file below the task directory gets the relative path of the components below it |
| TaskPaths.DataFileJoin | pisek/paths.py:76-117 | a data file's relative path is the normalised join of the data directory, the subdirectory and the file |
| TaskPaths.InputFile | pisek/paths.py:88-90 | an input file's relative path is the normalised join of the data directory, the inputs subdirectory and the file |
| TaskPaths.SubPathName | pisek/paths.py:34-38 | a task path ending in a plain file name is named after it, whatever comes before |
| TaskPaths.OutputFileName | pisek/paths.py:100-104 | the output of a solution on an input is named `<input stem>.<solution base name>.out` |
| TaskPaths.LogFileName | pisek/paths.py:124-128 | the log of a program on an input is named `<input stem>.<program base name>.log` |
| TaskPaths.SanitizedFileName | pisek/paths.py:110-113 | the sanitized copy of a file is named `<its base name>.clean` |
| TaskPaths.ExecutableFileName | pisek/paths.py:71-74 | a built program is named after the program's base name without its extension |
| TaskPaths.PointsFileName | pisek/paths.py:119-122 | the points file only replaces the extension: its name is the base name of the stem plus `.points` |
| TaskPaths.PointsFilePath | pisek/paths.py:119-122 | a directory in the name stays in the points file's path, under the logs |
| BaseEnvModel.FieldIndex | pisek/config/base_env.py:55 | the position of a declared field of that name, or none exactly when no field has it |
| BaseEnvModel.ReadLogs | pisek/config/base_env.py:48-58 | reading an attribute adds it to the access log exactly when it is public, not one of pydantic's two field tables, logging is on and it is a field or computed field; nothing else changes |
| BaseEnvModel.RecursiveCallShape | pisek/config/base_env.py:74-87 | the recursive walk keeps every field and value, turns logging back on, applies the function to every nested environment, and clears or locks as asked |
| BaseEnvModel.RecursiveCallEverywhere | pisek/config/base_env.py:74-97 | after the walk every environment in the tree has logging on and is cleared (for `_clear_accesses`) or locked (for `lock`) |
| BaseEnvModel.ForkClears | pisek/config/base_env.py:60-72 | forking fails exactly on a locked environment; otherwise the copy holds the same data and no environment in it has any access logged |
| BaseEnvModel.LockLocks | pisek/config/base_env.py:94-97 | locking locks every environment in the tree, keeps data and the root's log, and a locked environment cannot be forked |
| BaseEnvModel.KeyPathsHead | pisek/config/base_env.py:103-108 | every path reported for an accessed name starts with that name |
| BaseEnvModel.PathsForAll | pisek/config/base_env.py:99-112 | the paths reported for all accessed names are all the accessed paths of the tree |
| BaseEnvModel.KeyPathsAttr | pisek/config/base_env.py:104-108 | the paths for an accessed name follow the value `getattr` reads for it, a declared field or else a computed one: that environment's paths prefixed with `name.`, or the name itself |
| BaseEnvModel.PrefixAll | pisek/config/base_env.py:106 | prefixing a list of distinct paths with `key.` gives exactly the prefixed paths, each once |
| BaseEnvModel.PathsUnder | pisek/config/base_env.py:104-108 | the paths for one accessed name: the nested paths prefixed with `name.` when the declared or computed field `getattr` reads holds an environment, the name itself otherwise, without repetition |
| BaseEnvModel.GatherKey | pisek/config/base_env.py:103-109 | one round of the loop keeps the invariant: the list holds exactly the paths of the names handled, without repetition |
| BaseEnvModel.GetAccessed | pisek/config/base_env.py:99-112 | `get_accessed` lists every accessed path of the tree, dotted through the environments held by declared and computed fields, each once |
| BaseEnvModel.BaseEnv.constructor | pisek/config/base_env.py:40-44 | a new environment has an empty log, logging on and is unlocked |
| BaseEnvModel.BaseEnv.GetAttribute | pisek/config/base_env.py:48-58 | reading returns the field's (or computed field's) value and logs it as the spec function says |
| BaseEnvModel.BaseEnv.Fork | pisek/config/base_env.py:60-72 | a locked root raises RuntimeError; otherwise a fresh root holding the cleared deep copy |
| BaseEnvModel.BaseEnv.Lock | pisek/config/base_env.py:94-97 | the root becomes the locked walk of its old state |
| BaseEnvModel.BaseEnv.ClearAccesses | pisek/config/base_env.py:89-92 | the root becomes the cleared walk of its old state |
| BaseEnvModel.BaseEnv.GetAccessedPaths | pisek/config/base_env.py:99-112 | lists every accessed path once, and only turns logging back on |
| BaseEnvModel.RawIndexMissesKey | pisek/config/base_env.py:118-121 | as written, `d[1]` looks up the key `1]` and raises KeyError, while the corrected lookup finds the entry |
| BaseEnvModel.IndexedLookup | pisek/config/base_env.py:114-124 | with the closing bracket removed, `name[key]` on a dictionary field returns that entry and logs the field |
| ConfigTypes.ParseTaskType | pisek/config/config_types.py:19-21 | parsing accepts exactly the members' values and returns the member with that value |
| ConfigTypes.ParseOutCheck | pisek/config/config_types.py:24-28 | parsing accepts exactly the members' values and returns the member with that value |
| ConfigTypes.ParseGenType | pisek/config/config_types.py:31-34 | parsing accepts exactly `opendata-v1`, `cms-old` and `pisek-v1`, returning the matching member |
| ConfigTypes.ParseValidatorType | pisek/config/config_types.py:37-39 | parsing accepts exactly `simple-0` and `simple-42`, returning the matching member |
| ConfigTypes.ParseJudgeType | pisek/config/config_types.py:42-45 | parsing accepts exactly the three judge types' values, returning the matching member |
| ConfigTypes.ParseShuffleMode | pisek/config/config_types.py:48-52 | parsing accepts exactly the members' values and returns the member with that value |
| ConfigTypes.ParseDataFormat | pisek/config/config_types.py:55-58 | parsing accepts exactly `text`, `strict-text` and `binary`, returning the matching member |
| ConfigTypes.ParseProgramType | pisek/config/config_types.py:78-83 | parsing accepts exactly the members' names and returns the member with that name |
| ConfigTypes.BuildName | pisek/config/config_types.py:85-93 | the build name is `solution` exactly for the two kinds of solution, and the member's name otherwise |
| ConfigTypes.BuildNamesDistinct | pisek/config/config_types.py:85-93 | programs that are not both solutions have different build names |
| ConfigTypes.ParseBuildStrategy | pisek/config/config_types.py:96-104 | parsing accepts exactly the members' values and returns the member with that value |
| ConfigTypes.ParseCmsFeedbackLevel | pisek/config/config_types.py:107-109 | parsing accepts exactly `full` and `restricted`, returning the matching member |
| ConfigTypes.ParseCmsScoreMode | pisek/config/config_types.py:112-115 | parsing accepts exactly the members' values and returns the member with that value |
| ConfigTypes.ValidateTestPoints | pisek/config/config_types.py:61-72 | `unscored` stays unscored; any other text is accepted exactly when `int()` reads a non-negative number from it, which becomes the points; everything else raises `test_points_parsing` |
| ConfigTypes.PyIntOfNumeral | pisek/config/config_types.py:65 | `int()` reads back any number written in decimal |
| ConfigTypes.ValidatePointsOfNumeral | pisek/config/config_types.py:61-67 | every natural number written out validates to itself |
| ConfigTypes.NegativePointsRejected | pisek/config/config_types.py:64-72 | a negative number written out is rejected |
| ConfigHierarchyModel.FindSection | pisek/env/config_hierarchy.py:83-85 | finds a section of that name, or none exactly when the config has no such section |
| ConfigHierarchyModel.FindItem | pisek/env/config_hierarchy.py:85 | finds a value stored under the key, or none exactly when the section has no such key |
| ConfigHierarchyModel.GetValue | pisek/env/config_hierarchy.py:85 | `config.get` with no fallback finds a value only under the lower-cased key in a section of that name, and finds none exactly when the section is missing or lacks that key |
| ConfigHierarchyModel.Lookup | pisek/env/config_hierarchy.py:82-85 | a key-less candidate finds its own section name exactly when the section exists; a candidate with a key finds what `config.get` finds |
| ConfigHierarchyModel.SearchFirstHit | pisek/env/config_hierarchy.py:79-93 | the first candidate with a value, configs outer and candidates inner, decides the search; an `!unset` value there makes the lookup fail whatever later configs hold |
| ConfigHierarchyModel.SearchMiss | pisek/env/config_hierarchy.py:79-99 | nothing is found exactly when no candidate has a value in any config |
| ConfigHierarchyModel.RecordSpec | pisek/env/config_hierarchy.py:76-77 | after recording, a section is logged iff it was before or some candidate names it, and a key is logged under a section iff it was before or is a candidate of that section |
| ConfigHierarchyModel.SectionsOf | pisek/env/config_hierarchy.py:101-106 | one value per distinct section name, each naming its section and no key |
| ConfigHierarchyModel.SectionsOnce | pisek/env/config_hierarchy.py:101-106 | every section of any config is listed exactly once and nothing else is listed |
| ConfigHierarchyModel.SectionsInOrder | pisek/env/config_hierarchy.py:101-106 | sections are listed in the order of their first occurrence across the configs |
| ConfigHierarchyModel.UnexpectedKeyIn | pisek/env/config_hierarchy.py:128-138 | a reported key is one of the section's keys |
| ConfigHierarchyModel.UnexpectedKeyInNone | pisek/env/config_hierarchy.py:128-138 | a section passes exactly when each of its keys is ignored (task and tests tables, `file_name` in `all_tests` and `testNN`) or was used |
| ConfigHierarchyModel.UnexpectedInNone | pisek/env/config_hierarchy.py:117-138 | the unused-key check passes exactly when every section was used and every key not ignored was used in it |
| ConfigHierarchyModel.UnexpectedSectionUnused | pisek/env/config_hierarchy.py:125-127 | a reported section is one of the config's sections that was never used |
| ConfigHierarchyModel.TodoInFirstComment | pisek/env/config_hierarchy.py:144 | only the first comment of a line counts: `TODO` after a second `#` is not seen |
| ConfigHierarchyModel.CheckTodos | pisek/env/config_hierarchy.py:140-147 | the scan returns true exactly when some line has `TODO` in its first comment |
| ConfigHierarchyModel.ConfigHierarchy.Loaded | pisek/env/config_hierarchy.py:51-66 | a hierarchy holds the given paths and parsed configs and an empty used-key log |
| ConfigHierarchyModel.ConfigHierarchy.GetFromCandidates | pisek/env/config_hierarchy.py:75-99 | every candidate is logged, even when the lookup then fails, and the result is the search's: the first value found or the error listing every candidate |
| ConfigHierarchyModel.ConfigHierarchy.Get | pisek/env/config_hierarchy.py:72-73 | logs the one key under its section and returns the search for that one candidate |
| ConfigHierarchyModel.ConfigHierarchy.CheckUnusedKeys | pisek/env/config_hierarchy.py:108-138 | as written, the check passes exactly when everything in the last config (the defaults) was used, and otherwise reports its first unused section or key |
| ConfigHierarchyModel.ConfigHierarchy.CheckUnusedTaskKeys | pisek/env/config_hierarchy.py:108-138 | corrected: the same check on the task's own config |
| ConfigHierarchyModel.SearchLoop | pisek/env/config_hierarchy.py:79-99 | the nested loops with the `unset` flag return exactly what the recursive search definition gives |
| ConfigHierarchyModel.CheckConfig | pisek/env/config_hierarchy.py:125-138 | the loops pass exactly when everything in the config was used, and otherwise raise the first problem |
| ConfigHierarchyModel.Open | pisek/env/config_hierarchy.py:51-66 | opening succeeds exactly when both files can be read; the configs are the task's and then the defaults, with an empty log; the first missing file is reported; the top config is then the task's config path |
| ConfigHierarchyModel.ConfigHierarchy.TopConfig | pisek/env/config_hierarchy.py:68-70 | `top_config` is the first of the hierarchy's two config paths, which `Open` sets to the task's own config path |
| ConfigHierarchyModel.ExtraTaskKeyMissed | pisek/env/config_hierarchy.py:125 | a task config with an unused key passes the check as written, because the defaults are checked, while the task config would be reported |
| DataManagerModel.StaticInfo | pisek/task_jobs/data/data_manager.py:39-49 | a static input is named without its `.in`, and is static exactly when the task is interactive or its `.out` exists, mixed otherwise |
| DataManagerModel.ClassifyStatic | pisek/task_jobs/data/data_manager.py:38-49 | the loop classifies every static input, in order |
| DataManagerModel.AllInfos | pisek/task_jobs/data/data_manager.py:51-57 | all testcases are the static ones plus, only with a generator configured, the generated ones, sorted by name |
| DataManagerModel.TestListSnoc | pisek/task_jobs/data/data_manager.py:65-68 | one more testcase extends a test's list by it exactly when the test's globs accept it |
| DataManagerModel.TestListSpec | pisek/task_jobs/data/data_manager.py:62-68 | a test's list holds exactly the testcases its globs accept under the test seed, in name order |
| DataManagerModel.FirstEmpty | pisek/task_jobs/data/data_manager.py:62-73 | the first test without inputs: every test before it has inputs; none exactly when every test has inputs |
| DataManagerModel.ListsUpToAt | pisek/task_jobs/data/data_manager.py:62-68 | after n tests, the dictionary holds each of their lists under the test's number |
| DataManagerModel.ListsUpToKeys | pisek/task_jobs/data/data_manager.py:62-63 | after n tests, the dictionary's keys are exactly the first n test numbers |
| DataManagerModel.AssignTests | pisek/task_jobs/data/data_manager.py:60-73 | the loop fills the dictionary test by test and fails with PipelineItemFailure at the first test without inputs, keeping that test's empty entry |
| DataManagerModel.SelectFor | pisek/task_jobs/data/data_manager.py:65-68 | the inner loop selects exactly a test's list |
| DataManagerModel.FirstNonStatic | pisek/task_jobs/data/data_manager.py:75-79 | the first sample that is not static, or none exactly when every sample is static |
| DataManagerModel.CheckSamples | pisek/task_jobs/data/data_manager.py:75-79 | fails exactly when some sample is not static, naming the first one and its mode |
| DataManagerModel.ReportSpec | pisek/task_jobs/data/data_manager.py:129-156 | a report is made exactly when its check is on and its set is non-empty; verbose reports warn once per input, quiet ones once naming every input |
| DataManagerModel.ReportUnused | pisek/task_jobs/data/data_manager.py:129-141 | the loop issues exactly the unused-input warnings |
| DataManagerModel.ReportNotIncluded | pisek/task_jobs/data/data_manager.py:143-156 | the loop issues exactly the not-included warnings |
| DataManagerModel.SumRepeatSnoc | pisek/task_jobs/data/data_manager.py:165 | the count of copies grows by each testcase's `repeat` |
| DataManagerModel.CountRepeat | pisek/task_jobs/data/data_manager.py:165 | the loop counts the copies of a test's testcases |
| DataManagerModel.CountWarningsSpec | pisek/task_jobs/data/data_manager.py:158-169 | a test is warned about exactly when it is not test 0 and its copies do not add up to one |
| DataManagerModel.CheckOneInput | pisek/task_jobs/data/data_manager.py:158-169 | with the check off there are no warnings; with it on, exactly those of the count rule |
| DataManagerModel.JobsForSpec | pisek/task_jobs/data/data_manager.py:88-114 | an input is linked exactly for a static or mixed testcase, a reference output exactly for a static testcase of a non-interactive task |
| DataManagerModel.JobsForLength | pisek/task_jobs/data/data_manager.py:88-114 | each testcase gives at most two jobs, and at most one in an interactive task |
| DataManagerModel.BuildJobs | pisek/task_jobs/data/data_manager.py:88-114 | the loop builds the jobs of the testcases in the given order |
| DataManagerModel.ValidatorWarnings | pisek/task_jobs/data/data_manager.py:116-125 | the missing-validator warning is given exactly when there is no validator and some test validates |
| DataManagerModel.FinishedJobs | pisek/task_jobs/data/data_manager.py:81-114 | the finished step links an input exactly for each used static or mixed testcase and an output exactly for each used static testcase of a non-interactive task |
| DataManagerModel.Finish | pisek/task_jobs/data/data_manager.py:81-127 | after the inputs are assigned, the jobs follow the used testcases in name order, and the warnings are the not-included report (against the last test), the unused report, the count check and the validator warning, in that order |
| DataManagerModel.Plan | pisek/task_jobs/data/data_manager.py:59-127 | the first test without inputs fails, then the first non-static sample, and otherwise the step finishes as above |
| DataManagerModel.Collect | pisek/task_jobs/data/data_manager.py:34-57 | the testcases are the classified static inputs and the generated ones, sorted by name |
| DataManagerModel.DataManager.GetJobs | pisek/task_jobs/data/data_manager.py:33-127 | `_get_jobs` leaves the test-to-testcases dictionary and adds the warnings as the plan says, and returns its jobs or failure |
| DataManagerModel.DataManager.constructor | pisek/task_jobs/data/data_manager.py:30-31 | a new manager has no testcase dictionary and no warnings |
| OpendataLib.CheckBuildTarget | pisek/opendata/lib.py:64-69 | building proceeds exactly into an absent path or an empty directory; an existing non-directory raises InvalidArgument and a non-empty directory InvalidOperation |
| OpendataLib.InfoMapHas | pisek/opendata/lib.py:106-112 | a name is a key of the inputs dictionary exactly when some line has it |
| OpendataLib.InfoMapLast | pisek/opendata/lib.py:109-111 | the value of a name is the last line with that name |
| OpendataLib.ReadInputsList | pisek/opendata/lib.py:106-112 | the loop builds the dictionary, with its keys in first-insertion order |
| OpendataLib.InfoMapKeys | pisek/opendata/lib.py:106-112 | the keys in insertion order are exactly the dictionary's keys |
| OpendataLib.Values | pisek/opendata/lib.py:118 | the dictionary's values, in key order |
| OpendataLib.InputsList | pisek/opendata/lib.py:114-125 | `inputs_list` has a key for exactly the tests 0 to `tests_count - 1`, each listing the testcases its globs accept, in dictionary order |
| OpendataLib.AddToTests | pisek/opendata/lib.py:119-123 | the inner loop appends a testcase to exactly the tests that accept it |
| OpendataLib.InputsListMembers | pisek/opendata/lib.py:106-125 | a testcase is listed under a test exactly when it is the latest line of its name and the test accepts it |
| OpendataLib.InfoMapNames | pisek/opendata/lib.py:109-111 | every value of the dictionary sits under its own name |
| OpendataLib.GetTestcaseAsWritten | pisek/opendata/lib.py:127-156 | as written, a handle is only ever returned for tests below `tests_count` |
| OpendataLib.CheckTestcase | pisek/opendata/lib.py:143-156 | after the test and name checks, a handle is returned exactly when the test accepts the testcase, a seed is given exactly for a seeded testcase and the paths differ; every failure is InvalidArgument |
| OpendataLib.GetTestcaseSpec | pisek/opendata/lib.py:127-156 | corrected: a handle is returned exactly for an existing test, a known name in that test, a seed exactly for a seeded testcase and two different paths; every failure is InvalidArgument, and a test out of range is reported as such |
| OpendataLib.AsWrittenAgrees | pisek/opendata/lib.py:135-136 | the code as written and the corrected check agree on every test except `tests_count` |
| OpendataLib.TestBoundInclusive | pisek/opendata/lib.py:135-146 | at `test == tests_count` the code as written passes the bound check and fails on the missing section, which is not InvalidArgument; the corrected check rejects the test |
| OpendataLib.NeededFlags | pisek/opendata/lib.py:208-210 | the output is needed exactly when requested and absent; the input exactly when requested or the output is needed, and absent |
| OpendataLib.NeededFlagsFacts | pisek/opendata/lib.py:208-212 | with both files present nothing is generated; a needed output brings along its absent input; with nothing requested nothing is needed |
| OpendataLib.Testcase.constructor | pisek/opendata/lib.py:159-177 | a handle records its testcase, test, seed and paths, with no temporary directory |
| OpendataLib.Testcase.RunPipeline | pisek/opendata/lib.py:200-231 | a pipeline of the needed managers runs exactly when the input or output is needed or `check` is set, in the existing or a new temporary directory, which is cleared iff `clear`; a verdict is returned iff `check` |
| OpendataLib.Testcase.GenInput | pisek/opendata/lib.py:233-234 | generating the input runs the input manager alone, and only when the input file is absent, in the existing or a new temporary directory, cleared iff `clear` |
| OpendataLib.Testcase.GenOutput | pisek/opendata/lib.py:236-237 | generating the output runs only when it is absent, with the input manager first when the input is absent, in the existing or a new temporary directory, cleared iff `clear` |
| OpendataLib.Testcase.Judge | pisek/opendata/lib.py:239-251 | judging always runs one pipeline, in the existing or a new temporary directory (cleared iff `clear`), of the generators the judge still needs followed by the checker on the contestant's output, and returns its verdict |
| OpendataManagers.ManagerPlan | pisek/opendata/managers.py:44-56 | the pipeline holds the input manager exactly when the input is generated, the output manager exactly when the output is, the checker exactly when checking, each at most once and in that order |
| OpendataManagers.OpendataPipeline.constructor | pisek/opendata/managers.py:29-59 | the managers are those of the plan, each after the first waits for the one before it, and the checker is remembered exactly when checking, as the last manager |
| OpendataManagers.OpendataPipeline.Verdict | pisek/opendata/managers.py:61-64 | the verdict is the checker manager's judging result, available only when there is a checker |
| OpendataManagers.InputManagerJobs | pisek/opendata/managers.py:74-91 | a generated testcase plans the generator, then the input sanitize job exactly when the format asks for one, depending on the generator; any other testcase links its static input |
| OpendataManagers.OutputManager.constructor | pisek/opendata/managers.py:95-99 | a new output manager has planned no solution run |
| OpendataManagers.OutputManager.GetJobs | pisek/opendata/managers.py:101-124 | a static testcase links its reference output; any other runs the primary solution, followed by the output sanitize job depending on it as `create-source` when the format asks for one; the solution run is remembered exactly for non-static testcases |
| OpendataManagers.OutputManager.Evaluate | pisek/opendata/managers.py:126-132 | the manager fails exactly when the primary solution ran and its result is not OK |
| OpendataManagers.CheckerManagerJobs | pisek/opendata/managers.py:151-175 | the check is the last and only check job; when the output format asks for it, the sanitize job of the contestant's output comes first and the check depends on it as `sanitize` |
| RunResults.NewRunResult | pisek/task_jobs/run_result.py:27-41 | a run result is built exactly when every required field, `memory` included, is given, and then keeps the given kind, return code, time, wall time and memory, with no standard error file (the `stderr_file=None` default); otherwise a TypeError names `memory` |
| CheckerBase.Capitalized | pisek/task_jobs/checker/checker_base.py:79-81 | the capitalised message has the same length, its first character upper-cased and the rest unchanged; a message not starting with a lower-case letter stays as it is |
| CheckerBase.Settle | pisek/task_jobs/checker/checker_base.py:84-94 | a solution that ran OK gets the judge's result; a runtime error gets verdict error and a timeout verdict timeout, each with no message, no judge run and 0 relative points |
| CheckerBase.FailedRunScoresNothing | pisek/task_jobs/checker/checker_base.py:84-94 | a solution that did not run OK scores 0 relative points, is neither OK nor partially OK, and has no judge run, whatever the judge says |
| CheckerBase.RunOutcome | pisek/task_jobs/checker/checker_base.py:83-104 | `_run` succeeds exactly when no verdict is expected or the expected one is the settled verdict, and returns the settled result; otherwise it fails naming both verdicts |
| CheckerBase.SyntheticRunFails | pisek/task_jobs/checker/checker_base.py:209-211 | as written, the synthetic run of a missing solution omits the required `memory` and so cannot be built |
| CheckerBase.SyntheticRun | pisek/task_jobs/checker/checker_base.py:209-211 | corrected: the synthetic run is OK with return code 0, no time and no memory, and is what the constructor builds when `memory` is given |
| CheckerBase.BatchSolutionRunRes | pisek/task_jobs/checker/checker_base.py:205-211 | the solution's run is the result of prerequisite `run_solution` when it exists, else the synthetic run |
| CheckerBase.VerdictTextOf | pisek/task_jobs/checker/checker_base.py:144-150 | the text is the result's message when it has one, its verdict's name when it has none, and the job state's name when there is no result |
| CheckerBase.VerdictMarkOf | pisek/task_jobs/checker/checker_base.py:152-167 | a cancelled job shows `-`, one without a result a blank; a partially OK result shows its relative points or its absolute points at the configured precision; any other result its verdict's own mark |
| CheckerBase.RunChecker.constructor | pisek/task_jobs/checker/checker_base.py:35-53 | a new job records its name, test and expected verdict, is pending, and has neither result nor loaded run |
| CheckerBase.RunChecker.LoadSolutionRunRes | pisek/task_jobs/checker/checker_base.py:55-60 | the run result is fetched at most once; later calls keep the first one and change nothing else |
| CheckerBase.RunChecker.Run | pisek/task_jobs/checker/checker_base.py:83-104 | `_run` loads the solution's run once and returns the outcome of settling it against the judge's result and the expected verdict |
| CheckerBase.RunChecker.Message | pisek/task_jobs/checker/checker_base.py:106-142 | the message fails exactly for an unfinished job; otherwise it shows the correct output exactly for a batch judge, the solution's status exactly when it did not end OK, its standard error forced exactly for a runtime error, and the judge's run exactly when there was one, with its status exactly when it kept no standard error |
| CheckerBase.RelToAbsPoints | pisek/task_jobs/checker/checker_base.py:169-174 | relative points 1 give the test's full points and relative points 0 give none |
| CheckerManagerModel.CheckerJobFor | pisek/task_jobs/checker/checker_manager.py:85-132 | `checker_job` fails exactly when the out-check needs a judge and none is set, with a ValueError naming the out-check; otherwise it judges the given files with the diff, token or shuffle checker for those out-checks, else the CMS batch judge or the opendata judge, which alone gets the seed, and passes the judge program only for a judge |
| CheckerManagerModel.PairedAppend | pisek/task_jobs/checker/checker_manager.py:54-70 | two lists of invalidation and judge-run pairs joined are still such pairs |
| CheckerManagerModel.FuzzPairShape | pisek/task_jobs/checker/checker_manager.py:56-70 | the `k`-th pair breaks the sample's output with the `k`-th popped seed into its fuzzing copy, then judges that copy against the sample's input, waiting for the invalidation |
| CheckerManagerModel.SampleJobsAt | pisek/task_jobs/checker/checker_manager.py:54-70 | a sample's first `n` pairs are `2n` jobs, pair `k` at positions `2k` and `2k + 1` |
| CheckerManagerModel.SampleJobsShape | pisek/task_jobs/checker/checker_manager.py:47-70 | every job at an even position of a sample's plan is the invalidation of the `k`-th popped seed and the next one judges its output |
| CheckerManagerModel.SampleSeeds | pisek/task_jobs/checker/checker_manager.py:48-56 | within a sample the sixty invalidations use distinct seeds below `16**4`; the first ten are `Incomplete`, the rest `ChaosMonkey` |
| CheckerManagerModel.AllJobsPaired | pisek/task_jobs/checker/checker_manager.py:45-71 | the plan for `m` samples is `120 m` jobs in invalidation and judge-run pairs |
| CheckerManagerModel.AllJobsBlock | pisek/task_jobs/checker/checker_manager.py:45-71 | sample `s`'s jobs are block `s` of 120 jobs in the plan, in order |
| CheckerManagerModel.PlannedDependencies | pisek/task_jobs/checker/checker_manager.py:58-70 | every dependency planned makes a judge run wait for the invalidation that wrote the output it checks |
| CheckerManagerModel.JudgeManager.constructor | pisek/task_jobs/checker/checker_manager.py:34-35 | a new manager has no jobs and no dependencies |
| CheckerManagerModel.JudgeManager.GetJobs | pisek/task_jobs/checker/checker_manager.py:37-71 | planning fails exactly for a batch task with fuzzed outputs checked, some sample and an unset judge, changing nothing; otherwise the jobs are the plan (none for an interactive task or without the fuzzing check) and every dependency pairs a judge run with its invalidation |
| CheckerManagerModel.JudgeManager.ComputeResult | pisek/task_jobs/checker/checker_manager.py:73-82 | `judge_outs` holds exactly the judge logs of the checker jobs and the points files of the CMS judges |
| CheckerManagerModel.FuzzSample | pisek/task_jobs/checker/checker_manager.py:47-70 | the sample loop fails exactly when the judge is unset; otherwise it appends the sample's sixty pairs to the jobs and keeps every dependency paired |
| CheckerManagerModel.FuzzStep | pisek/task_jobs/checker/checker_manager.py:55-70 | one fuzzed output pops the next seed, fails exactly when the judge is unset, and otherwise appends its pair, keeping the remaining seeds and the dependencies in step |
| PartsCheckerModel.ChecksOf | pisek/jobs/parts/checker.py:38-39 | one check per input, in order, each against the given subtask and expecting the given result |
| PartsCheckerModel.AsJobs | pisek/jobs/parts/checker.py:39 | one checker run per check, in order |
| PartsCheckerModel.PredecessorChecksMembers | pisek/jobs/parts/checker.py:43-47 | a check is a loose one of a subtask exactly when it expects nothing, is against one of the predecessors, and checks one of the new inputs |
| PartsCheckerModel.PlannedChecksMembers | pisek/jobs/parts/checker.py:35-47 | a check is planned exactly when it belongs to some subtask other than the samples; a check expecting OK is always one of that subtask's own inputs against the subtask itself |
| PartsCheckerModel.PlannedChecksIn | pisek/jobs/parts/checker.py:35-37 | the planned checks are exactly those of the subtasks other than the samples |
| PartsCheckerModel.SubtaskOkCheck | pisek/jobs/parts/checker.py:38-39 | a check of a subtask expecting OK is one of its own inputs, against the subtask itself |
| PartsCheckerModel.GroupOfSpec | pisek/jobs/parts/checker.py:41-47 | a loose group lists each predecessor once and has a list for exactly the predecessors, each holding the checks of every new input against that predecessor, in order |
| PartsCheckerModel.ResultKinds | pisek/jobs/parts/checker.py:81-87 | the kinds are collected exactly when every job has finished, one per job in order; otherwise the first unfinished job is reported |
| PartsCheckerModel.PredecessorVerdict | pisek/jobs/parts/checker.py:88-106 | nothing is reported exactly when the checker rejected every new input in "all" mode, at least one in "any" mode, and never timed out; "all" mode names the first accepted input and a timeout the first timed-out input |
| PartsCheckerModel.FailedFrom | pisek/jobs/parts/checker.py:79-106 | `failed` reports nothing exactly when no predecessor has anything to report, and otherwise reports the first predecessor's report |
| PartsCheckerModel.RunCheck | pisek/jobs/parts/checker.py:127-139 | a check that did not run has no result; a check expected to accept fails exactly when the run did not end OK, one expected to reject exactly when it did not end with a runtime error; the result kind is kept |
| PartsCheckerModel.SkipText | pisek/jobs/parts/checker.py:20-25 | a skipped checker always has a status text to show |
| PartsCheckerModel.CheckerManager.constructor | pisek/jobs/parts/checker.py:11-13 | a new manager has skipped nothing and planned nothing |
| PartsCheckerModel.CheckerManager.GetJobs | pisek/jobs/parts/checker.py:15-50 | without a checker strict mode fails the manager and plans nothing; a missing checker or `no_checker` skips checking and plans nothing; otherwise the checker's compile comes first, then the planned checks, every one waiting for the compile, and the loose groups are those of the subtasks with predecessors |
| PartsCheckerModel.CheckerManager.Evaluate | pisek/jobs/parts/checker.py:52-59 | without jobs nothing is reported; otherwise the manager succeeds exactly when no loose group reports an error, and fails with the first group's report |
| PartsCheckerModel.CheckerManager.Status | pisek/jobs/parts/checker.py:61-68 | a skipped checker shows its reason exactly once the manager has succeeded, and nothing before; otherwise the usual status is shown |
| PartsCheckerModel.PlanSubtasks | pisek/jobs/parts/checker.py:34-47 | the subtask loop plans exactly the checks and loose groups of the subtasks, in order, skipping the samples |
| PartsCheckerModel.CompileDependencies | pisek/jobs/parts/checker.py:40-48 | every job after the compile waits for the compile |
| PartsCheckerModel.PlanSubtask | pisek/jobs/parts/checker.py:38-47 | one subtask gets a check of each of its inputs expecting OK, then, when it has predecessors, its loose group and the checks of its new inputs against each predecessor |
| PartsCheckerModel.GroupMap | pisek/jobs/parts/checker.py:43-47 | the dictionary the predecessor loop builds has exactly the predecessors as keys, each with its loose checks |
| PartsCheckerModel.CheckAll | pisek/jobs/parts/checker.py:38-39 | the input loop checks each input against the subtask, expecting OK |
| PartsCheckerModel.PlanPredecessors | pisek/jobs/parts/checker.py:43-47 | the predecessor loop lists each predecessor once in the order first met, gives each its loose checks (a repeated one starting over), and plans every loose check, a repeated predecessor's twice |
| PartsCheckerModel.ChecksAgainst | pisek/jobs/parts/checker.py:45-47 | the inner loop checks every new input against the predecessor, expecting nothing |
| PartsGeneratorModel.SubtaskJobsLen | pisek/jobs/parts/generator.py:30-44 | a subtask's first `n` seeds plan one Generate job each, plus a Deterministic check once there is a seed and a RespectsSeed check once there are two |
| PartsGeneratorModel.SubtaskGenAt | pisek/jobs/parts/generator.py:34 | the Generate job of the `k`-th seed names the input of that seed and subtask and sits right after the jobs of the earlier seeds |
| PartsGeneratorModel.SubtaskChecksAt | pisek/jobs/parts/generator.py:36-43 | the only Deterministic check regenerates the first seed's input and comes second; the only RespectsSeed check compares the first two seeds' inputs and comes fourth |
| PartsGeneratorModel.SubtaskHasChecks | pisek/jobs/parts/generator.py:36-43 | a subtask with a seed has the Deterministic check, and with two seeds the RespectsSeed check too |
| PartsGeneratorModel.SeedDepsOk | pisek/jobs/parts/generator.py:35-43 | the dependencies a seed adds make its Generate job wait for the compile, the Deterministic check for the first Generate, and the RespectsSeed check for both Generate jobs |
| PartsGeneratorModel.SubtaskDepsLen | pisek/jobs/parts/generator.py:35-43 | a subtask has one dependency per job, and one more for the RespectsSeed check's second prerequisite |
| PartsGeneratorModel.SubtaskDepsOk | pisek/jobs/parts/generator.py:30-44 | every dependency of a subtask's jobs is of the expected kind |
| PartsGeneratorModel.RespectsSeedDeps | pisek/jobs/parts/generator.py:40-43 | the RespectsSeed check waits for both the first and the second Generate job |
| PartsGeneratorModel.PlannedGenerates | pisek/jobs/parts/generator.py:26-34 | every planned Generate job is for a configured subtask, never the samples, and uses one of the drawn seeds |
| PartsGeneratorModel.PlannedDepsOk | pisek/jobs/parts/generator.py:26-44 | every planned dependency, as positions in the job list, is of the expected kind |
| PartsGeneratorModel.PlannedHasGenerate | pisek/jobs/parts/generator.py:26-34 | every subtask other than the samples gets a Generate job for every drawn seed |
| PartsGeneratorModel.PlannedWithoutSamples | pisek/jobs/parts/generator.py:27-28 | without a samples subtask, skipping it changes no job |
| PartsGeneratorModel.PlannedDepsWithoutSamples | pisek/jobs/parts/generator.py:27-28 | without a samples subtask, skipping it changes no dependency |
| PartsGeneratorModel.PlannedFrom | pisek/jobs/parts/generator.py:26-44 | planning from one subtask on is planning that subtask, then the rest |
| PartsGeneratorModel.PlannedDepsFrom | pisek/jobs/parts/generator.py:26-44 | the dependencies from one subtask on are that subtask's block, then the rest's |
| PartsGeneratorModel.PlanSubtask | pisek/jobs/parts/generator.py:29-44 | the seed loop plans exactly the subtask's jobs and dependencies |
| PartsGeneratorModel.PlanNext | pisek/jobs/parts/generator.py:26-44 | one round of the subtask loop plans nothing for the samples and the subtask's jobs otherwise |
| PartsGeneratorModel.PlanAll | pisek/jobs/parts/generator.py:26-44 | the subtask loop plans exactly the online jobs and their dependencies of all subtasks, in order |
| PartsGeneratorModel.GeneratorManager.constructor | pisek/jobs/parts/generator.py:15-16 | a new manager has planned nothing |
| PartsGeneratorModel.GeneratorManager.GetJobs | pisek/jobs/parts/generator.py:18-48 | the generator's compile comes first; for a kasiopea contest the online jobs of every subtask but the samples follow, otherwise one offline generation waiting for nothing; every dependency is of the expected kind |
| PartsGeneratorModel.GenArgsDecode | pisek/jobs/parts/generator.py:70-74 | the generator gets the subtask, then the seed in lower-case hexadecimal, which reads back as the seed |
| PartsGeneratorModel.Gen | pisek/jobs/parts/generator.py:60-82 | `_gen` stops when the generator is not compiled, fails for a negative seed before running, and otherwise succeeds exactly when the run on the subtask and hexadecimal seed ends OK |
| PartsGeneratorModel.CopyFileOfInput | pisek/jobs/parts/generator.py:103 | for a path whose only `.in` is its suffix, the copy swaps the suffix for `.copy` |
| PartsGeneratorModel.DeterministicRun | pisek/jobs/parts/generator.py:102-110 | the determinism check stops exactly when regenerating fails, and fails exactly when the regenerated copy differs |
| PartsGeneratorModel.RespectsSeedRun | pisek/jobs/parts/generator.py:121-126 | the seed check fails exactly when the two inputs are equal, and passes otherwise |
| PartsGeneratorModel.InputsToClear | pisek/jobs/parts/generator.py:138-142 | the inputs deleted are exactly the inputs that are not samples |
| PartsGeneratorModel.FirstEmptySubtask | pisek/jobs/parts/generator.py:152-158 | no subtask is reported exactly when every subtask but the samples has inputs; otherwise the reported subtask has none |
| PartsGeneratorModel.OfflineGen | pisek/jobs/parts/generator.py:133-167 | offline generation succeeds exactly when the generator is compiled and ends OK, every subtask but the samples then has inputs, and the data directory holds some `*.in`; it names the first subtask without inputs |
| TestsGeneratorModel.OnlineGeneratorManager.constructor | pisek/tests/parts/generator.py:14-15 | a new manager has planned nothing |
| TestsGeneratorModel.OnlineGeneratorManager.GetJobs | pisek/tests/parts/generator.py:17-42 | the compile comes first, then for every subtask, samples included, a Generate job per seed with the Deterministic check after the first and the RespectsSeed check after the second; every dependency is of the expected kind |
| TestsGeneratorModel.OnlineGeneratorManager.Status | pisek/tests/parts/generator.py:44-45 | the manager never shows a status line |
| TestsGeneratorModel.GenRun | pisek/tests/parts/generator.py:55-67 | generating records one failure, naming the file, subtask and seed, exactly when the generator reports no success |
| TestsGeneratorModel.DeterministicRun | pisek/tests/parts/generator.py:77-84 | the determinism check records a failed regeneration exactly when it fails and a difference exactly when the files differ, and nothing else |
| TestsGeneratorModel.RespectsSeedRun | pisek/tests/parts/generator.py:93-98 | the seed check records a failure, naming both files, exactly when they are equal |
| TestsGeneratorModel.SameAsKasiopeaPlan | pisek/tests/parts/generator.py:24-40 | without a samples subtask this manager plans the same jobs and dependencies as the kasiopea branch of the older manager (pisek/jobs/parts/generator.py:26-44) |
| CmsTestSuiteModel.Tag | pisek/tests/cms_test_suite.py:27 | one input per name, in order, each tagged with the subtask |
| CmsTestSuiteModel.SubtaskInputsSpec | pisek/tests/cms_test_suite.py:15-27 | a subtask's inputs are every match of its globs, each as often as it matched, sorted by name and tagged with the subtask |
| CmsTestSuiteModel.InputsForSubtask | pisek/tests/cms_test_suite.py:15-27 | the glob loop collects exactly the subtask's inputs |
| CmsTestSuiteModel.GetSubtasks | pisek/tests/cms_test_suite.py:30-40 | one subtask per configured one, in configuration order, with its score, inputs, number and name |
| CmsTestSuiteModel.GeneratorWorksRun | pisek/tests/cms_test_suite.py:47-60 | the generator test passes exactly when the generator exits with 0, some `*.in` exists and every subtask has inputs; otherwise the first failed assertion is reported, naming a subtask without inputs |
| CmsTestSuiteModel.FirstMissing | pisek/tests/cms_test_suite.py:56-60 | no subtask is reported exactly when every subtask has inputs; otherwise the reported one has none |
| CmsTestSuiteModel.FirstMissingIsFirst | pisek/tests/cms_test_suite.py:56-60 | the reported subtask is the first one without inputs: every subtask before it has some |
| CmsTestSuiteModel.OrElse | pisek/tests/cms_test_suite.py:88-90 | Python's `or` on a time limit: a set, non-zero limit wins, otherwise the fallback |
| CmsTestSuiteModel.TimeoutsSpec | pisek/tests/cms_test_suite.py:87-90 | the general limit is the argument, else the configured limit for other solutions when set and non-zero, else the default; the model solution's limit is its own configured one when set and non-zero, else the general one |
| CmsTestSuiteModel.SolutionOrder | pisek/tests/cms_test_suite.py:119-122 | the solutions tested start with the model solution, prepended only when the request does not start with it |
| CmsTestSuiteModel.Preamble | pisek/tests/cms_test_suite.py:96-110 | the samples test is added exactly unless the solution list is empty, the generator test always, and the checker cases exactly when not only the necessary tests are asked for; no solution test comes before them |
| CmsTestSuiteModel.SolutionTests | pisek/tests/cms_test_suite.py:124-134 | one solution test per solution, in order, the first with the model solution's limit and the others with the general one |
| CmsTestSuiteModel.AddSolutions | pisek/tests/cms_test_suite.py:124-134 | the solution loop appends exactly the solution tests |
| CmsTestSuiteModel.CmsTestSuite | pisek/tests/cms_test_suite.py:70-136 | the suite fails, for lack of a model solution, exactly when solutions are requested and none is configured; otherwise it is the preamble, followed, when some solution is requested, by the solution tests in model-first order |
| TestingLogModel.Entry | pisek/task_jobs/testing_log.py:75-92 | a judged input's record holds its time, wall-clock time and verdict name, with relative or absolute points as its result has; a result of neither kind has no record |
| TestingLogModel.InputsLogErr | pisek/task_jobs/testing_log.py:70-92 | a solution's records fail, with the unknown-result error, exactly when some judged input has a result of neither kind |
| TestingLogModel.InputsLogEntries | pisek/task_jobs/testing_log.py:70-88 | every judged input, and nothing else, has a record, and it is the entry of the input's last judged detail |
| TestingLogModel.InputsLogErrStays | pisek/task_jobs/testing_log.py:89-92 | once an unknown result is met, the inputs after it change nothing |
| TestingLogModel.SolutionNameSpec | pisek/task_jobs/testing_log.py:63 | a solution's name is what follows the solution-manager prefix in the prerequisite's name |
| TestingLogModel.LogSoFarErr | pisek/task_jobs/testing_log.py:57-92 | logging fails with an unknown result exactly when a logged solution has an input with a result of neither kind |
| TestingLogModel.LogSoFarKeys | pisek/task_jobs/testing_log.py:57-73 | a solution is in the log exactly when a prerequisite named after it is a solution manager with some tested input; skipped inputs are flagged exactly when such a solution skipped one |
| TestingLogModel.LogSoFarValues | pisek/task_jobs/testing_log.py:63-88 | a solution's record holds the records of the last prerequisite logged under its name |
| TestingLogModel.LogSoFarErrStays | pisek/task_jobs/testing_log.py:89-92 | once logging fails, later prerequisites change nothing |
| TestingLogModel.LogInputs | pisek/task_jobs/testing_log.py:70-92 | the input loop builds exactly the solution's records and flags exactly whether it skipped an input |
| TestingLogModel.Evaluate | pisek/task_jobs/testing_log.py:53-100 | `_evaluate` returns exactly the log of the prerequisites, failing when none is logged and warning when fewer solutions than configured were tested |
| TestingLogModel.FinishSpec | pisek/task_jobs/testing_log.py:89-100 | the log fails with an unknown result exactly when a logged solution has one; otherwise with "No solution was tested" exactly when no solution was logged; otherwise it warns exactly when fewer solutions than configured were logged; a log that is written carries the constant `source` key `pisek` (testing_log.py:54) |
| TestingLogModel.EncodeDefault | pisek/task_jobs/testing_log.py:37-41 | the encoder turns exactly decimals into their text and refuses anything else |
| ResourceStatisticsModel.StatColour | pisek/task_jobs/resource_statistics.py:43-52 | no limit is green; otherwise a value below half the limit is green, below nine tenths yellow, up to the limit red, and beyond it white |
| ResourceStatisticsModel.StatColourMonotone | pisek/task_jobs/resource_statistics.py:43-52 | against a fixed positive limit, more use never gets a milder colour |
| ResourceStatisticsModel.MaxOfSpec | pisek/task_jobs/resource_statistics.py:40 | the largest value of a statistic bounds every run's value and is one of them |
| ResourceStatisticsModel.FormatStat | pisek/task_jobs/resource_statistics.py:34-54 | a statistic is three cells, the last two `/` and the limit at the given places, and exists exactly when there are runs (`max` of no runs fails) |
| ResourceStatisticsModel.FormatStatValue | pisek/task_jobs/resource_statistics.py:40-54 | the first cell is the largest value at the given places, coloured by how close it comes to the limit |
| ResourceStatisticsModel.PadRight | pisek/task_jobs/resource_statistics.py:56-65 | left-aligned padding reaches the width, and leaves a text at least that wide as it is |
| ResourceStatisticsModel.PadLeft | pisek/task_jobs/resource_statistics.py:138 | right-aligned padding reaches the width, and leaves a text at least that wide as it is |
| ResourceStatisticsModel.PadKeeps | pisek/task_jobs/resource_statistics.py:136-138 | padding only adds spaces: after the text when left-aligned, before it when right-aligned |
| ResourceStatisticsModel.PartStatistics | pisek/task_jobs/resource_statistics.py:56-65 | a row exists exactly when there are runs, and has nine cells |
| ResourceStatisticsModel.PartStatisticsCells | pisek/task_jobs/resource_statistics.py:59-65 | a row is the name padded to 30, the time statistic to two places, `s`, the memory statistic to none, and `MB` |
| ResourceStatisticsModel.AddDetail | pisek/task_jobs/resource_statistics.py:89-91 | adding a judged input gives its solution at least one run |
| ResourceStatisticsModel.AddDetailKeeps | pisek/task_jobs/resource_statistics.py:85-91 | adding a judged input keeps every collected solution listed once and with runs |
| ResourceStatisticsModel.AddDetailsKeeps | pisek/task_jobs/resource_statistics.py:85-91 | so does the loop over one solution's inputs |
| ResourceStatisticsModel.CollectedWell | pisek/task_jobs/resource_statistics.py:73-91 | the collected solutions are each listed once, in the order first met, and each has runs, so none of their rows takes the maximum of nothing |
| ResourceStatisticsModel.AddDetailsCheckers | pisek/task_jobs/resource_statistics.py:85-91 | the checker runs collected are the earlier ones followed only by those of judged inputs that carry one |
| ResourceStatisticsModel.CollectDetails | pisek/task_jobs/resource_statistics.py:85-91 | the inner loop collects exactly a solution's runs and checker runs, skipping untested inputs |
| ResourceStatisticsModel.CollectRuns | pisek/task_jobs/resource_statistics.py:73-91 | the loop over the prerequisites collects exactly the runs of the solution managers with some tested input, and keeps them well collected |
| ResourceStatisticsModel.WellCollectedHasRuns | pisek/task_jobs/resource_statistics.py:113-120 | every solution in the collected order has runs |
| ResourceStatisticsModel.SolutionRow | pisek/task_jobs/resource_statistics.py:114-119 | a solution's row has nine cells |
| ResourceStatisticsModel.SolutionRows | pisek/task_jobs/resource_statistics.py:113-120 | one row per solution |
| ResourceStatisticsModel.SolutionRowsAt | pisek/task_jobs/resource_statistics.py:113-120 | row `i` is the row of the `i`-th solution collected |
| ResourceStatisticsModel.SolutionRowsSnoc | pisek/task_jobs/resource_statistics.py:113-120 | one more solution adds its row at the end |
| ResourceStatisticsModel.SolutionRowsRect | pisek/task_jobs/resource_statistics.py:113-120 | every solution row has nine cells |
| ResourceStatisticsModel.AddSolutionRows | pisek/task_jobs/resource_statistics.py:113-120 | the solution loop appends exactly the solution rows, in collection order |
| ResourceStatisticsModel.JudgeRowAsWritten | pisek/task_jobs/resource_statistics.py:122-129 | as written, the judge row fails exactly when the solutions are shown, a judge is configured and no checker run was collected |
| ResourceStatisticsModel.JudgeRow | pisek/task_jobs/resource_statistics.py:122-129 | corrected: there is a judge row exactly when the solutions are shown, a judge is configured and some checker run was collected |
| ResourceStatisticsModel.GeneratorRow | pisek/task_jobs/resource_statistics.py:95-106 | there is a generator row exactly when a generator is configured, it ran, and it is not an old CMS generator |
| ResourceStatisticsModel.Table | pisek/task_jobs/resource_statistics.py:93-129 | the table has the generator row when there is one, a row per solution when the target shows solutions, and the judge row when there is one, in that order |
| ResourceStatisticsModel.TableRect | pisek/task_jobs/resource_statistics.py:93-129 | every row of the table has the same nine cells |
| ResourceStatisticsModel.ColumnWidthSpec | pisek/task_jobs/resource_statistics.py:134 | no cell of a column is wider than the column |
| ResourceStatisticsModel.Widths | pisek/task_jobs/resource_statistics.py:133-134 | there is a width per column, the width of its longest cell |
| ResourceStatisticsModel.LineLength | pisek/task_jobs/resource_statistics.py:132-140 | a row whose cells fit the widths prints to the sum of the widths plus a space per cell |
| ResourceStatisticsModel.RowsAligned | pisek/task_jobs/resource_statistics.py:131-142 | columns line up: every row of the table prints to the same length |
| ResourceStatisticsModel.RenderLine | pisek/task_jobs/resource_statistics.py:133-140 | the inner loop prints a row with the first cell left-aligned and the others right-aligned to their column's width |
| ResourceStatisticsModel.RenderTable | pisek/task_jobs/resource_statistics.py:131-142 | the nested loop prints a newline, then every row with its cells aligned and a newline |
| ResourceStatisticsModel.WidthsFit | pisek/task_jobs/resource_statistics.py:134 | every cell fits the width of its column |
| ResourceStatisticsModel.RenderedLength | pisek/task_jobs/resource_statistics.py:131-142 | the message is a newline and then one line per row, all of the same length |
| ResourceStatisticsModel.StatusTable | pisek/task_jobs/resource_statistics.py:70-129 | the table of the collected runs is rectangular |
| ResourceStatisticsModel.StatusAsWrittenAgrees | pisek/task_jobs/resource_statistics.py:67-142 | as written, `get_status` fails exactly when it is not cancelled, the solutions are shown, a judge is configured and no checker run was collected; otherwise it gives the corrected message |
| ResourceStatisticsModel.JudgeWithoutCheckerFails | pisek/task_jobs/resource_statistics.py:122-129 | a solution whose only judged input has no checker run makes the code as written fail when a judge is configured |
| ResourceStatisticsModel.GetStatus | pisek/task_jobs/resource_statistics.py:33-142 | corrected: `get_status` gives the job bar of a cancelled job, otherwise the rendered table, leaving out the judge row when no checker ran |
| JobLogging.MapLogLevel | pisek/jobs/logging.py:56-69 | a name maps to a level exactly when, lower-cased, it names one, and then to that level's number; any other name is the user error naming the lower-cased name |
| JobLogging.LowerIdempotent | pisek/jobs/logging.py:57 | lower-casing twice is lower-casing once |
| JobLogging.MapLogLevelNames | pisek/jobs/logging.py:56-69 | every level's name, lower- or upper-case, maps to its level, and no two levels share a number |
| JobLogging.MapLogLevelIgnoresCase | pisek/jobs/logging.py:57 | the case of a level name does not matter |
| JobLogging.NewLogEntry | pisek/jobs/logging.py:44-47 | an entry keeps its scope and level and stores the message without its colours |
| JobLogging.LoggerMethodLevel | pisek/jobs/logging.py:50-53 | the level each root-logger method named by an entry logs at: the five standard names at their own level, the aliases `warn`, `fatal` and `exception` at warning, critical and error; no level for any other name |
| JobLogging.RecordOf | pisek/jobs/logging.py:50-53 | logging an entry makes a record exactly when its level names a level method of the logger (a standard name or an alias), and the record carries that method's level name, the entry's scope and its message |
| JobLogging.EmitAliasCanonical | pisek/jobs/logging.py:50-83 | an entry logged under an alias comes back from the handler under the standard name of its level, not the name it was logged with |
| JobLogging.EmitEntry | pisek/jobs/logging.py:77-83 | a handled record becomes an entry with the record's scope, or `unknown` when it has none, and its level name lower-cased |
| JobLogging.EmitRecordOf | pisek/jobs/logging.py:50-83 | logging an entry whose message has no colours and handling the record gives back the entry |
| JobLogging.EmitLevelMaps | pisek/jobs/logging.py:56-83 | the level of a handled record of a standard level maps back to that level |
| JobLogging.JsonLogging.constructor | pisek/jobs/logging.py:89-92 | a new JSON log is disabled and empty |
| JobLogging.JsonLogging.Enable | pisek/jobs/logging.py:94-95 | enabling keeps the entries |
| JobLogging.JsonLogging.Log | pisek/jobs/logging.py:100-101 | an entry goes after those already logged |
| JobLogging.JsonLogging.Handle | pisek/jobs/logging.py:97-101 | the handler appends the entry the record becomes |
| JobLogging.JsonLogging.Write | pisek/jobs/logging.py:103-109 | writing dumps exactly when enabled, and then every entry in the order logged |
| Util.AllMatchesSpec | pisek/utils/util.py:58-62 | a path is among the concatenated matches exactly when some pattern matches it |
| Util.FilterStrictlySorted | pisek/utils/util.py:65-67 | dropping excluded paths keeps the sorted, duplicate-free list sorted |
| Util.GlobsToFilesSpec | pisek/utils/util.py:55-67 | the listed files are sorted and each listed once, and a file is listed exactly when some pattern matches it and no exclude entry is a prefix of it |
| Util.UnderTrans | pisek/utils/util.py:41 | a path below something below a directory is below that directory |
| Util.ClosedRemoveTree | pisek/utils/util.py:41 | removing a directory with everything below it leaves a tree |
| Util.ClosedRemoveFile | pisek/utils/util.py:52 | removing a file leaves a tree |
| Util.FileSystem.constructor | pisek/utils/util.py:37-52 | the file system starts with the given tree |
| Util.FileSystem.RemoveTree | pisek/utils/util.py:41-43 | a missing path raises file-not-found and a file raises not-a-directory, both changing nothing; a directory goes with everything below it, and the tree stays a tree |
| Util.FileSystem.Remove | pisek/utils/util.py:52 | a missing path or a directory is an error that changes nothing; a file is removed and nothing else |
| Util.Targets | pisek/utils/util.py:38-39 | one joined target per subdirectory |
| Util.CleanStepsSnoc | pisek/utils/util.py:38-43 | the loop over one more subdirectory is one more iteration |
| Util.CleanStepsShrinks | pisek/utils/util.py:37-43 | cleaning only removes entries and changes none |
| Util.CleanStepsClosed | pisek/utils/util.py:37-43 | cleaning leaves a tree |
| Util.CleanStepsFails | pisek/utils/util.py:40-43 | cleaning succeeds when no target is an existing file; a failure is not-a-directory naming a target that is a file |
| Util.CleanStepsRemoves | pisek/utils/util.py:37-43 | after a successful cleaning an entry is gone exactly when it lies under one of the targets |
| Util.CleanStepsStops | pisek/utils/util.py:40-43 | after the first error no later target is touched |
| Util.CleanTaskDir | pisek/utils/util.py:37-43 | the removals are those of the targets in order, a missing one skipped and any other error ending the loop, and the tree stays a tree |
| Util.NonRelevantSpec | pisek/utils/util.py:46-52 | a file below the tests directory goes exactly when its directory holds an accessed file and it was not accessed itself |
| Util.CleanNonRelevantFiles | pisek/utils/util.py:46-52 | exactly the non-relevant files are removed, whatever the walk's order |
| Util.WalkStep | pisek/utils/util.py:48-52 | visiting one file of the walk removes it exactly when it is not relevant |
| Shortcodes.Classes | docs/_hooks/shortcodes.py:85 | the outer span carries only the base class exactly when no kind is given |
| Shortcodes.TakeUntilConcat | docs/_hooks/shortcodes.py:88 | reading the class attribute stops at the closing quote |
| Shortcodes.ParseKindRoundTrip | docs/_hooks/shortcodes.py:85-88 | the kind is read back from the opening tag, the modifier class present exactly when the kind is non-empty |
| Shortcodes.ParsePartRoundTrip | docs/_hooks/shortcodes.py:89-90 | a badge part is read back as its content, and an absent part as the empty content |
| Shortcodes.AfterIconNotIcon | docs/_hooks/shortcodes.py:89-90 | what follows the icon part never opens an icon part, so the icon and the text part cannot be confused |
| Shortcodes.BadgeSplit | docs/_hooks/shortcodes.py:84-93 | a badge is the opening tag with its classes, then the icon part, the text part and the closing tag, in that order |
| Shortcodes.ParseBadgeRoundTrip | docs/_hooks/shortcodes.py:84-93 | a badge whose contents hold no tag reads back as its icon, text and kind: each part is present exactly when its content is non-empty |
| Shortcodes.IconFree | docs/_hooks/shortcodes.py:97-151 | an icon shortcode built from tag-free names holds no tag |
| Shortcodes.VersionBadgeSpec | docs/_hooks/shortcodes.py:97-106 | the version badge has the version icon, no kind, and a text exactly when a version is given: the link to its release |
| Shortcodes.LinkFree | docs/_hooks/shortcodes.py:102-114 | the version and type links of a tag-free text hold no tag |
| Shortcodes.TypeBadgeSpec | docs/_hooks/shortcodes.py:110-115 | the type badge has the type icon, no kind, and a text exactly when a type is given: the link to the value types |
| Shortcodes.IconBadgeRoundTrip | docs/_hooks/shortcodes.py:84-93 | a badge of a tag-free icon and text and no kind reads back as that icon and text |
| Shortcodes.DefaultBadgeSpec | docs/_hooks/shortcodes.py:119-121 | the default badge has the default-value icon, no kind, and the default value as its text |
| Shortcodes.DefaultEmptyBadgeSpec | docs/_hooks/shortcodes.py:125-127 | the empty-default badge has its own icon, no text and no kind |
| Shortcodes.RequiredBadgeSpec | docs/_hooks/shortcodes.py:131-133 | the `required` badge has the required-value icon, no text and no kind |
| Shortcodes.RequiredApplicableBadgeSpec | docs/_hooks/shortcodes.py:137-139 | the `required-applicable` badge has its own icon, no text and no kind |
| Shortcodes.CustomizationBadgeSpec | docs/_hooks/shortcodes.py:143-145 | the `customization` badge has its own icon, no text and no kind |
| Shortcodes.ExperimentalBadgeSpec | docs/_hooks/shortcodes.py:149-151 | the `experimental` badge has its own icon, no text and no kind |
| Shortcodes.FirstWord | docs/_hooks/shortcodes.py:68 | the first word is a space-free prefix of the arguments, followed by a space unless it is all of them |
| Shortcodes.Flag | docs/_hooks/shortcodes.py:67-77 | a flag fails exactly when its first word names none of the four flags, and the error names that word |
| Shortcodes.FlagIgnoresRest | docs/_hooks/shortcodes.py:68 | only the first word of a flag's arguments matters |
| Shortcodes.FlagBadgeSpec | docs/_hooks/shortcodes.py:67-76 | arguments whose first word is a known flag give a badge with that flag's icon, no text and no kind |
| Shortcodes.Replace | docs/_hooks/shortcodes.py:39-55 | an unknown shortcode is an error naming it; `version`, `type` and `default` give the version, type and default badge of the stripped arguments, `default-empty` the empty-default badge, and `flag` the flag badge of the stripped arguments |
| Shortcodes.NameLength | docs/_hooks/shortcodes.py:58 | the shortcode type is the longest run of word characters and hyphens |
| Shortcodes.CloseAt | docs/_hooks/shortcodes.py:58 | the arguments end at a closing `-->` with no newline before it |
| Shortcodes.ShortcodeAt | docs/_hooks/shortcodes.py:58 | a comment is found only where an opening, ignoring case, starts, and its type is not empty |
| Shortcodes.ShortcodeAfterOpen | docs/_hooks/shortcodes.py:58 | after the opening, a non-empty type, then the arguments, within what follows |
| Shortcodes.SubstituteUnchanged | docs/_hooks/shortcodes.py:36-58 | a page without shortcode comments is left as it is |
| Shortcodes.NotOpens | docs/_hooks/shortcodes.py:58 | a text not starting with `<` opens no comment |
| Shortcodes.SubstituteOne | docs/_hooks/shortcodes.py:36-58 | in a page of tag-free text, one shortcode and shortcode-free text, the shortcode becomes its badge and the text around it stays |
| Shortcodes.SubstitutePrefix | docs/_hooks/shortcodes.py:58 | tag-free text in front of a page is copied in front of its result |
| Shortcodes.SubstituteFirst | docs/_hooks/shortcodes.py:58 | one more tag-free character in front is copied |
| Shortcodes.SubstituteCons | docs/_hooks/shortcodes.py:58 | a character other than `<` is copied |
| Shortcodes.SubstituteComment | docs/_hooks/shortcodes.py:36-58 | a page that starts with a shortcode becomes its badge followed by the rest of the page |
| Shortcodes.OpensCommentConcat | docs/_hooks/shortcodes.py:58 | a comment opens where the opening is written |
| Shortcodes.ShortcodeAtComment | docs/_hooks/shortcodes.py:58 | a well-formed comment is read back as its type and arguments and its whole length |
| Shortcodes.ShortcodeAtOpen | docs/_hooks/shortcodes.py:58 | after an opening, a comment is read from what follows it |
| Shortcodes.ShortcodeAfterRoundTrip | docs/_hooks/shortcodes.py:58 | after the opening, the type and the arguments are read back up to the first closing |
| Shortcodes.NameLengthConcat | docs/_hooks/shortcodes.py:58 | the type stops where its name characters end |
| Shortcodes.CloseAtFirst | docs/_hooks/shortcodes.py:58 | the arguments are ended by the first closing |
| MinMax.SeqMax | fixtures/max/solve_rs_complex/minmax/src/lib.rs:11-17 | the maximum is an element of the list and no element exceeds it |
| MinMax.SeqMin | fixtures/max/solve_rs_complex/minmax/src/lib.rs:3-9 | the minimum is an element of the list and no element is below it |
| MinMax.MaxUnique | fixtures/max/solve_rs_complex/minmax/src/lib.rs:11-17 | any element that bounds the list from above is the maximum, so the maximum is determined uniquely |
| MinMax.MinUnique | fixtures/max/solve_rs_complex/minmax/src/lib.rs:3-9 | any element that bounds the list from below is the minimum |
| MinMax.Min | fixtures/max/solve_rs_complex/minmax/src/lib.rs:3-9 | `min` fails exactly on the empty list, with "minimum is not finite"; otherwise it returns an element at most every element |
| MinMax.Max | fixtures/max/solve_rs_complex/minmax/src/lib.rs:11-17 | `max` fails exactly on the empty list, with "maximum is not finite"; otherwise it returns an element at least every element |
| MinMax.MinLeMax | fixtures/max/solve_rs_complex/minmax/src/lib.rs:3-17 | min ≤ max, with equality exactly when all elements are equal |
| MinMax.SeqMaxSnoc | fixtures/max/solve_rs_complex/minmax/src/lib.rs:11-17 | appending an element gives the larger of it and the old maximum |
| FixtureNumbers.ParseI64 | fixtures/sum_cms/judge_rust/src/main.rs:6-15 | `i64` parsing yields only values in the range of `i64` |
| FixtureNumbers.ParseUsize | fixtures/max/solve_rs/src/main.rs:9-12 | `usize` parsing yields only values at most `usize::MAX` |
| FixtureNumbers.ParseI64OfString | fixtures/max/solve_rs_complex/solve/src/lib.rs:19-22 | printing any `i64` and parsing it back gives the number |
| FixtureNumbers.ParseUsizeOfString | fixtures/max/solve_rs/src/main.rs:9-12 | printing any count and parsing it back as `usize` gives the count |
| FixtureNumbers.IntToStringNoSpace | fixtures/max/solve_rs_complex/solve/src/lib.rs:19-22 | a printed number is non-empty and holds no whitespace |
| FixtureNumbers.TokenLength | fixtures/max/solve_rs_complex/solve/src/lib.rs:9-10 | the length of the leading token: every character before it is not whitespace, the one after it is |
| FixtureNumbers.SplitWhitespace | fixtures/max/solve_rs_complex/solve/src/lib.rs:9-10 | `split_whitespace` yields only non-empty tokens without whitespace |
| FixtureNumbers.SplitWhitespaceJoin | fixtures/max/solve_rs_complex/solve/src/lib.rs:9-10 | splitting tokens joined by spaces gives back the tokens |
| FixtureNumbers.TokenWhole | fixtures/max/solve_rs_complex/solve/src/lib.rs:9-10 | a token followed by whitespace or nothing is split off whole |
| FixtureNumbers.Numerals | fixtures/max/solve_rs_complex/solve/src/lib.rs:19-22 | the numerals of a list, element by element |
| FixtureNumbers.NumeralsAreTokens | fixtures/max/solve_rs_complex/solve/src/lib.rs:19-22 | every numeral is a token |
| FixtureNumbers.ParseAll | fixtures/max/solve_rs/src/main.rs:18-21 | collecting parses succeeds exactly when every token parses, and then gives each token's value in order; a failure names a token that does not parse |
| FixtureNumbers.ParseAllNumerals | fixtures/max/solve_rs/src/main.rs:18-21 | the numerals of `i64` values parse back to the values |
| FixtureNumbers.TrimStartSpaces | fixtures/sum_cms/judge_rust/src/main.rs:15 | trimming the start removes exactly the leading whitespace |
| FixtureNumbers.TrimEndSpaces | fixtures/sum_cms/judge_rust/src/main.rs:15 | trimming the end removes exactly the trailing whitespace |
| SumCmsJudge.Report | fixtures/sum_cms/judge_rust/src/main.rs:29-34 | `report` always exits with code 0 |
| SumCmsJudge.ReadInput | fixtures/sum_cms/judge_rust/src/main.rs:6-13 | the input is accepted exactly when its tokens are exactly two `i64` |
| SumCmsJudge.VerdictSpec | fixtures/sum_cms/judge_rust/src/main.rs:16-25 | full points exactly for the sum; half points exactly for a non-sum equal to the sum of absolute values, which needs a negative operand; an unparsable answer is wrong |
| SumCmsJudge.JudgeSpec | fixtures/sum_cms/judge_rust/src/main.rs:3-27 | the judge panics exactly on a wrong argument count, a missing file or a malformed input; otherwise it prints the points and the message of the trimmed answer's verdict and exits 0 |
| SumCmsJudge.PointsTextSpec | fixtures/sum_cms/judge_rust/src/main.rs:29-34 | the printed points are 1, 0.5 and 0 for the three scores |
| SumCmsJudge.SumIsCorrect | fixtures/sum_cms/judge_rust/src/main.rs:15-17 | an answer file holding the sum, with any whitespace around it, gets full points |
| SumCmsJudge.StripAround | fixtures/sum_cms/judge_rust/src/main.rs:15 | trimming whitespace around a token gives the token |
| SumKasiopeaJudge.Verdict | fixtures/sum_kasiopea/judge.cpp:8-11 | an accepted answer exits with 42, a rejected one with 43 |
| SumKasiopeaJudge.DigitRun | fixtures/sum_kasiopea/judge.cpp:28-29 | the length of the leading run of decimal digits, every one of them a digit and the next not |
| SumKasiopeaJudge.ScanSigned | fixtures/sum_kasiopea/judge.cpp:28-29 | `scanf("%lld")` after the whitespace: succeeds exactly when a digit follows the optional sign, and leaves the text after the digits |
| SumKasiopeaJudge.ScanMany | fixtures/sum_kasiopea/judge.cpp:22-34 | reading k numbers gives k numbers or fails |
| SumKasiopeaJudge.Judge | fixtures/sum_kasiopea/judge.cpp:13-41 | the loop ends exactly as the recursive definition of the rounds says, for every input |
| SumKasiopeaJudge.RunAccepts | fixtures/sum_kasiopea/judge.cpp:22-40 | from any round, the judge accepts exactly when the remaining answers read back as the reference sums and only whitespace follows them |
| SumKasiopeaJudge.JudgeAccepts | fixtures/sum_kasiopea/judge.cpp:13-41 | the judge accepts exactly when the answers read are the reference sums and nothing but whitespace is left |
| SumKasiopeaJudge.RunEnds | fixtures/sum_kasiopea/judge.cpp:22-40 | the judge ends with exit code 42 only as accepted, 43 only as rejected, or aborts |
| SumKasiopeaJudge.NeverAborts | fixtures/sum_kasiopea/judge.cpp:31 | a reference that is the sum of each case never trips the assertion |
| SumKasiopeaJudge.ScanNumeral | fixtures/sum_kasiopea/judge.cpp:28-29 | a printed number after whitespace and before a non-digit is read back as itself |
| SumKasiopeaJudge.ScanAnswer | fixtures/sum_kasiopea/judge.cpp:22-34 | numbers printed one per line read back as the numbers |
| SumKasiopeaJudge.ExpectedAnswerAccepted | fixtures/sum_kasiopea/judge.cpp:13-41 | the reference sums, one per line and followed by any whitespace, are accepted |
| RsMax.SolveMain | fixtures/max/solve_rs/src/main.rs:6-35 | without any line, `main` reports an unexpected end of file |
| RsMax.SolveMainSpec | fixtures/max/solve_rs/src/main.rs:6-35 | `main` succeeds exactly when both lines are there, the count parses, every number parses and there are as many as counted; it then prints the maximum |
| RsMax.NoNumbersUnreachable | fixtures/max/solve_rs/src/main.rs:27-30 | the empty-list error is never returned, since an empty line fails to parse first |
| RsMax.SolveMainWellFormed | fixtures/max/solve_rs/src/main.rs:6-35 | a count and that many `i64` joined by spaces prints their maximum |
| RsMax.ReadCount | fixtures/max/solve_rs_complex/solve/src/lib.rs:9 | the count line is accepted exactly when it holds one token that parses as `usize` |
| RsMax.LoadInput | fixtures/max/solve_rs_complex/solve/src/lib.rs:6-17 | with no line, `load_input` fails at end of file |
| RsMax.LoadInputSpec | fixtures/max/solve_rs_complex/solve/src/lib.rs:6-17 | `load_input` succeeds exactly when the count line holds one count, every value parses and there are as many as counted; the values are returned in order; a count mismatch reports two different numbers |
| RsMax.LoadInputWellFormed | fixtures/max/solve_rs_complex/solve/src/lib.rs:6-22 | loading the count and numerals of any list of `i64`, the empty one included, gives back the list |
| RsMax.WriteOutputReadsBack | fixtures/max/solve_rs_complex/solve/src/lib.rs:19-22 | `write_output` writes exactly one line, which parses back as the value |
| GoMax.Max | fixtures/max/solve_go_complex/lib.go:3-11 | panics exactly on an empty slice, as `nums[0]` does; otherwise the loop returns the maximum of the slice: an element no element exceeds |
| GoMax.SimpleMain | fixtures/max/solve_go_simple.go:9-23 | the loop prints the value the round-by-round definition gives, nothing when the count cannot be read |
| GoMax.ReadValues | fixtures/max/solve_go_simple.go:15-21 | the numbers read by the first k successful scans, in order |
| GoMax.RoundsMax | fixtures/max/solve_go_simple.go:15-21 | when every read succeeds, `max` after k ≥ 1 rounds is the maximum of the k numbers, negative ones included |
| GoMax.SimpleOutputSpec | fixtures/max/solve_go_simple.go:9-23 | a count ≤ 0 prints 0; otherwise the maximum of the numbers read |
| GoMax.SimpleOutputOneLine | fixtures/max/solve_go_simple.go:22 | the output is one line |

Functions that only compute have no row of their own; the rows of the lemmas and methods about them state their properties:

- `SumCmsJudge.Judge` and `SumCmsJudge.Verdict`: `SumCmsJudge.JudgeSpec`, `SumCmsJudge.VerdictSpec` and `SumCmsJudge.SumIsCorrect`.
- `SumKasiopeaJudge.Run` and `SumKasiopeaJudge.ScanLL`: `SumKasiopeaJudge.Judge`, `SumKasiopeaJudge.RunAccepts`, `SumKasiopeaJudge.RunEnds`, `SumKasiopeaJudge.NeverAborts`, `SumKasiopeaJudge.ScanNumeral` and `SumKasiopeaJudge.ScanMany`.
- `PosixPath.Relpath` and `PosixPath.Abspath`: `PosixPath.RelpathBelow` and `TaskPaths.FromAbspathBelow`.
- `TaskPaths.InputPath`, `TaskPaths.OutputPath`, `TaskPaths.SanitizedPath` and `TaskPaths.LogPath`: `TaskPaths.DataFileJoin`, `TaskPaths.InputFile`, `TaskPaths.OutputFileName`, `TaskPaths.SanitizedFileName`, `TaskPaths.LogFileName` and `TaskPaths.PointsFilePath`.
- `Shortcodes.Substitute`: `Shortcodes.SubstituteUnchanged`, `Shortcodes.SubstituteOne`, `Shortcodes.SubstituteComment` and `Shortcodes.SubstitutePrefix`.
- `Shortcodes.BadgeForVersion`, `BadgeForType`, `BadgeForDefault`, `BadgeForDefaultEmpty` and the four flag badges: `Shortcodes.VersionBadgeSpec`, `Shortcodes.TypeBadgeSpec`, `Shortcodes.DefaultBadgeSpec`, `Shortcodes.DefaultEmptyBadgeSpec`, `Shortcodes.RequiredBadgeSpec`, `Shortcodes.RequiredApplicableBadgeSpec`, `Shortcodes.CustomizationBadgeSpec` and `Shortcodes.ExperimentalBadgeSpec`.
- `BaseEnvModel.Fork`: `BaseEnvModel.ForkClears` and `BaseEnvModel.LockLocks`. `BaseEnvModel.KeyPaths` and `BaseEnvModel.AccessedPaths`: `BaseEnvModel.KeyPathsAttr`, `BaseEnvModel.KeyPathsHead` and `BaseEnvModel.GetAccessed`. `BaseEnvModel.GetCompound` and `BaseEnvModel.GetCompoundAsWritten`: `BaseEnvModel.IndexedLookup` and `BaseEnvModel.RawIndexMissesKey`.
- `ConfigHierarchyModel.SearchConfig` and `ConfigHierarchyModel.Search`: `ConfigHierarchyModel.SearchFirstHit`, `ConfigHierarchyModel.SearchMiss` and `ConfigHierarchyModel.SearchLoop`.
- `ConfigHierarchyModel.ConfigHierarchy.Sections`: `ConfigHierarchyModel.SectionsOf`, `ConfigHierarchyModel.SectionsOnce` and `ConfigHierarchyModel.SectionsInOrder`.
- `TestingLogModel.LogSoFar` and `TestingLogModel.Finish`: `TestingLogModel.LogSoFarKeys`, `TestingLogModel.LogSoFarValues`, `TestingLogModel.LogSoFarErr`, `TestingLogModel.FinishSpec` and `TestingLogModel.Evaluate`.
- `ResourceStatisticsModel.Status`, `ResourceStatisticsModel.StatusAsWritten` and `ResourceStatisticsModel.Rendered`: `ResourceStatisticsModel.GetStatus`, `ResourceStatisticsModel.StatusAsWrittenAgrees`, `ResourceStatisticsModel.JudgeWithoutCheckerFails`, `ResourceStatisticsModel.RenderedLength` and `ResourceStatisticsModel.RenderTable`.
- `DataManagerModel.DataManager.ComputeResult` returns the dictionary that `DataManagerModel.DataManager.GetJobs` stores, and that method's row states it.
- `Util.GlobsToFiles`: `Util.GlobsToFilesSpec`. `Util.CleanSteps`: `Util.CleanStepsRemoves` and the other `Util.CleanSteps*` lemmas. `Util.NonRelevant`: `Util.NonRelevantSpec`.
- `GoMax.SimpleOutput`: `GoMax.SimpleOutputSpec` and `GoMax.SimpleOutputOneLine`. `RsMax.WriteOutput`: `RsMax.WriteOutputReadsBack`.
- `CheckerBase.SyntheticRunAsWritten`: `CheckerBase.SyntheticRunFails`.
- `OpendataLib.GetTestcase`: `OpendataLib.GetTestcaseSpec` and `OpendataLib.AsWrittenAgrees`.

## Left out

- Program execution, compilation, generation and judging runs are abstract. `_run_program`, `generate`, `_judge` and `run_job` appear only through their results, which are given as parameters (`World`, `PathOps`, run results).
- File-system effects outside `util.py` are parameters or left out: `os.makedirs`, `open`, temporary directories and copying files. The glob matcher is a parameter of the model.
- `Job`, `JobManager` and `Cache` (`pisek/jobs/jobs.py`, `pisek/jobs/cache.py`) are not part of this model. The executor sees them through an abstract `World`: the jobs a manager creates from an environment, and the report of its n-th `update()`.
- A computed field of a `BaseEnv` is a stored value (`Env.computed`); pydantic evaluates the property on every read. `get_accessed` follows a computed field that holds an environment, as `getattr` does; the walks of `_clear_accesses` and `lock` enter declared fields only, as `_recursive_call` does.
- JobLogging.RecordOf: a level naming any other attribute of the root logger (`log`, `setLevel` and so on) gives no record. Python would call that attribute with the message, or raise AttributeError for a name that is no attribute.
- pydantic's `model_copy(deep=True)` is taken to be a deep copy. Nested environments are values, so a copy never shares them.
- `pisek/utils/paths.py` is not part of this model. `BUILD_DIR`, `TESTS_DIR` and `INTERNALS_DIR` are parameters of `Util.CleanTaskDir`.
- Util.CleanNonRelevantFiles: the tests directory is taken to have no trailing slash. The model compares each file's normalised `dirname` with the accessed directories, whereas `os.walk` reports the walked root as written; with a trailing slash on `TESTS_DIR` the source would keep the files directly in the tests directory, which the model removes when they are not relevant.
- `remove_colors` of `pisek/utils/colors.py` is a parameter of `JobLogging.NewLogEntry`. ANSI colouring and `colored` are parameters (`Paint`) or left out. Message texts are modelled only where a contract speaks of them.
- The logger's own level filtering, the JSON file write and `threading.Lock` in `pisek/jobs/logging.py` are left out. Writing is modelled as returning the entries that would be dumped.
- Case mapping, `\w` and whitespace are those of ASCII. Python applies Unicode rules for the same operations.
- `shutil.rmtree` on symbolic links, and permission errors, are not modelled. The file system is a tree of files and directories.
- `os.walk`'s visiting order is not modelled. `Util.CleanNonRelevantFiles` visits the files in any order and is proved independent of it.
- `random.seed` and `random.sample` are replaced by the seed lists they produce, given as parameters.
- The clock and the wall time of runs are plain numbers in the run results.
- Python's `Decimal` and `float` are modelled as `real`, with exact arithmetic. Formatting numbers with `:.2f` is a parameter (`Format`).
- CheckerBase.RelToAbsPoints: computed exactly on `real` numbers, without floating-point rounding.
- ConfigParser's `DEFAULT` section, interpolation and its exact file syntax are not modelled. A config file is given as its parsed sections, keys lower-cased.
- The text of a config value's location in its file is not modelled.
- `update_config` (`pisek/config/config_tools.py`) is not part of this model.
- `Task.build` is modelled as its argument checks. Copying the task, exporting and loading the config are file I/O, so they are left out.
- `TaskPath.generated_input_file` (pisek/paths.py:84-86) is not modelled. As written, it passes the environment where a task directory is expected, and it formats a string with `:x`.
- The `unittest` machinery of `pisek/tests` is not modelled. Test cases are values naming the check they make, in the suite's order.
- `re.sub` in the documentation hook is modelled as a left-to-right scan with the same pattern, on ASCII.
- The `max.rs` and `min.rs` binaries of the complex Rust solution are glue over `load_input`, `max`, `min` and `write_output`, so they are left out.
- Standard input is given to the fixture programs as text or as its lines. Go's `fmt.Fscan` is given as the results of its scans, so its token syntax is not modelled.
- Panics and failed assertions in the fixtures are outcomes (`Panic`, `Abort`), not process aborts.
- SumCmsJudge.JudgeSpec: the sum and the absolute values are computed without `i64` overflow. Rust would panic in a debug build, or wrap in a release build, on `a + b` or on `abs` of `i64::MIN`.
- SumKasiopeaJudge.Judge: reading the input and the reference is assumed to succeed. Opening the files, and reading past their end, are excluded by its precondition. `a + b` and an answer beyond the range of `long long` (undefined behaviour in C++) are taken as exact integers.

## Findings

| source | as written | input that shows it | evidently intended | confidence | as-written member | corrected member |
|---|---|---|---|---|---|---|
| pisek/env/config_hierarchy.py:125 | `check_unused_keys` examines `_configs[-1]`, which is the defaults | a task config holding an extra key `foo` in `[task]` passes the check | check the task's own config, the "lowest config" of its docstring; the config tests expect the extra key to be reported | medium, not executed | ConfigHierarchyModel.ConfigHierarchy.CheckUnusedKeys, ConfigHierarchyModel.ExtraTaskKeyMissed | ConfigHierarchyModel.ConfigHierarchy.CheckUnusedTaskKeys |
| pisek/config/base_env.py:120-121 | the result of `index[:-1]` is discarded, so the index keeps its `]` | `get_compound("d[1]")` on a dictionary field `d` holding key `"1"` raises KeyError | look up the key without the bracket | high, not executed | BaseEnvModel.GetCompoundAsWritten, BaseEnvModel.RawIndexMissesKey | BaseEnvModel.GetCompound, BaseEnvModel.IndexedLookup |
| pisek/opendata/lib.py:135-136 | the test bound is `0 <= test <= tests_count` | `test == tests_count` with a known testcase name gets past the check and fails with a KeyError on the missing section | reject it with the same InvalidArgument as other tests that do not exist | high, not executed | OpendataLib.GetTestcaseAsWritten, OpendataLib.TestBoundInclusive | OpendataLib.GetTestcase, OpendataLib.GetTestcaseSpec |
| pisek/task_jobs/checker/checker_base.py:209-211 | the synthetic run result is built without the required `memory` argument | judging a sample without a solution run raises TypeError | a run result with memory 0 | high, not executed | CheckerBase.SyntheticRunAsWritten, CheckerBase.SyntheticRunFails | CheckerBase.SyntheticRun |
| pisek/task_jobs/resource_statistics.py:122-129 | the judge row is built whenever a judge is configured, even when no checker ran | a solution whose only input was not judged (the checker is skipped after a failed run) makes `max` of no runs fail | leave the judge row out, as the generator row is left out when it has no runs | medium, not executed | ResourceStatisticsModel.JudgeRowAsWritten, ResourceStatisticsModel.StatusAsWritten, ResourceStatisticsModel.JudgeWithoutCheckerFails | ResourceStatisticsModel.JudgeRow, ResourceStatisticsModel.GetStatus |
