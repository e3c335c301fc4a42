/** The layered configuration of `pisek/env/config_hierarchy.py`: the task's
    own config file followed by the defaults, searched in that order, with a
    log of every (section, key) the program asked for and a check that the
    config holds nothing that was never asked for. */
module ConfigHierarchyModel {
  import opened Common
  import opened Text
  import opened PosixPath

  const ConfigFilename := "config"
  /** A value that hides every value of the configs below it. */
  const UnsetMarker := "!unset"

  /** One `[section]` of a parsed config file: its keys, as ConfigParser
      stores them (lower-cased), with their values, in file order. */
  datatype Section = Section(name: string, items: seq<(string, string)>)

  /** A parsed config file: its sections in file order. */
  datatype Config = Config(sections: seq<Section>)

  /** A (section, key) the program asks for; no key asks whether the
      section exists. */
  type Candidate = (string, Option<string>)

  datatype ConfigValue = ConfigValue(value: string, config: string, section: string, key: Option<string>)

  /** The TaskConfigError raised by the hierarchy, by cause. */
  datatype ConfigError =
    | MissingConfig(path: string)
    | UnsetValue(candidates: seq<Candidate>)
    | UnexpectedSection(section: string)
    | UnexpectedKey(key: string, section: string)

  /** Keys collected per section: `_used_keys`, a dictionary of sets. */
  type UsedKeys = map<string, set<Option<string>>>

  // ---------------------------------------------------------------------------
  // Lookup in one config

  function FindSection(secs: seq<Section>, name: string): (r: Option<Section>)
    ensures r.Some? ==> r.value in secs && r.value.name == name
    ensures r.None? <==> forall i :: 0 <= i < |secs| ==> secs[i].name != name
  {
    if secs == [] then None
    else if secs[0].name == name then Some(secs[0])
    else FindSection(secs[1..], name)
  }

  function FindItem(items: seq<(string, string)>, key: string): (r: Option<string>)
    ensures r.Some? ==> (key, r.value) in items
    ensures r.None? <==> forall i :: 0 <= i < |items| ==> items[i].0 != key
  {
    if items == [] then None
    else if items[0].0 == key then Some(items[0].1)
    else FindItem(items[1..], key)
  }

  /** `section in config`. */
  predicate HasSection(c: Config, name: string)
  {
    FindSection(c.sections, name).Some?
  }

  /** `config.get(section, key, fallback=None)`: a missing section or key
      gives `None`; the key is lower-cased first, as ConfigParser does. */
  function GetValue(c: Config, section: string, key: string): (r: Option<string>)
    ensures r.Some? ==> exists sec :: sec in c.sections && sec.name == section && (Lower(key), r.value) in sec.items
    ensures r.None? <==> !HasSection(c, section) || forall i :: 0 <= i < |FindSection(c.sections, section).value.items| ==>
                                                      FindSection(c.sections, section).value.items[i].0 != Lower(key)
  {
    match FindSection(c.sections, section)
    case None => None
    case Some(sec) =>
      var r := FindItem(sec.items, Lower(key));
      assert r.Some? ==> sec in c.sections && sec.name == section && (Lower(key), r.value) in sec.items;
      assert HasSection(c, section) && FindSection(c.sections, section).value == sec;
      r
  }

  /** What one candidate finds in one config: a value, the section name
      for a key-less candidate whose section exists, or nothing. */
  function Lookup(c: Config, cand: Candidate): (r: Option<string>)
    ensures cand.1.None? ==> (r.Some? <==> HasSection(c, cand.0)) && (r.Some? ==> r.value == cand.0)
    ensures cand.1.Some? ==> r == GetValue(c, cand.0, cand.1.value)
  {
    if cand.1.None? then (if HasSection(c, cand.0) then Some(cand.0) else None)
    else GetValue(c, cand.0, cand.1.value)
  }

  // ---------------------------------------------------------------------------
  // The ordered search

  datatype Outcome = Found(v: ConfigValue) | Unset | NotFound

  /** What a found value means: the unset marker stops the search. */
  function Decide(value: string, cand: Candidate): Outcome
  {
    if value == UnsetMarker then Unset else Found(ConfigValue(value, "", cand.0, cand.1))
  }

  /** The candidates tried in order against one config. */
  function SearchConfig(c: Config, cands: seq<Candidate>): Outcome
  {
    if cands == [] then NotFound
    else match Lookup(c, cands[0])
      case Some(v) => Decide(v, cands[0])
      case None => SearchConfig(c, cands[1..])
  }

  /** The configs tried in order, each against all candidates. */
  function Search(configs: seq<Config>, cands: seq<Candidate>): Outcome
  {
    if configs == [] then NotFound
    else
      var o := SearchConfig(configs[0], cands);
      if o.NotFound? then Search(configs[1..], cands) else o
  }

  /** `get_from_candidates` without its logging: the value found, or the
      error listing every candidate. */
  function Resolve(configs: seq<Config>, cands: seq<Candidate>): Result<ConfigValue, ConfigError>
  {
    match Search(configs, cands)
    case Found(v) => Ok(v)
    case _ => Err(UnsetValue(cands))
  }

  /** Candidate `j` in config `i` is the first hit in config-major order:
      it has a value, and nothing before it (every candidate in an earlier
      config, an earlier candidate in the same config) has one. */
  ghost predicate FirstHit(configs: seq<Config>, cands: seq<Candidate>, i: int, j: int)
  {
    && 0 <= i < |configs| && 0 <= j < |cands|
    && Lookup(configs[i], cands[j]).Some?
    && (forall i', j' :: 0 <= i' < i && 0 <= j' < |cands| ==> Lookup(configs[i'], cands[j']).None?)
    && (forall j' :: 0 <= j' < j ==> Lookup(configs[i], cands[j']).None?)
  }

  lemma {:induction false} SearchConfigHit(c: Config, cands: seq<Candidate>, j: nat)
    requires j < |cands| && Lookup(c, cands[j]).Some?
    requires forall j' :: 0 <= j' < j ==> Lookup(c, cands[j']).None?
    ensures SearchConfig(c, cands) == Decide(Lookup(c, cands[j]).value, cands[j])
  {
    if j > 0 {
      SearchConfigHit(c, cands[1..], j - 1);
    }
  }

  lemma {:induction false} SearchConfigMiss(c: Config, cands: seq<Candidate>)
    ensures SearchConfig(c, cands).NotFound? <==> forall j :: 0 <= j < |cands| ==> Lookup(c, cands[j]).None?
  {
    if cands != [] {
      SearchConfigMiss(c, cands[1..]);
      assert forall j :: 1 <= j < |cands| ==> cands[j] == cands[1..][j - 1];
      if Lookup(c, cands[0]).Some? {
        assert !Decide(Lookup(c, cands[0]).value, cands[0]).NotFound?;
      }
    }
  }

  /** The first hit decides the search: its value is returned, or the
      search stops with nothing if it is the unset marker, whatever the
      later configs hold. */
  lemma {:induction false} SearchFirstHit(configs: seq<Config>, cands: seq<Candidate>, i: nat, j: nat)
    requires FirstHit(configs, cands, i, j)
    ensures Search(configs, cands) == Decide(Lookup(configs[i], cands[j]).value, cands[j])
    ensures Lookup(configs[i], cands[j]).value == UnsetMarker ==> Resolve(configs, cands) == Err(UnsetValue(cands))
  {
    if i == 0 {
      SearchConfigHit(configs[0], cands, j);
    } else {
      SearchConfigMiss(configs[0], cands);
      assert FirstHit(configs[1..], cands, i - 1, j) by {
        assert forall i' :: 0 <= i' < i - 1 ==> configs[1..][i'] == configs[i' + 1];
      }
      SearchFirstHit(configs[1..], cands, i - 1, j);
    }
  }

  /** Nothing is found exactly when no candidate has a value in any
      config. */
  lemma {:induction false} SearchMiss(configs: seq<Config>, cands: seq<Candidate>)
    ensures Search(configs, cands).NotFound? <==>
      forall i, j :: 0 <= i < |configs| && 0 <= j < |cands| ==> Lookup(configs[i], cands[j]).None?
  {
    if configs != [] {
      SearchConfigMiss(configs[0], cands);
      SearchMiss(configs[1..], cands);
      assert forall i :: 1 <= i < |configs| ==> configs[i] == configs[1..][i - 1];
    }
  }

  // ---------------------------------------------------------------------------
  // The used-key log

  function Used(m: UsedKeys, section: string): set<Option<string>>
  {
    if section in m then m[section] else {}
  }

  /** Every candidate added to the log, in order. */
  function Record(m: UsedKeys, cands: seq<Candidate>): UsedKeys
    decreases |cands|
  {
    if cands == [] then m
    else Record(m[cands[0].0 := Used(m, cands[0].0) + {cands[0].1}], cands[1..])
  }

  /** After recording, a section is in the log iff it was before or some
      candidate names it, and a key is logged for it iff it was before or
      is one of the candidates. */
  lemma {:induction false} RecordSpec(m: UsedKeys, cands: seq<Candidate>, section: string, key: Option<string>)
    ensures section in Record(m, cands) <==>
      section in m || exists j :: 0 <= j < |cands| && cands[j].0 == section
    ensures key in Used(Record(m, cands), section) <==> key in Used(m, section) || (section, key) in cands
    decreases |cands|
  {
    if cands != [] {
      var m' := m[cands[0].0 := Used(m, cands[0].0) + {cands[0].1}];
      RecordSpec(m', cands[1..], section, key);
      assert forall j :: 1 <= j < |cands| ==> cands[j] == cands[1..][j - 1];
      assert (section, key) in cands <==> (section, key) == cands[0] || (section, key) in cands[1..];
    }
  }

  // ---------------------------------------------------------------------------
  // Sections

  function SectionNames(c: Config): seq<string>
  {
    seq(|c.sections|, i requires 0 <= i < |c.sections| => c.sections[i].name)
  }

  /** The section names of all configs, config by config. */
  function AllSectionNames(configs: seq<Config>): seq<string>
  {
    if configs == [] then [] else SectionNames(configs[0]) + AllSectionNames(configs[1..])
  }

  /** `sections()`: one value per section name, in first-occurrence order. */
  function SectionsOf(configs: seq<Config>): (r: seq<ConfigValue>)
    ensures |r| == |Dedupe(AllSectionNames(configs))|
    ensures forall i :: 0 <= i < |r| ==>
      r[i] == ConfigValue(Dedupe(AllSectionNames(configs))[i], "", Dedupe(AllSectionNames(configs))[i], None)
  {
    var names := Dedupe(AllSectionNames(configs));
    seq(|names|, i requires 0 <= i < |names| => ConfigValue(names[i], "", names[i], None))
  }

  /** Each section of any config is listed once and nothing else is
      listed. */
  lemma SectionsOnce(configs: seq<Config>)
    ensures var names := AllSectionNames(configs);
      var r := SectionsOf(configs);
      && (forall i, j :: 0 <= i < j < |r| ==> r[i].section != r[j].section)
      && (forall i :: 0 <= i < |r| ==> r[i].section in names)
      && (forall k :: 0 <= k < |names| ==> exists i :: 0 <= i < |r| && r[i].section == names[k])
  {
    var names := AllSectionNames(configs);
    var d := Dedupe(names);
    var r := SectionsOf(configs);
    forall k | 0 <= k < |names| ensures exists i :: 0 <= i < |r| && r[i].section == names[k] {
      assert names[k] in d;
      var i :| 0 <= i < |d| && d[i] == names[k];
      assert r[i].section == names[k];
    }
  }

  /** Sections are listed in the order of their first occurrence. */
  lemma SectionsInOrder(configs: seq<Config>)
    ensures var names := AllSectionNames(configs);
      var r := SectionsOf(configs);
      forall i, j :: 0 <= i < j < |r| ==> FirstIndex(names, r[i].section) < FirstIndex(names, r[j].section)
  {
    DedupeOrder(AllSectionNames(configs));
  }

  // ---------------------------------------------------------------------------
  // Unused keys

  /** `re.match(r"test\d{2}", section)`: `test` and two digits at the
      start. */
  predicate IsTestNumberSection(section: string)
  {
    |section| >= 6 && section[..4] == "test" && '0' <= section[4] <= '9' && '0' <= section[5] <= '9'
  }

  function IgnoredKeys(section: string): set<string>
  {
    if section == "task" then {"tests", "version"}
    else if section == "tests" then {"in_mode", "out_mode", "out_format", "online_validity"}
    else {}
  }

  /** Keys the check passes over whether used or not. */
  predicate Ignored(section: string, key: string)
  {
    key in IgnoredKeys(section) || ((section == "all_tests" || IsTestNumberSection(section)) && key == "file_name")
  }

  /** The first key of a section, in file order, that is neither ignored
      nor logged. */
  function UnexpectedKeyIn(section: string, items: seq<(string, string)>, used: set<Option<string>>): (r: Option<ConfigError>)
    ensures r.Some? ==> exists j :: 0 <= j < |items| && r == Some(UnexpectedKey(items[j].0, section))
  {
    if items == [] then None
    else if !Ignored(section, items[0].0) && Some(items[0].0) !in used then Some(UnexpectedKey(items[0].0, section))
    else UnexpectedKeyIn(section, items[1..], used)
  }

  /** The first problem `check_unused_keys` reports in one config:
      sections in file order, and within a section its keys. */
  function UnexpectedIn(secs: seq<Section>, used: UsedKeys): Option<ConfigError>
  {
    if secs == [] then None
    else if secs[0].name !in used then Some(UnexpectedSection(secs[0].name))
    else match UnexpectedKeyIn(secs[0].name, secs[0].items, used[secs[0].name])
      case Some(e) => Some(e)
      case None => UnexpectedIn(secs[1..], used)
  }

  /** Every section was asked for and every key that is not ignored was
      asked for in its section. */
  ghost predicate AllUsed(c: Config, used: UsedKeys)
  {
    forall i :: 0 <= i < |c.sections| ==>
      && c.sections[i].name in used
      && forall j :: 0 <= j < |c.sections[i].items| ==>
        Ignored(c.sections[i].name, c.sections[i].items[j].0) ||
        Some(c.sections[i].items[j].0) in used[c.sections[i].name]
  }

  lemma {:induction false} UnexpectedKeyInNone(section: string, items: seq<(string, string)>, used: set<Option<string>>)
    ensures UnexpectedKeyIn(section, items, used).None? <==>
      forall j :: 0 <= j < |items| ==> Ignored(section, items[j].0) || Some(items[j].0) in used
  {
    if items != [] {
      UnexpectedKeyInNone(section, items[1..], used);
      assert forall j :: 1 <= j < |items| ==> items[j] == items[1..][j - 1];
    }
  }

  /** The check passes exactly when everything in the config was used. */
  lemma {:induction false} UnexpectedInNone(secs: seq<Section>, used: UsedKeys)
    ensures UnexpectedIn(secs, used).None? <==> AllUsed(Config(secs), used)
  {
    if secs != [] {
      UnexpectedInNone(secs[1..], used);
      assert forall i :: 1 <= i < |secs| ==> secs[i] == secs[1..][i - 1];
      if secs[0].name in used {
        UnexpectedKeyInNone(secs[0].name, secs[0].items, used[secs[0].name]);
      }
    }
  }

  /** A reported section is one of the config's sections that was never
      used. */
  lemma {:induction false} UnexpectedSectionUnused(secs: seq<Section>, used: UsedKeys, name: string)
    requires UnexpectedIn(secs, used) == Some(UnexpectedSection(name))
    ensures name !in used && exists i :: 0 <= i < |secs| && secs[i].name == name
  {
    if secs[0].name in used {
      UnexpectedSectionUnused(secs[1..], used, name);
      var i :| 0 <= i < |secs[1..]| && secs[1..][i].name == name;
      assert secs[i + 1].name == name;
    }
  }

  // ---------------------------------------------------------------------------
  // Comments

  /** A line holds a TODO comment: `TODO` occurs between its first `#` and
      the next one. */
  predicate HasTodo(line: string)
  {
    '#' in line && Contains(Split(line, '#')[1], "TODO")
  }

  /** Only the first comment of a line counts: `TODO` after a second `#`
      does not. */
  lemma TodoInFirstComment(code: string, comment: string, rest: string)
    requires '#' !in code && '#' !in comment
    ensures HasTodo(code + ['#'] + comment + ['#'] + rest) <==> Contains(comment, "TODO")
  {
    var tail := comment + ['#'] + rest;
    var line := code + ['#'] + comment + ['#'] + rest;
    assert line == code + ['#'] + tail;
    assert line[|code|] == '#';
    SplitFirst(code, '#', tail);
    SplitFirst(comment, '#', rest);
    assert Split(line, '#')[1] == comment;
  }

  /** `check_todos` over the lines of the top config. */
  method CheckTodos(lines: seq<string>) returns (b: bool)
    ensures b <==> exists i :: 0 <= i < |lines| && HasTodo(lines[i])
  {
    var i := 0;
    while i < |lines|
      invariant 0 <= i <= |lines|
      invariant forall k :: 0 <= k < i ==> !HasTodo(lines[k])
    {
      if '#' in lines[i] && Contains(Split(lines[i], '#')[1], "TODO") {
        return true;
      }
      i := i + 1;
    }
    return false;
  }

  // ---------------------------------------------------------------------------
  // The hierarchy object

  class ConfigHierarchy {
    var configPaths: seq<string>
    var configs: seq<Config>
    var usedKeys: UsedKeys

    /** Two config files, the task's first. */
    ghost predicate Valid()
      reads this
    {
      |configPaths| == 2 && |configs| == 2
    }

    constructor Loaded(paths: seq<string>, parsed: seq<Config>)
      requires |paths| == 2 && |parsed| == 2
      ensures Valid()
      ensures configPaths == paths && configs == parsed && usedKeys == map[]
    {
      configPaths := paths;
      configs := parsed;
      usedKeys := map[];
    }

    /** `top_config`: the task's own config file, the first of the two
        the hierarchy reads. */
    function TopConfig(): (r: string)
      reads this
      requires Valid()
      ensures r == configPaths[0] && r in configPaths
    {
      configPaths[0]
    }

    /** `get_from_candidates`: log every candidate, then search config by
        config and candidate by candidate. */
    method GetFromCandidates(cands: seq<Candidate>) returns (r: Result<ConfigValue, ConfigError>)
      requires Valid()
      modifies this
      ensures Valid() && configs == old(configs) && configPaths == old(configPaths)
      ensures usedKeys == Record(old(usedKeys), cands)
      ensures r == Resolve(configs, cands)
    {
      var n := 0;
      while n < |cands|
        invariant 0 <= n <= |cands|
        invariant configs == old(configs) && configPaths == old(configPaths)
        invariant Record(usedKeys, cands[n..]) == Record(old(usedKeys), cands)
      {
        var section := cands[n].0;
        assert cands[n..][1..] == cands[n + 1..];
        usedKeys := usedKeys[section := Used(usedKeys, section) + {cands[n].1}];
        n := n + 1;
      }
      assert cands[|cands|..] == [];
      r := SearchLoop(configs, cands);
    }

    /** `get(section, key)`: a search for one candidate. */
    method Get(section: string, key: Option<string>) returns (r: Result<ConfigValue, ConfigError>)
      requires Valid()
      modifies this
      ensures Valid() && configs == old(configs) && configPaths == old(configPaths)
      ensures usedKeys == old(usedKeys)[section := Used(old(usedKeys), section) + {key}]
      ensures r == Resolve(configs, [(section, key)])
    {
      r := GetFromCandidates([(section, key)]);
    }

    /** `sections()`. */
    function Sections(): seq<ConfigValue>
      reads this
    {
      SectionsOf(configs)
    }

    /** `check_unused_keys` as written: it examines the last config of the
        hierarchy, the defaults. */
    method CheckUnusedKeys() returns (r: Result<(), ConfigError>)
      requires Valid()
      ensures r.Ok? <==> AllUsed(configs[|configs| - 1], usedKeys)
      ensures r.Err? ==> Some(r.error) == UnexpectedIn(configs[|configs| - 1].sections, usedKeys)
    {
      r := CheckConfig(configs[|configs| - 1], usedKeys);
    }

    /** `check_unused_keys` on the task's own config, the one its
        documentation names. */
    method CheckUnusedTaskKeys() returns (r: Result<(), ConfigError>)
      requires Valid()
      ensures r.Ok? <==> AllUsed(configs[0], usedKeys)
      ensures r.Err? ==> Some(r.error) == UnexpectedIn(configs[0].sections, usedKeys)
    {
      r := CheckConfig(configs[0], usedKeys);
    }
  }

  /** The nested loops of `get_from_candidates`: config by config, and
      within a config candidate by candidate, until a value or the unset
      marker is met. */
  method SearchLoop(configs: seq<Config>, cands: seq<Candidate>) returns (r: Result<ConfigValue, ConfigError>)
    ensures r == Resolve(configs, cands)
  {
    var unset := false;
    var i := 0;
    while i < |configs|
      invariant 0 <= i <= |configs| && !unset
      invariant Search(configs, cands) == Search(configs[i..], cands)
    {
      var config := configs[i];
      var k := 0;
      while k < |cands|
        invariant 0 <= k <= |cands| && !unset
        invariant SearchConfig(config, cands) == SearchConfig(config, cands[k..])
      {
        var value := LookupStep(config, cands[k]);
        assert cands[k..][0] == cands[k];
        if value == Some(UnsetMarker) {
          assert SearchConfig(config, cands) == Unset;
          unset := true;
          break;
        } else if value.Some? {
          assert configs[i..][0] == config;
          return Ok(ConfigValue(value.value, "", cands[k].0, cands[k].1));
        }
        assert cands[k..][1..] == cands[k + 1..];
        k := k + 1;
      }
      assert configs[i..][0] == config;
      if unset {
        break;
      }
      assert cands[|cands|..] == [];
      assert configs[i..][1..] == configs[i + 1..];
      i := i + 1;
    }
    return Err(UnsetValue(cands));
  }

  /** One step of the inner search loop: the value a candidate finds. */
  method LookupStep(config: Config, cand: Candidate) returns (value: Option<string>)
    ensures value == Lookup(config, cand)
  {
    if cand.1.None? {
      value := if HasSection(config, cand.0) then Some(cand.0) else None;
    } else {
      value := GetValue(config, cand.0, cand.1.value);
    }
  }

  /** The loops of `check_unused_keys` over one config: stop at the first
      section never used or the first key neither ignored nor used. */
  method CheckConfig(c: Config, used: UsedKeys) returns (r: Result<(), ConfigError>)
    ensures r.Ok? <==> AllUsed(c, used)
    ensures r.Err? ==> Some(r.error) == UnexpectedIn(c.sections, used)
  {
    UnexpectedInNone(c.sections, used);
    var i := 0;
    while i < |c.sections|
      invariant 0 <= i <= |c.sections|
      invariant UnexpectedIn(c.sections, used) == UnexpectedIn(c.sections[i..], used)
    {
      var sec := c.sections[i];
      assert c.sections[i..][0] == sec;
      if sec.name !in used {
        return Err(UnexpectedSection(sec.name));
      }
      var j := 0;
      while j < |sec.items|
        invariant 0 <= j <= |sec.items|
        invariant UnexpectedKeyIn(sec.name, sec.items, used[sec.name]) ==
          UnexpectedKeyIn(sec.name, sec.items[j..], used[sec.name])
      {
        var key := sec.items[j].0;
        assert sec.items[j..][0] == sec.items[j];
        if !Ignored(sec.name, key) && Some(key) !in used[sec.name] {
          return Err(UnexpectedKey(key, sec.name));
        }
        assert sec.items[j..][1..] == sec.items[j + 1..];
        j := j + 1;
      }
      assert sec.items[|sec.items|..] == [];
      assert c.sections[i..][1..] == c.sections[i + 1..];
      i := i + 1;
    }
    assert c.sections[|c.sections|..] == [];
    return Ok(());
  }

  /** The task's own config file. */
  function TaskConfigPath(taskPath: string): string
  {
    PathJoin(taskPath, ConfigFilename)
  }

  /** `ConfigHierarchy(task_path)`: the task's `config` and the defaults
      file, in that order; `files` holds the files that can be read. The
      first missing file is reported. */
  method Open(taskPath: string, defaultsPath: string, files: map<string, Config>)
    returns (r: Result<ConfigHierarchy, ConfigError>)
    ensures r.Ok? <==> TaskConfigPath(taskPath) in files && defaultsPath in files
    ensures r.Ok? ==> fresh(r.value) && r.value.Valid() && r.value.usedKeys == map[]
    ensures r.Ok? ==> r.value.configPaths == [TaskConfigPath(taskPath), defaultsPath]
    ensures r.Ok? ==> r.value.TopConfig() == TaskConfigPath(taskPath)
    ensures r.Ok? ==> r.value.configs == [files[TaskConfigPath(taskPath)], files[defaultsPath]]
    ensures r.Err? ==> r.error == MissingConfig(
      if TaskConfigPath(taskPath) !in files then TaskConfigPath(taskPath) else defaultsPath)
  {
    var paths := [TaskConfigPath(taskPath), defaultsPath];
    var parsed: seq<Config> := [];
    var i := 0;
    while i < |paths|
      invariant 0 <= i <= |paths| && |parsed| == i
      invariant forall k :: 0 <= k < i ==> paths[k] in files && parsed[k] == files[paths[k]]
    {
      if paths[i] !in files {
        assert i == 1 ==> paths[0] in files;
        return Err(MissingConfig(paths[i]));
      }
      parsed := parsed + [files[paths[i]]];
      i := i + 1;
    }
    assert paths[0] in files && paths[1] in files;
    var h := new ConfigHierarchy.Loaded(paths, parsed);
    return Ok(h);
  }

  // ---------------------------------------------------------------------------
  // The config the unused-key check examines

  /** A task config with an extra key the program never reads, over
      defaults that hold only keys it read. */
  function ExtraKeyTask(): Config
  {
    Config([Section("task", [("name", "sum"), ("foo", "bar")])])
  }

  function PlainDefaults(): Config
  {
    Config([Section("task", [("name", "")])])
  }

  function NameRead(): UsedKeys
  {
    map["task" := {Some("name")}]
  }

  /** Checking the last config (the defaults) lets the task config's extra
      key through; checking the task config reports it. */
  lemma ExtraTaskKeyMissed()
    ensures AllUsed(PlainDefaults(), NameRead())
    ensures UnexpectedIn(ExtraKeyTask().sections, NameRead()) == Some(UnexpectedKey("foo", "task"))
  {
    var used := NameRead();
    assert !Ignored("task", "name") && Some("name") in used["task"];
    assert !Ignored("task", "foo") && Some("foo") !in used["task"];
    UnexpectedInNone(PlainDefaults().sections, used);
  }
}
