/** Logging of the job pipeline (`pisek/jobs/logging.py`): log levels by
    name, log entries, the handler turning a log record into an entry, and
    the JSON log that collects the entries and is written only once it has
    been enabled. */
module JobLogging {
  import opened Common
  import opened Text

  /** The levels a log entry can name, from the most to the least severe. */
  datatype LogLevel = Critical | Error | Warning | Info | Debug

  /** The name of a level in a log entry and on the command line. */
  function LevelName(l: LogLevel): string
  {
    match l
    case Critical => "critical"
    case Error => "error"
    case Warning => "warning"
    case Info => "info"
    case Debug => "debug"
  }

  /** The name the `logging` module gives a record of the level. */
  function RecordLevelName(l: LogLevel): string
  {
    match l
    case Critical => "CRITICAL"
    case Error => "ERROR"
    case Warning => "WARNING"
    case Info => "INFO"
    case Debug => "DEBUG"
  }

  /** The numeric level of the `logging` module. */
  function LevelValue(l: LogLevel): int
  {
    match l
    case Critical => 50
    case Error => 40
    case Warning => 30
    case Info => 20
    case Debug => 10
  }

  /** `map_log_level`: the numeric level of a level name in any case; any
      other name is the user's error, reported with the lower-cased name. */
  function MapLogLevel(name: string): (r: Result<int, string>)
    ensures r.Ok? <==> exists l :: LevelName(l) == Lower(name)
    ensures forall l :: LevelName(l) == Lower(name) ==> r == Result.Ok(LevelValue(l))
    ensures r.Err? ==> r.error == "Invalid log level: '" + Lower(name) + "'"
  {
    var lower := Lower(name);
    if lower == "debug" then assert LevelName(Debug) == lower; Result.Ok(10)
    else if lower == "info" then assert LevelName(Info) == lower; Result.Ok(20)
    else if lower == "warning" then assert LevelName(Warning) == lower; Result.Ok(30)
    else if lower == "error" then assert LevelName(Error) == lower; Result.Ok(40)
    else if lower == "critical" then assert LevelName(Critical) == lower; Result.Ok(50)
    else
      assert forall l :: LevelName(l) != lower;
      Err("Invalid log level: '" + lower + "'")
  }

  /** Lower-casing twice is lower-casing once. */
  lemma LowerIdempotent(s: string)
    ensures Lower(Lower(s)) == Lower(s)
  {
    assert forall i :: 0 <= i < |s| ==> LowerChar(LowerChar(s[i])) == LowerChar(s[i]);
  }

  /** The level names, in either case, map to their levels, and no two
      levels share a value. */
  lemma MapLogLevelNames(l: LogLevel, m: LogLevel)
    ensures MapLogLevel(LevelName(l)) == Result.Ok(LevelValue(l))
    ensures MapLogLevel(RecordLevelName(l)) == Result.Ok(LevelValue(l))
    ensures LevelValue(l) == LevelValue(m) ==> l == m
  {
    assert Lower(LevelName(l)) == LevelName(l);
    assert Lower(RecordLevelName(l)) == LevelName(l);
  }

  /** The case of the name does not matter. */
  lemma MapLogLevelIgnoresCase(name: string)
    ensures MapLogLevel(name) == MapLogLevel(Lower(name))
  {
    LowerIdempotent(name);
  }

  // ---------------------------------------------------------------------------
  // Entries and records

  /** A log entry as the JSON log stores it. */
  datatype LogEntry = LogEntry(scope: string, level: string, message: string)

  /** `LogEntry(scope, level, message)`: the message loses its colours.
      `removeColors` is `remove_colors` of `pisek/utils/colors.py`. */
  function NewLogEntry(scope: string, level: string, message: string, removeColors: string -> string): (r: LogEntry)
    ensures r.scope == scope && r.level == level
    ensures r.message == removeColors(message)
  {
    LogEntry(scope, level, removeColors(message))
  }

  /** A record of the `logging` module: its scope, when it has one, its
      level name and its message. */
  datatype LogRecord = LogRecord(scope: Option<string>, levelName: string, msg: string)

  /** The deprecated or special-purpose logger methods that log at a
      standard level: `warn` logs a warning, `fatal` a critical record and
      `exception` an error. */
  const LevelAliases: map<string, LogLevel> := map["warn" := Warning, "fatal" := Critical, "exception" := Error]

  /** The level a method of the root logger of the given name logs at;
      `None` when the name is not one of its level methods. */
  function LoggerMethodLevel(name: string): (r: Option<LogLevel>)
    ensures forall l :: LevelName(l) == name ==> r == Some(l)
    ensures name in LevelAliases ==> r == Some(LevelAliases[name])
    ensures r.None? <==> name !in LevelAliases && forall l :: LevelName(l) != name
  {
    if name == "critical" then assert LevelName(Critical) == name; Some(Critical)
    else if name == "error" then assert LevelName(Error) == name; Some(Error)
    else if name == "warning" then assert LevelName(Warning) == name; Some(Warning)
    else if name == "info" then assert LevelName(Info) == name; Some(Info)
    else if name == "debug" then assert LevelName(Debug) == name; Some(Debug)
    else if name in LevelAliases then Some(LevelAliases[name])
    else
      assert forall l :: LevelName(l) != name;
      None
  }

  /** `log(entry)`: a record at the level of the logger method the entry's
      level names, its scope attached; `None` when the level names no
      level method of the logger. */
  function RecordOf(entry: LogEntry): (r: Option<LogRecord>)
    ensures r.Some? <==> (entry.level in LevelAliases || exists l :: LevelName(l) == entry.level)
    ensures forall l :: LevelName(l) == entry.level ==> r == Some(LogRecord(Some(entry.scope), RecordLevelName(l), entry.message))
    ensures entry.level in LevelAliases ==>
              r == Some(LogRecord(Some(entry.scope), RecordLevelName(LevelAliases[entry.level]), entry.message))
  {
    match LoggerMethodLevel(entry.level)
    case Some(l) => Some(LogRecord(Some(entry.scope), RecordLevelName(l), entry.message))
    case None => None
  }

  /** `_CallbackHandler.emit`: the entry a handled record becomes; a record
      without a scope gets the scope "unknown". */
  function EmitEntry(record: LogRecord, removeColors: string -> string): (r: LogEntry)
    ensures record.scope.None? ==> r.scope == "unknown"
    ensures record.scope.Some? ==> r.scope == record.scope.value
    ensures r.level == Lower(record.levelName)
  {
    NewLogEntry(if record.scope.Some? then record.scope.value else "unknown",
                Lower(record.levelName), record.msg, removeColors)
  }

  /** Logging an entry and handling the record gives back the entry, when
      its message has no colours to remove. */
  lemma EmitRecordOf(entry: LogEntry, l: LogLevel, removeColors: string -> string)
    requires entry.level == LevelName(l) && removeColors(entry.message) == entry.message
    ensures RecordOf(entry).Some? && EmitEntry(RecordOf(entry).value, removeColors) == entry
  {
    assert Lower(RecordLevelName(l)) == LevelName(l);
  }

  /** The level of a handled record of a standard level maps back to that
      level. */
  lemma EmitLevelMaps(record: LogRecord, l: LogLevel, removeColors: string -> string)
    requires record.levelName == RecordLevelName(l)
    ensures EmitEntry(record, removeColors).level == LevelName(l)
    ensures MapLogLevel(EmitEntry(record, removeColors).level) == Result.Ok(LevelValue(l))
  {
    MapLogLevelNames(l, l);
  }

  /** An entry logged under an alias comes back from the handler under the
      standard name of its level, so it does not round-trip. */
  lemma EmitAliasCanonical(entry: LogEntry, removeColors: string -> string)
    requires entry.level in LevelAliases
    ensures RecordOf(entry).Some?
    ensures EmitEntry(RecordOf(entry).value, removeColors).level == LevelName(LevelAliases[entry.level])
    ensures EmitEntry(RecordOf(entry).value, removeColors).level != entry.level
  {
    var l := LevelAliases[entry.level];
    assert Lower(RecordLevelName(l)) == LevelName(l);
    assert entry.level == "warn" || entry.level == "fatal" || entry.level == "exception";
  }

  // ---------------------------------------------------------------------------
  // The JSON log

  /** `_JSONLogging`: the entries in the order they were logged, and
      whether writing them out was enabled. */
  class JsonLogging {
    var enabled: bool
    var entries: seq<LogEntry>

    constructor()
      ensures !enabled && entries == []
    {
      enabled := false;
      entries := [];
    }

    /** `enable`. */
    method Enable()
      modifies this
      ensures enabled && entries == old(entries)
    {
      enabled := true;
    }

    /** `_log`: the entry goes after those already logged. */
    method Log(entry: LogEntry)
      modifies this
      ensures entries == old(entries) + [entry] && enabled == old(enabled)
    {
      entries := entries + [entry];
    }

    /** The handler `get_handler` returns, handling one record. */
    method Handle(record: LogRecord, removeColors: string -> string)
      modifies this
      ensures entries == old(entries) + [EmitEntry(record, removeColors)] && enabled == old(enabled)
    {
      Log(EmitEntry(record, removeColors));
    }

    /** `write`: nothing unless enabled; otherwise every logged entry, in
        order, is what goes to the log file. */
    method Write() returns (dump: Option<seq<LogEntry>>)
      ensures dump.Some? <==> enabled
      ensures dump.Some? ==> dump.value == entries
    {
      if !enabled {
        return None;
      }
      dump := Some(entries);
    }
  }
}
