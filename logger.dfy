/** The logger's level logic: the threshold filter, the level labels, level parsing
    and the line format. Emitted lines are collected in a sequence instead of being
    written to the console and the log file. */
module Logging {
  import opened Strings

  datatype LogLevel = DEBUG | INFO | WARNING | ERROR

  /** The enumerators' numeric values. */
  function Rank(l: LogLevel): (n: nat)
    ensures n <= 3
  {
    match l
    case DEBUG => 0
    case INFO => 1
    case WARNING => 2
    case ERROR => 3
  }

  /** A message at `level` is emitted unless it is below the threshold. */
  predicate Passes(level: LogLevel, threshold: LogLevel)
  {
    !(Rank(level) < Rank(threshold))
  }

  /** levelToString: the five-character label of a level. (Its "UNKNW" fallback
      cannot be reached with a declared enumerator.) */
  function Label(l: LogLevel): string
  {
    match l
    case DEBUG => "DEBUG"
    case INFO => "INFO "
    case WARNING => "WARN "
    case ERROR => "ERROR"
  }

  /** stringToLogLevel: exact, case-sensitive names; everything else is INFO. */
  function StringToLogLevel(s: string): LogLevel
  {
    if s == "DEBUG" then DEBUG
    else if s == "INFO" then INFO
    else if s == "WARNING" || s == "WARN" then WARNING
    else if s == "ERROR" then ERROR
    else INFO
  }

  /** One log line: "[" timestamp "] [" label "] " message. */
  function FormatLine(timestamp: string, level: LogLevel, message: string): string
  {
    "[" + timestamp + "] [" + Label(level) + "] " + message
  }

  /** The lines one call of log() emits. */
  function Emitted(threshold: LogLevel, level: LogLevel, timestamp: string, message: string): seq<string>
  {
    if Passes(level, threshold) then [FormatLine(timestamp, level, message)] else []
  }

  class Logger {
    var currentLevel: LogLevel
    var lines: seq<string>

    /** A new logger: threshold INFO, nothing emitted. */
    constructor ()
      ensures currentLevel == INFO && lines == []
    {
      currentLevel := INFO;
      lines := [];
    }

    method SetLogLevel(level: LogLevel)
      modifies this
      ensures currentLevel == level && lines == old(lines)
    {
      currentLevel := level;
    }

    /** log(level, message), with the clock reading passed in as `timestamp`. */
    method Log(level: LogLevel, message: string, timestamp: string)
      modifies this
      ensures currentLevel == old(currentLevel)
      ensures lines == old(lines) + Emitted(old(currentLevel), level, timestamp, message)
    {
      if Rank(level) < Rank(currentLevel) {
        return;
      }
      var line := "[" + timestamp + "] [" + Label(level) + "] " + message;
      lines := lines + [line];
    }
  }

  /** Every label is five characters long. */
  lemma LabelsHaveFiveChars(l: LogLevel)
    ensures |Label(l)| == 5
  {
  }

  /** Parsing a label with its padding removed gives the level back. */
  lemma LabelRoundTrip(l: LogLevel)
    ensures StringToLogLevel(TrimRight(Label(l), {' '})) == l
  {
    var t := TrimRight(Label(l), {' '});
    match l
    case DEBUG => assert t == "DEBUG";
    case INFO =>
      assert "INFO "[..4] == "INFO";
      assert TrimRight("INFO", {' '}) == "INFO";
    case WARNING =>
      assert "WARN "[..4] == "WARN";
      assert TrimRight("WARN", {' '}) == "WARN";
    case ERROR => assert t == "ERROR";
  }

  /** Only the five listed spellings select a level other than INFO. */
  lemma StringToLogLevelCases(s: string)
    ensures StringToLogLevel(s) == DEBUG <==> s == "DEBUG"
    ensures StringToLogLevel(s) == WARNING <==> s == "WARNING" || s == "WARN"
    ensures StringToLogLevel(s) == ERROR <==> s == "ERROR"
    ensures s !in {"DEBUG", "INFO", "WARNING", "WARN", "ERROR"} ==> StringToLogLevel(s) == INFO
  {
  }

  /** A line emitted at some level is emitted at every higher level as well, and
      everything passes the DEBUG threshold. */
  lemma FilterMonotone(level: LogLevel, higher: LogLevel, threshold: LogLevel)
    requires Passes(level, threshold) && Rank(level) <= Rank(higher)
    ensures Passes(higher, threshold) && Passes(level, DEBUG)
  {
  }

  /** The label and the message can be read back from a formatted line at fixed
      offsets after the timestamp. */
  lemma FormatLineFields(timestamp: string, level: LogLevel, message: string)
    ensures var line := FormatLine(timestamp, level, message);
      |line| == |timestamp| + 11 + |message|
      && line[1..1 + |timestamp|] == timestamp
      && line[|timestamp| + 4..|timestamp| + 9] == Label(level)
      && line[|timestamp| + 11..] == message
  {
    var line := FormatLine(timestamp, level, message);
    assert line == "[" + timestamp + "] [" + Label(level) + "] " + message;
    LabelsHaveFiveChars(level);
  }

  /** The level-filter scenario: with the threshold at WARNING, debug and info
      messages are dropped and warning and error messages are emitted in order. */
  method WarningThresholdScenario(ts: string) returns (emitted: seq<string>)
    ensures emitted == [FormatLine(ts, WARNING, "warning message"), FormatLine(ts, ERROR, "error message")]
  {
    var log := new Logger();
    log.SetLogLevel(WARNING);
    log.Log(DEBUG, "debug message", ts);
    log.Log(INFO, "info message", ts);
    log.Log(WARNING, "warning message", ts);
    log.Log(ERROR, "error message", ts);
    emitted := log.lines;
  }
}
