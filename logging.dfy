/** The server's logger: five levels in a total order, a threshold that can
    be changed at any time, and one line on standard error for each call
    whose level clears the threshold. The lines written are kept in
    `output`; the ISO timestamp of each line is a parameter. */
module Logging {
  import opened Text

  datatype LogLevel = DEBUG | INFO | WARN | ERROR | NONE

  /** The numeric value of each level. */
  function Rank(l: LogLevel): (r: nat)
    ensures r <= 4
  {
    match l
    case DEBUG => 0
    case INFO => 1
    case WARN => 2
    case ERROR => 3
    case NONE => 4
  }

  /** The levels are totally ordered by their value, and no two share one. */
  lemma RankOrdersLevels(a: LogLevel, b: LogLevel)
    ensures Rank(a) == Rank(b) <==> a == b
    ensures Rank(DEBUG) < Rank(INFO) < Rank(WARN) < Rank(ERROR) < Rank(NONE)
  {
  }

  /** The five logging calls. */
  datatype Call = Debug | Info | Warn | Error | Success

  /** The level a call is compared against: a success message is filtered
      like an informational one. */
  function Threshold(c: Call): LogLevel
  {
    match c
    case Debug => DEBUG
    case Info => INFO
    case Warn => WARN
    case Error => ERROR
    case Success => INFO
  }

  /** The level name each call's prefix carries. */
  function Name(c: Call): string
  {
    match c
    case Debug => "DEBUG"
    case Info => "INFO"
    case Warn => "WARN"
    case Error => "ERROR"
    case Success => "SUCCESS"
  }

  /** The emoji that precedes the name, with its padding. */
  function Icon(c: Call): string
  {
    match c
    case Debug => "\U{1F50D} "
    case Info => "\U{2139}\U{FE0F}  "
    case Warn => "\U{26A0}\U{FE0F}  "
    case Error => "\U{274C} "
    case Success => "\U{2705} "
  }

  function Prefix(c: Call): string
  {
    Icon(c) + Name(c)
  }

  /** A call writes a line when the current level is at or below its threshold. */
  predicate Emits(current: LogLevel, c: Call)
  {
    Rank(current) <= Rank(Threshold(c))
  }

  /** At level NONE no call writes anything. */
  lemma NoneSilencesAll(c: Call)
    ensures !Emits(NONE, c)
  {
  }

  /** At level DEBUG every call writes. */
  lemma DebugEmitsAll(c: Call)
    ensures Emits(DEBUG, c)
  {
  }

  /** Lowering the level never silences a call that was written. */
  lemma EmitsMonotone(lower: LogLevel, higher: LogLevel, c: Call)
    requires Rank(lower) <= Rank(higher)
    ensures Emits(higher, c) ==> Emits(lower, c)
  {
  }

  /** A success call is filtered exactly like an informational one: both are
      written only at DEBUG and INFO. */
  lemma SuccessFiltersLikeInfo(current: LogLevel)
    ensures Emits(current, Success) <==> Emits(current, Info)
    ensures Emits(current, Info) <==> current == DEBUG || current == INFO
  {
  }

  /** One line of output: the timestamp in brackets, the prefix, a colon and the message. */
  function Format(timestamp: string, prefix: string, message: string): string
  {
    "[" + timestamp + "] " + prefix + ": " + message
  }

  /** Every line opens with the bracketed timestamp and carries the level
      name of the call that wrote it, followed by the message. */
  lemma FormatShowsLevel(timestamp: string, c: Call, message: string)
    ensures var line := Format(timestamp, Prefix(c), message);
      && line[..|timestamp| + 2] == "[" + timestamp + "]"
      && Contains(line, Name(c))
      && line[|line| - |message|..] == message
  {
    var line := Format(timestamp, Prefix(c), message);
    var at := |timestamp| + 3 + |Icon(c)|;
    assert line == ("[" + timestamp + "] " + Icon(c)) + Name(c) + (": " + message);
    assert line[at..at + |Name(c)|] == Name(c);
    assert OccursAt(line, Name(c), at);
  }

  class Logger {
    var currentLevel: LogLevel
    /** The lines written to standard error, oldest first. */
    var output: seq<string>

    constructor(level: LogLevel)
      ensures currentLevel == level && output == []
    {
      currentLevel := level;
      output := [];
    }

    /** A logger made without a level starts at INFO. */
    constructor Default()
      ensures currentLevel == INFO && output == []
    {
      currentLevel := INFO;
      output := [];
    }

    method SetLevel(level: LogLevel)
      modifies this
      ensures currentLevel == level && output == old(output)
    {
      currentLevel := level;
    }

    /** Writes one formatted line. */
    method Log(prefix: string, timestamp: string, message: string)
      modifies this
      ensures currentLevel == old(currentLevel)
      ensures output == old(output) + [Format(timestamp, prefix, message)]
    {
      output := output + [Format(timestamp, prefix, message)];
    }

    method DebugLog(timestamp: string, message: string)
      modifies this
      ensures currentLevel == old(currentLevel)
      ensures output == old(output) + if Emits(currentLevel, Debug) then [Format(timestamp, Prefix(Debug), message)] else []
    {
      if Rank(currentLevel) <= Rank(DEBUG) {
        Log(Prefix(Debug), timestamp, message);
      }
    }

    method InfoLog(timestamp: string, message: string)
      modifies this
      ensures currentLevel == old(currentLevel)
      ensures output == old(output) + if Emits(currentLevel, Info) then [Format(timestamp, Prefix(Info), message)] else []
    {
      if Rank(currentLevel) <= Rank(INFO) {
        Log(Prefix(Info), timestamp, message);
      }
    }

    method WarnLog(timestamp: string, message: string)
      modifies this
      ensures currentLevel == old(currentLevel)
      ensures output == old(output) + if Emits(currentLevel, Warn) then [Format(timestamp, Prefix(Warn), message)] else []
    {
      if Rank(currentLevel) <= Rank(WARN) {
        Log(Prefix(Warn), timestamp, message);
      }
    }

    method ErrorLog(timestamp: string, message: string)
      modifies this
      ensures currentLevel == old(currentLevel)
      ensures output == old(output) + if Emits(currentLevel, Error) then [Format(timestamp, Prefix(Error), message)] else []
    {
      if Rank(currentLevel) <= Rank(ERROR) {
        Log(Prefix(Error), timestamp, message);
      }
    }

    method SuccessLog(timestamp: string, message: string)
      modifies this
      ensures currentLevel == old(currentLevel)
      ensures output == old(output) + if Emits(currentLevel, Success) then [Format(timestamp, Prefix(Success), message)] else []
    {
      if Rank(currentLevel) <= Rank(INFO) {
        Log(Prefix(Success), timestamp, message);
      }
    }
  }

  /** A logger at NONE stays silent through one call of each kind. */
  method SilentAtNone(timestamp: string, message: string) returns (lines: seq<string>)
    ensures lines == []
  {
    var logger := new Logger(NONE);
    logger.DebugLog(timestamp, message);
    logger.InfoLog(timestamp, message);
    logger.WarnLog(timestamp, message);
    logger.ErrorLog(timestamp, message);
    logger.SuccessLog(timestamp, message);
    lines := logger.output;
  }

  /** A logger at DEBUG writes one line for each of the five calls, in call order. */
  method AllAtDebug(timestamp: string, message: string) returns (lines: seq<string>)
    ensures |lines| == 5
    ensures forall i :: 0 <= i < 5 ==> lines[i] == Format(timestamp, Prefix([Debug, Info, Warn, Error, Success][i]), message)
  {
    var logger := new Logger(DEBUG);
    logger.DebugLog(timestamp, message);
    logger.InfoLog(timestamp, message);
    logger.WarnLog(timestamp, message);
    logger.ErrorLog(timestamp, message);
    logger.SuccessLog(timestamp, message);
    lines := logger.output;
  }

  /** An info call filtered at NONE is written once the level is lowered to DEBUG. */
  method SetLevelTakesEffect(timestamp: string, message: string) returns (before: seq<string>, after: seq<string>)
    ensures before == []
    ensures after == [Format(timestamp, Prefix(Info), message)]
  {
    var logger := new Logger(NONE);
    logger.InfoLog(timestamp, message);
    before := logger.output;
    logger.SetLevel(DEBUG);
    logger.InfoLog(timestamp, message);
    after := logger.output;
  }
}
