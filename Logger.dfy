/**
 * src/utils/logger.ts: a logger with a minimum level. A message is emitted when its level
 * ranks at least as high as the current one, through the console method its level picks.
 * Timestamps and the console itself are outside the model: an emission is the method
 * chosen, the level and the message.
 */
module Logger {
  import opened Wrappers

  datatype LogLevel = Trace | Debug | Info | Warn | Error | Silent

  /** `SimpleLogger.levels`. */
  function Rank(level: LogLevel): (r: nat)
    ensures r <= 5
  {
    match level
    case Trace => 0
    case Debug => 1
    case Info => 2
    case Warn => 3
    case Error => 4
    case Silent => 5
  }

  /** The ranks order the levels from `trace`, the most verbose, up to `silent`. */
  lemma {:induction false} RankOrdered()
    ensures Rank(Trace) < Rank(Debug) < Rank(Info) < Rank(Warn) < Rank(Error) < Rank(Silent)
  {
  }

  /** The ranks order the levels strictly, so a level can be read back from its rank. */
  lemma {:induction false} RankInjective(a: LogLevel, b: LogLevel)
    ensures Rank(a) == Rank(b) <==> a == b
  {
  }

  /** A logger at rank `current` emits a message of `level` exactly when the level ranks at
      least as high. */
  predicate Emits(current: nat, level: LogLevel) {
    Rank(level) >= current
  }

  datatype ConsoleMethod = ConsoleError | ConsoleWarn | ConsoleInfo | ConsoleLog

  /** The console method `log` picks for a level. */
  function MethodFor(level: LogLevel): ConsoleMethod {
    if level == Error then ConsoleError
    else if level == Warn then ConsoleWarn
    else if level == Info then ConsoleInfo
    else ConsoleLog
  }

  /** What reaches the console: the method, the level (shown in the prefix) and the message. */
  datatype Emission = Emission(via: ConsoleMethod, level: LogLevel, message: string)

  class SimpleLogger {
    var currentLevel: nat

    /** `new SimpleLogger()`: the level defaults to info. */
    constructor Default()
      ensures currentLevel == Rank(Info)
    {
      currentLevel := Rank(Info);
    }

    /** `new SimpleLogger(level)`. */
    constructor (level: LogLevel)
      ensures currentLevel == Rank(level)
    {
      currentLevel := Rank(level);
    }

    /** setLevel: only the current level changes. */
    method SetLevel(level: LogLevel)
      modifies this
      ensures currentLevel == Rank(level)
    {
      currentLevel := Rank(level);
    }

    /** The private `log`: nothing below the current level, else one emission through the
        level's console method. */
    method Log(level: LogLevel, message: string) returns (r: Option<Emission>)
      ensures r.Some? <==> Emits(currentLevel, level)
      ensures r.Some? ==> r.value == Emission(MethodFor(level), level, message)
    {
      if Rank(level) < currentLevel {
        return None;
      }
      var via := if level == Error then ConsoleError
                    else if level == Warn then ConsoleWarn
                    else if level == Info then ConsoleInfo
                    else ConsoleLog;
      r := Some(Emission(via, level, message));
    }

    method TraceMessage(message: string) returns (r: Option<Emission>)
      ensures r.Some? <==> currentLevel <= Rank(Trace)
      ensures r.Some? ==> r.value == Emission(ConsoleLog, Trace, message)
    {
      r := Log(Trace, message);
    }

    method DebugMessage(message: string) returns (r: Option<Emission>)
      ensures r.Some? <==> currentLevel <= Rank(Debug)
      ensures r.Some? ==> r.value == Emission(ConsoleLog, Debug, message)
    {
      r := Log(Debug, message);
    }

    method InfoMessage(message: string) returns (r: Option<Emission>)
      ensures r.Some? <==> currentLevel <= Rank(Info)
      ensures r.Some? ==> r.value == Emission(ConsoleInfo, Info, message)
    {
      r := Log(Info, message);
    }

    method WarnMessage(message: string) returns (r: Option<Emission>)
      ensures r.Some? <==> currentLevel <= Rank(Warn)
      ensures r.Some? ==> r.value == Emission(ConsoleWarn, Warn, message)
    {
      r := Log(Warn, message);
    }

    method ErrorMessage(message: string) returns (r: Option<Emission>)
      ensures r.Some? <==> currentLevel <= Rank(Error)
      ensures r.Some? ==> r.value == Emission(ConsoleError, Error, message)
    {
      r := Log(Error, message);
    }
  }

  /** A logger set to silent emits nothing through its public methods (which log at trace,
      debug, info, warn and error), and one set to trace emits everything. */
  lemma {:induction false} SilentEmitsNothing(level: LogLevel)
    requires level != Silent
    ensures !Emits(Rank(Silent), level)
    ensures Emits(Rank(Trace), level)
  {
  }

  /** The level the shared instance is created at. */
  const SharedLevel: LogLevel := Debug

  /** The shared instance getLogger returns: a logger at debug, which emits everything but
      trace. The source creates it once at module load and every importer shares it, so a
      `setLevel` through one importer is seen by all; here each call makes a new logger, and
      that sharing is not modelled. */
  method SharedLogger() returns (l: SimpleLogger)
    ensures fresh(l)
    ensures l.currentLevel == Rank(SharedLevel)
  {
    l := new SimpleLogger(SharedLevel);
  }
}
