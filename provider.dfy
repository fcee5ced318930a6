/**
 * The log4net surface the facade calls, reduced to what it observably does:
 * hand out a logger per name, answer per-logger level queries, keep the
 * thread's context properties and receive log records.
 */
module LogProvider {
  import opened Wrappers

  /** log4net's levels, from most to least severe. */
  datatype Level = Fatal | Error | Warn | Info | Debug | Trace

  /**
   * The levels the facade's gate checks against the logger's own flag before
   * building the message: Warn, Info and Debug; Fatal, Error and Trace never.
   */
  predicate IsGatedLevel(level: Level)
  {
    level == Warn || level == Info || level == Debug
  }

  /** An `ILog`, known only by its identity. */
  datatype Handle = Handle(id: nat)

  /** One forwarded message: the logger, the level and the message object (`None` for null). */
  datatype Record = Record(logger: Handle, level: Level, message: Option<string>)

  class Provider {
    /** The `ILog` that `LogManager.GetLogger(name)` returns: always the same one for a name. */
    const handleFor: string -> Handle
    /** `log.IsWarnEnabled`, `log.IsInfoEnabled`, `log.IsDebugEnabled`, ... as configured. */
    const isEnabled: (Handle, Level) -> bool
    /** Every name passed to `LogManager.GetLogger`, in order. */
    var lookups: seq<string>
    /** Every record forwarded, in order. */
    var emitted: seq<Record>
    /** `ThreadContext.Properties`. */
    var context: map<string, string>

    constructor (handleFor: string -> Handle, isEnabled: (Handle, Level) -> bool)
      ensures this.handleFor == handleFor && this.isEnabled == isEnabled
      ensures lookups == [] && emitted == [] && context == map[]
    {
      this.handleFor := handleFor;
      this.isEnabled := isEnabled;
      lookups, emitted, context := [], [], map[];
    }

    /** `LogManager.GetLogger(name)`. */
    method GetLogger(name: string) returns (log: Handle)
      modifies this`lookups
      ensures log == handleFor(name)
      ensures lookups == old(lookups) + [name]
    {
      log := handleFor(name);
      lookups := lookups + [name];
    }

    /** `ThreadContext.Properties[key] = value`. */
    method SetProperty(key: string, value: string)
      modifies this`context
      ensures context == old(context)[key := value]
    {
      context := context[key := value];
    }

    /** `log.Fatal(message)`, `log.Error(message)`, ..., `log.Logger.Log(null, Level.Trace, message, null)`. */
    method Emit(log: Handle, level: Level, message: Option<string>)
      modifies this`emitted
      ensures emitted == old(emitted) + [Record(log, level, message)]
    {
      emitted := emitted + [Record(log, level, message)];
    }
  }
}
