/**
 * The older `LogUtility` of the console example: a four-field logger name with
 * no machine name, no `Logger` frame walk, no re-encoding, no Trace level, no
 * brace escaping in its templated wrappers, and no failure boundary: a fault
 * of the stack probe or of the message escapes to the caller.
 */
module ConsoleAppFacade {
  import opened Wrappers
  import opened Text
  import opened Exceptions
  import opened Formatting
  import opened Runtime
  import opened LogProvider
  import opened LoggerNames
  import opened Registry

  /** Frames between `Trace` and the application method that called a wrapper. */
  const SKIP_FRAMES: int := 2

  /** The older `LevelEnum`: log4net's levels without Trace. */
  type ConsoleAppLevel = l: Level | l != Trace witness Fatal

  /** What the host supplies: `CurrentProcessID` and the provider's answers. */
  datatype Host = Host(processId: nat, handleFor: string -> Handle, isEnabled: (Handle, Level) -> bool)

  /** What one call to `Trace` leaves behind, whether it invoked the thunk, and what it threw. */
  datatype Traced = Traced(state: State, evaluated: bool, thrown: Option<Exception>)

  /** The logger a call site logs to: `assembly.pid.class.method`. */
  function CallerLoggerName(host: Host, frame: Frame): string
  {
    ConsoleAppLoggerName(frame.assemblyName, host.processId, frame.className, frame.methodName)
  }

  /** The thread context after the three properties `Trace` writes. */
  function CallContext(host: Host, context: map<string, string>, frame: Frame): (r: map<string, string>)
    ensures r.Keys == context.Keys + {"PID", "Class", "Method"}
    ensures r["PID"] == NatToString(host.processId) && r["Class"] == frame.className && r["Method"] == frame.methodName
    ensures forall k :: k in context && k !in {"PID", "Class", "Method"} ==> r[k] == context[k]
  {
    context["PID" := NatToString(host.processId)]["Class" := frame.className]["Method" := frame.methodName]
  }

  /**
   * One call `Trace(level, getMessage)`, with `outcome` what the thunk returns
   * or throws: probe frame `SKIP_FRAMES`; look its logger up in the cache; for
   * Warn, Info and Debug stop there when that logger has the level off;
   * otherwise write the context, invoke the thunk and forward its text as it is.
   */
  function TraceStep(host: Host, s: State, level: ConsoleAppLevel, outcome: Result<Option<string>, Exception>,
                     env: CallEnv): (r: Traced)
    ensures s.emitted <= r.state.emitted && |r.state.emitted| <= |s.emitted| + 1
    ensures r.thrown.Some? ==> r.state.emitted == s.emitted
    ensures (r.thrown.Some? && !r.evaluated) <==> !(0 <= SKIP_FRAMES < |env.frames|)
    ensures !r.evaluated ==> r.state.context == s.context
  {
    match Probe(env.frames, SKIP_FRAMES)
    case Failure(e) => Traced(s, false, Some(e))
    case Success(frame) =>
      var name := CallerLoggerName(host, frame);
      var cached := Cached(host.handleFor, s, name);
      var log := cached.loggers[name];
      if IsGatedLevel(level) && !host.isEnabled(log, level) then Traced(cached, false, None)
      else
        var withContext := cached.(context := CallContext(host, cached.context, frame));
        match outcome
        case Failure(e) => Traced(withContext, true, Some(e))
        case Success(m) => Traced(withContext.(emitted := withContext.emitted + [Record(log, level, m)]), true, None)
  }

  /** The thunk of a templated wrapper: `() => string.Format(message, args)`. */
  function FormatOutcome(message: Option<string>, args: Option<seq<string>>): (r: Result<Option<string>, Exception>)
    ensures r.Success? ==> r.value.Some?
    ensures r.Failure? <==> DotNetFormat(message, args).Failure?
  {
    match DotNetFormat(message, args)
    case Success(s) => Success(Some(s))
    case Failure(e) => Failure(e)
  }

  /**
   * The level gate: for Warn, Info or Debug on a logger with that level off,
   * `Trace` returns before the context is written and before the thunk is
   * invoked, and forwards nothing.
   */
  lemma GatedCallEmitsNothing(host: Host, s: State, level: ConsoleAppLevel, outcome: Result<Option<string>, Exception>,
                              env: CallEnv)
    requires Coherent(host.handleFor, s.loggers)
    requires 0 <= SKIP_FRAMES < |env.frames|
    requires IsGatedLevel(level)
    requires !host.isEnabled(host.handleFor(CallerLoggerName(host, env.frames[SKIP_FRAMES])), level)
    ensures var t := TraceStep(host, s, level, outcome, env);
      && !t.evaluated && t.thrown.None?
      && t.state.emitted == s.emitted
      && t.state.context == s.context
      && CallerLoggerName(host, env.frames[SKIP_FRAMES]) in t.state.loggers
  {
  }

  /**
   * A call that passes the gate and whose thunk returns forwards exactly one
   * record, at the requested level, holding the thunk's text unchanged; Fatal
   * and Error always pass.
   */
  lemma PassedCallForwardsText(host: Host, s: State, level: ConsoleAppLevel, m: Option<string>, env: CallEnv)
    requires Coherent(host.handleFor, s.loggers)
    requires 0 <= SKIP_FRAMES < |env.frames|
    requires var frame := env.frames[SKIP_FRAMES];
      !IsGatedLevel(level) || host.isEnabled(host.handleFor(CallerLoggerName(host, frame)), level)
    ensures var frame := env.frames[SKIP_FRAMES];
      var t := TraceStep(host, s, level, Success(m), env);
      && t.evaluated && t.thrown.None?
      && t.state.emitted == s.emitted + [Record(host.handleFor(CallerLoggerName(host, frame)), level, m)]
      && t.state.context == CallContext(host, s.context, frame)
  {
  }

  /**
   * No failure boundary: a failed probe escapes with nothing changed, and a
   * thunk that throws escapes after the cache and the context were written,
   * with nothing forwarded.
   */
  lemma FaultsEscape(host: Host, s: State, level: ConsoleAppLevel, outcome: Result<Option<string>, Exception>,
                     env: CallEnv)
    ensures var t := TraceStep(host, s, level, outcome, env);
      && (!(0 <= SKIP_FRAMES < |env.frames|) ==> t.thrown == Some(NoFrame) && t.state == s && !t.evaluated)
      && (t.evaluated && outcome.Failure? ==> t.thrown == Some(outcome.error) && t.state.emitted == s.emitted)
      && (t.thrown.None? ==> |t.state.emitted| <= |s.emitted| + 1 && s.emitted <= t.state.emitted)
  {
  }

  /**
   * The templated wrappers do not escape braces: an Error-level message with a
   * closing brace that is not doubled, and no arguments, throws a format error
   * to the caller instead of being logged.
   */
  lemma UnescapedTemplateThrows(host: Host, s: State, prefix: string, suffix: string, env: CallEnv)
    requires '{' !in prefix && '}' !in prefix
    requires suffix == [] || suffix[0] != '}'
    requires 0 <= SKIP_FRAMES < |env.frames|
    ensures var t := TraceStep(host, s, Error, FormatOutcome(Some(prefix + "}" + suffix), Some([])), env);
      t.thrown == Some(FormatError) && t.state.emitted == s.emitted
  {
    UnescapedBraceFails(prefix, suffix, []);
  }

  /**
   * A template without braces formats to itself, whatever the arguments, and
   * a call that passes the gate forwards it unchanged.
   */
  lemma BracelessTemplateForwardsText(host: Host, s: State, level: ConsoleAppLevel, message: string,
                                      args: seq<string>, env: CallEnv)
    requires Coherent(host.handleFor, s.loggers)
    requires '{' !in message && '}' !in message
    requires 0 <= SKIP_FRAMES < |env.frames|
    requires var frame := env.frames[SKIP_FRAMES];
      !IsGatedLevel(level) || host.isEnabled(host.handleFor(CallerLoggerName(host, frame)), level)
    ensures var frame := env.frames[SKIP_FRAMES];
      var t := TraceStep(host, s, level, FormatOutcome(Some(message), Some(args)), env);
      && t.thrown.None?
      && t.state.emitted == s.emitted + [Record(host.handleFor(CallerLoggerName(host, frame)), level, Some(message))]
  {
    assert FormatOutcome(Some(message), Some(args)) == Success(Some(message));
    PassedCallForwardsText(host, s, level, Some(message), env);
  }

  /**
   * The demo program's first call, `Info(() => "Start")` from `Program.Main`,
   * with Info on for `<assembly>.<pid>.Program.Main`: one Info record of
   * "Start", as given, on that logger.
   */
  lemma StartScenario(host: Host, s: State, wrapper: Frame, assemblyName: string, threadId: nat)
    requires Coherent(host.handleFor, s.loggers)
    requires host.isEnabled(host.handleFor(ConsoleAppLoggerName(assemblyName, host.processId, "Program", "Main")), Info)
    ensures var env := CallEnv([wrapper, wrapper, Frame("Program", "Main", assemblyName)], threadId);
      var t := TraceStep(host, s, Info, Success(Some("Start")), env);
      && t.thrown.None?
      && t.state.emitted == s.emitted + [Record(host.handleFor(ConsoleAppLoggerName(assemblyName, host.processId,
                                                 "Program", "Main")), Info, Some("Start"))]
      && t.state.context["Class"] == "Program" && t.state.context["Method"] == "Main"
  {
    var env := CallEnv([wrapper, wrapper, Frame("Program", "Main", assemblyName)], threadId);
    PassedCallForwardsText(host, s, Info, Some("Start"), env);
  }

  /**
   * The older `PublishException` reaches `Trace` through the public `Error`, so
   * frame `SKIP_FRAMES` above `Trace` is `PublishException` itself: the record
   * goes to `<assembly>.<pid>.LogUtility.PublishException`, not to the logger of
   * the method that caught the exception.
   */
  lemma PublishExceptionLogsOnItsOwnLogger(host: Host, s: State, assemblyName: string, caller: Frame,
                                           ex: Exception, extraMessage: Option<string>, threadId: nat)
    requires Coherent(host.handleFor, s.loggers)
    ensures var env := CallEnv([Frame("LogUtility", "Trace", assemblyName), Frame("LogUtility", "Error", assemblyName),
                                Frame("LogUtility", "PublishException", assemblyName), caller], threadId);
      var t := TraceStep(host, s, Error, Success(Some(ConsoleAppPublishText(ex, extraMessage))), env);
      && t.thrown.None?
      && t.state.emitted == s.emitted + [Record(host.handleFor(ConsoleAppLoggerName(assemblyName, host.processId,
                                                 "LogUtility", "PublishException")),
                                                Error, Some(OrEmpty(extraMessage) + BaseException(ex).text))]
  {
    var env := CallEnv([Frame("LogUtility", "Trace", assemblyName), Frame("LogUtility", "Error", assemblyName),
                        Frame("LogUtility", "PublishException", assemblyName), caller], threadId);
    PassedCallForwardsText(host, s, Error, Some(ConsoleAppPublishText(ex, extraMessage)), env);
  }

  /** The static `LogUtility` class of the older revision. */
  class LogUtility {
    const currentProcessId: nat
    const provider: Provider
    /** The `Dictionary` of loggers by composite name. */
    var loggers: map<string, Handle>

    function HostOf(): Host
    {
      Host(currentProcessId, provider.handleFor, provider.isEnabled)
    }

    function Observe(): State
      reads this, provider
    {
      State(loggers, provider.lookups, provider.emitted, provider.context)
    }

    ghost predicate Valid()
      reads this
    {
      Coherent(provider.handleFor, loggers)
    }

    /** The field initialiser `loggers = new Dictionary<string, ILog>()`. */
    constructor (currentProcessId: nat, provider: Provider)
      ensures this.currentProcessId == currentProcessId && this.provider == provider
      ensures loggers == map[] && Valid()
    {
      this.currentProcessId := currentProcessId;
      this.provider := provider;
      loggers := map[];
    }

    /** `GetLogger(loggerName)`: the cached handle, or the provider's, `Add`ed to the cache. */
    method GetLogger(loggerName: string) returns (log: Handle)
      requires Valid()
      modifies this`loggers, provider`lookups
      ensures Valid()
      ensures Observe() == Cached(provider.handleFor, old(Observe()), loggerName)
      ensures log == loggers[loggerName] == provider.handleFor(loggerName)
    {
      if loggerName in loggers {
        log := loggers[loggerName];
      } else {
        log := provider.GetLogger(loggerName);
        loggers := loggers[loggerName := log];
      }
    }

    /** `Trace(level, getMessage)`; `thrown` is the exception that escapes it, if any. */
    method Trace(level: ConsoleAppLevel, getMessage: MessageThunk, env: CallEnv) returns (thrown: Option<Exception>)
      requires Valid()
      modifies this, provider, getMessage
      ensures Valid()
      ensures var t := TraceStep(HostOf(), old(Observe()), level, getMessage.outcome, env);
        && Observe() == t.state
        && thrown == t.thrown
        && getMessage.calls == old(getMessage.calls) + (if t.evaluated then 1 else 0)
    {
      var probe := Probe(env.frames, SKIP_FRAMES);
      if probe.Failure? {
        return Some(probe.error);
      }
      var frame := probe.value;
      var loggerName := CallerLoggerName(HostOf(), frame);
      var log := GetLogger(loggerName);

      match level {
        case Warn => if !provider.isEnabled(log, Warn) { return None; }
        case Info => if !provider.isEnabled(log, Info) { return None; }
        case Debug => if !provider.isEnabled(log, Debug) { return None; }
        case _ =>
      }

      provider.SetProperty("PID", NatToString(currentProcessId));
      provider.SetProperty("Class", frame.className);
      provider.SetProperty("Method", frame.methodName);

      var outcome := getMessage.Invoke();
      if outcome.Failure? {
        return Some(outcome.error);
      }
      var message := outcome.value;
      match level {
        case Fatal => provider.Emit(log, Fatal, message);
        case Error => provider.Emit(log, Error, message);
        case Warn => provider.Emit(log, Warn, message);
        case Info => provider.Emit(log, Info, message);
        case Debug => provider.Emit(log, Debug, message);
      }
      thrown := None;
    }

    /** The templated wrappers `Fatal/Error/Warn/Info/Debug(message, args)`: `Trace` with `() => string.Format(message, args)`. */
    method LogTemplate(level: ConsoleAppLevel, message: Option<string>, args: Option<seq<string>>, env: CallEnv)
      returns (thrown: Option<Exception>)
      requires Valid()
      modifies this, provider
      ensures Valid()
      ensures var t := TraceStep(HostOf(), old(Observe()), level, FormatOutcome(message, args), env);
        Observe() == t.state && thrown == t.thrown
    {
      var getMessage := new MessageThunk(FormatOutcome(message, args));
      thrown := Trace(level, getMessage, env);
    }

    /**
     * `PublishException(ex, extraMessage)`: log, at Error, the extra message and
     * the base exception's text and return the base exception; a fault of
     * `Trace` escapes instead. In the program `Trace` is reached through
     * `Error`, so the frames of `env` have `PublishException` at `SKIP_FRAMES`
     * (see `PublishExceptionLogsOnItsOwnLogger`).
     */
    method PublishException(ex: Exception, extraMessage: Option<string>, env: CallEnv) returns (r: Result<Exception, Exception>)
      requires Valid()
      modifies this, provider
      ensures Valid()
      ensures var t := TraceStep(HostOf(), old(Observe()), Error, Success(Some(ConsoleAppPublishText(ex, extraMessage))), env);
        && Observe() == t.state
        && r == (if t.thrown.Some? then Failure(t.thrown.value) else Success(BaseException(ex)))
    {
      var b := BaseException(ex);
      var getMessage := new MessageThunk(Success(Some(OrEmpty(extraMessage) + b.text + InnerText(b))));
      var thrown := Trace(Error, getMessage, env);
      if thrown.Some? {
        return Failure(thrown.value);
      }
      r := Success(b);
    }
  }
}
