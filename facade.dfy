/**
 * The current `LogUtility`: level gating on a per-call-site logger, call-site
 * resolution with `Logger` frames stepped over, message composition with the
 * encoding fix, and a failure boundary that reports any fault to a fixed
 * fallback logger instead of letting it escape.
 */
module Facade {
  import opened Wrappers
  import opened Text
  import opened Exceptions
  import opened Formatting
  import opened Runtime
  import opened LogProvider
  import opened CallSite
  import opened LoggerNames
  import opened Registry

  /**
   * What the host supplies: `Environment.MachineName`, `CurrentProcessID`, the
   * encoding fix `Encoding.Default.GetString(Encoding.UTF8.GetBytes(s))` (it
   * depends on the host's code page) and the provider's answers.
   */
  datatype Host = Host(
    machineName: string,
    processId: nat,
    encodingFix: string -> string,
    handleFor: string -> Handle,
    isEnabled: (Handle, Level) -> bool)

  /** What one call to `Log` leaves behind, and whether it invoked the message thunk. */
  datatype Step = Step(state: State, evaluated: bool)

  /** The logger a resolved call site logs to: `machine.assembly.pid.class.method`. */
  function CallerLoggerName(host: Host, w: Walked): string
    requires w.Resolved?
  {
    LoggerName(host.machineName, w.frame.assemblyName, host.processId, w.frame.className, w.frame.methodName)
  }

  /** The thread context after the five properties `Log` writes for a resolved call. */
  function CallContext(host: Host, context: map<string, string>, threadId: nat, frame: Frame): map<string, string>
  {
    context["MachineName" := host.machineName]
           ["PID" := NatToString(host.processId)]
           ["ThreadID" := NatToString(threadId)]
           ["Class" := frame.className]
           ["Method" := frame.methodName]
  }

  /**
   * The context writes of a resolved call: the five properties hold the
   * machine, process id, thread id, class and method, and every other property
   * keeps its value.
   */
  lemma CallContextWrites(host: Host, context: map<string, string>, threadId: nat, frame: Frame)
    ensures var r := CallContext(host, context, threadId, frame);
      && r.Keys == context.Keys + {"MachineName", "PID", "ThreadID", "Class", "Method"}
      && r["MachineName"] == host.machineName && r["PID"] == NatToString(host.processId)
      && r["ThreadID"] == NatToString(threadId)
      && r["Class"] == frame.className && r["Method"] == frame.methodName
      && forall k :: k in context && k !in {"MachineName", "PID", "ThreadID", "Class", "Method"} ==> r[k] == context[k]
  {
  }

  /**
   * The text `Log` forwards for message `m`: the extra text, followed by the
   * encoding fix applied to the extra text and the message (null reads as
   * empty). The extra text thus appears twice, once re-encoded.
   */
  function MessageText(host: Host, w: Walked, m: Option<string>): (r: string)
    requires w.Resolved?
    ensures ExtraText(w) <= r
    ensures w.extraFrames == 0 && w.probeError == "" ==> r == host.encodingFix(OrEmpty(m))
  {
    var extraText := ExtraText(w);
    assert extraText == "" ==>
      extraText + OrEmpty(m) == OrEmpty(m) && extraText + host.encodingFix(OrEmpty(m)) == host.encodingFix(OrEmpty(m));
    extraText + host.encodingFix(extraText + OrEmpty(m))
  }

  /** The catch block's effect: one Error record of the exception's text on `Logging.<pid>.Logger.Trace`. */
  function Report(host: Host, s: State, ex: Exception): (r: State)
    ensures r.loggers == s.loggers && r.context == s.context
    ensures r.lookups == s.lookups + [FallbackLoggerName(host.processId)]
    ensures r.emitted == s.emitted + [Record(host.handleFor(FallbackLoggerName(host.processId)), Error, Some(ex.text))]
  {
    var name := FallbackLoggerName(host.processId);
    s.(lookups := s.lookups + [name], emitted := s.emitted + [Record(host.handleFor(name), Error, Some(ex.text))])
  }

  /**
   * One call `Log(level, getMessage, stackFrameOffset)`, with `outcome` what the
   * thunk returns or throws: resolve the call site; look its logger up in the
   * cache; for Warn, Info and Debug stop there when that logger has the level
   * off; otherwise write the context, invoke the thunk and forward the composed
   * text at `level`. A fault of the first probe or of the thunk is reported to
   * the fallback logger instead.
   */
  function LogStep(host: Host, s: State, level: Level, outcome: Result<Option<string>, Exception>,
                   stackFrameOffset: int, env: CallEnv): (r: Step)
    ensures s.emitted <= r.state.emitted && |r.state.emitted| <= |s.emitted| + 1
    ensures s.loggers.Keys <= r.state.loggers.Keys
    ensures Walk(env.frames, stackFrameOffset).Failed? ==> !r.evaluated && r.state.loggers == s.loggers
    ensures !r.evaluated ==> r.state.context == s.context
  {
    var w := Walk(env.frames, stackFrameOffset);
    if w.Failed? then Step(Report(host, s, w.error), false)
    else
      var name := CallerLoggerName(host, w);
      var cached := Cached(host.handleFor, s, name);
      var log := cached.loggers[name];
      if IsGatedLevel(level) && !host.isEnabled(log, level) then Step(cached, false)
      else
        var withContext := cached.(context := CallContext(host, cached.context, env.threadId, w.frame));
        match outcome
        case Failure(e) => Step(Report(host, withContext, e), true)
        case Success(m) =>
          Step(withContext.(emitted := withContext.emitted + [Record(log, level, Some(MessageText(host, w, m)))]), true)
  }

  /**
   * The level gate: for Warn, Info or Debug on a logger with that level off,
   * `Log` returns before invoking the thunk and forwards nothing; the cache has
   * been filled for the call site all the same.
   */
  lemma GatedCallEmitsNothing(host: Host, s: State, level: Level, outcome: Result<Option<string>, Exception>,
                              stackFrameOffset: int, env: CallEnv)
    requires Coherent(host.handleFor, s.loggers)
    requires Walk(env.frames, stackFrameOffset).Resolved?
    requires IsGatedLevel(level)
    requires !host.isEnabled(host.handleFor(CallerLoggerName(host, Walk(env.frames, stackFrameOffset))), level)
    ensures var step := LogStep(host, s, level, outcome, stackFrameOffset, env);
      && !step.evaluated
      && step.state.emitted == s.emitted
      && step.state.context == s.context
      && CallerLoggerName(host, Walk(env.frames, stackFrameOffset)) in step.state.loggers
  {
  }

  /**
   * Fatal, Error and Trace are never gated: once the call site resolves, the
   * thunk is invoked and exactly one record is forwarded, whatever the
   * logger's flags.
   */
  lemma UngatedLevelsAlwaysEvaluate(host: Host, s: State, level: Level, outcome: Result<Option<string>, Exception>,
                                    stackFrameOffset: int, env: CallEnv)
    requires Walk(env.frames, stackFrameOffset).Resolved?
    requires level == Fatal || level == Error || level == Trace
    ensures var step := LogStep(host, s, level, outcome, stackFrameOffset, env);
      step.evaluated && |step.state.emitted| == |s.emitted| + 1
  {
  }

  /**
   * A call that passes the gate and whose thunk returns forwards exactly one
   * record, on the call site's logger, at the requested level, with the
   * composed text; the thunk's text alone when no `Logger` frame was stepped
   * over.
   */
  lemma PassedCallEmitsOneRecord(host: Host, s: State, level: Level, m: Option<string>,
                                 stackFrameOffset: int, env: CallEnv)
    requires Coherent(host.handleFor, s.loggers)
    requires Walk(env.frames, stackFrameOffset).Resolved?
    requires var w := Walk(env.frames, stackFrameOffset);
      !IsGatedLevel(level) || host.isEnabled(host.handleFor(CallerLoggerName(host, w)), level)
    ensures var w := Walk(env.frames, stackFrameOffset);
      var step := LogStep(host, s, level, Success(m), stackFrameOffset, env);
      && step.evaluated
      && step.state.emitted == s.emitted + [Record(host.handleFor(CallerLoggerName(host, w)), level, Some(MessageText(host, w, m)))]
      && step.state.context == CallContext(host, s.context, env.threadId, w.frame)
      && (w.extraFrames == 0 ==> step.state.emitted[|s.emitted|].message == Some(host.encodingFix(OrEmpty(m))))
  {
    WalkOutcome(env.frames, stackFrameOffset);
  }

  /**
   * The failure boundary: when the first probe fails, or the thunk throws, the
   * call forwards exactly one record, at Error, of the exception's text, on the
   * fallback logger obtained from the provider directly (the cache is not
   * consulted for it), and returns normally.
   */
  lemma FaultIsReported(host: Host, s: State, level: Level, outcome: Result<Option<string>, Exception>,
                        stackFrameOffset: int, env: CallEnv)
    requires Coherent(host.handleFor, s.loggers)
    ensures var w := Walk(env.frames, stackFrameOffset);
      var step := LogStep(host, s, level, outcome, stackFrameOffset, env);
      var fallback := FallbackLoggerName(host.processId);
      && (w.Failed? ==>
            && step.state.loggers == s.loggers
            && step.state.lookups == s.lookups + [fallback]
            && step.state.emitted == s.emitted + [Record(host.handleFor(fallback), Error, Some(w.error.text))])
      && (w.Resolved? && step.evaluated && outcome.Failure? ==>
            && step.state.loggers == Cached(host.handleFor, s, CallerLoggerName(host, w)).loggers
            && step.state.lookups == Cached(host.handleFor, s, CallerLoggerName(host, w)).lookups + [fallback]
            && step.state.emitted == s.emitted + [Record(host.handleFor(fallback), Error, Some(outcome.error.text))])
  {
  }

  /**
   * Across every call the cache stays coherent with the provider, entries are
   * never removed, and the record log only grows, by at most one record.
   */
  lemma LogStepInvariants(host: Host, s: State, level: Level, outcome: Result<Option<string>, Exception>,
                          stackFrameOffset: int, env: CallEnv)
    requires Coherent(host.handleFor, s.loggers)
    ensures var r := LogStep(host, s, level, outcome, stackFrameOffset, env).state;
      && Coherent(host.handleFor, r.loggers)
      && s.loggers.Keys <= r.loggers.Keys
      && s.emitted <= r.emitted
      && |r.emitted| <= |s.emitted| + 1
  {
  }

  /**
   * `Info(() => "Start")` called from a method of a class other than `Logger`
   * whose logger has Info on: one Info record holding the re-encoded "Start".
   */
  lemma StartScenario(host: Host, s: State, wrapper: Frame, caller: Frame, threadId: nat)
    requires Coherent(host.handleFor, s.loggers)
    requires caller.className != LOGGER_CLASS
    requires host.isEnabled(host.handleFor(LoggerName(host.machineName, caller.assemblyName, host.processId,
                                                      caller.className, caller.methodName)), Info)
    ensures var env := CallEnv([wrapper, wrapper, caller], threadId);
      var step := LogStep(host, s, Info, Success(Some("Start")), 0, env);
      step.state.emitted == s.emitted + [Record(host.handleFor(LoggerName(host.machineName, caller.assemblyName,
                                                host.processId, caller.className, caller.methodName)),
                                                Info, Some(host.encodingFix("Start")))]
  {
    var env := CallEnv([wrapper, wrapper, caller], threadId);
    assert Walk(env.frames, 0) == Resolved(caller, 0, "");
    PassedCallEmitsOneRecord(host, s, Info, Some("Start"), 0, env);
  }

  /** The static `LogUtility` class of the current revision. */
  class LogUtility {
    const machineName: string
    const currentProcessId: nat
    const encodingFix: string -> string
    const provider: Provider
    /** The `ConcurrentDictionary` of loggers by composite name. */
    var loggers: map<string, Handle>

    function HostOf(): Host
    {
      Host(machineName, currentProcessId, encodingFix, provider.handleFor, provider.isEnabled)
    }

    function Observe(): State
      reads this, provider
    {
      State(loggers, provider.lookups, provider.emitted, provider.context)
    }

    ghost predicate Valid()
      reads this
    {
      Coherent(provider.handleFor, loggers)
    }

    /** The field initialiser `loggers = new ConcurrentDictionary<string, ILog>()`. */
    constructor (machineName: string, currentProcessId: nat, encodingFix: string -> string, provider: Provider)
      ensures this.machineName == machineName && this.currentProcessId == currentProcessId
      ensures this.encodingFix == encodingFix && this.provider == provider
      ensures loggers == map[] && Valid()
    {
      this.machineName := machineName;
      this.currentProcessId := currentProcessId;
      this.encodingFix := encodingFix;
      this.provider := provider;
      loggers := map[];
    }

    /** `GetLogger(loggerName)`: the cached handle, or the provider's, added to the cache. */
    method GetLogger(loggerName: string) returns (log: Handle)
      requires Valid()
      modifies this`loggers, provider`lookups
      ensures Valid()
      ensures Observe() == Cached(provider.handleFor, old(Observe()), loggerName)
      ensures log == loggers[loggerName] == provider.handleFor(loggerName)
    {
      if loggerName in loggers {
        log := loggers[loggerName];
      } else {
        log := provider.GetLogger(loggerName);
        loggers := loggers[loggerName := log];
      }
    }

    /** `LogInternal(log, level, message)`: forward at the level asked for; Trace goes through `Logger.Log`. */
    method LogInternal(log: Handle, level: Level, message: string)
      modifies provider`emitted
      ensures provider.emitted == old(provider.emitted) + [Record(log, level, Some(message))]
    {
      match level
      case Fatal => provider.Emit(log, Fatal, Some(message));
      case Error => provider.Emit(log, Error, Some(message));
      case Warn => provider.Emit(log, Warn, Some(message));
      case Info => provider.Emit(log, Info, Some(message));
      case Debug => provider.Emit(log, Debug, Some(message));
      case Trace => provider.Emit(log, Trace, Some(message));
    }

    /** The `catch` block of `Log`. */
    method ReportFault(ex: Exception)
      modifies provider`lookups, provider`emitted
      ensures provider.lookups == old(provider.lookups) + [FallbackLoggerName(currentProcessId)]
      ensures provider.emitted == old(provider.emitted)
                                  + [Record(provider.handleFor(FallbackLoggerName(currentProcessId)), Error, Some(ex.text))]
    {
      var loggerName := FallbackLoggerName(currentProcessId);
      var log := provider.GetLogger(loggerName);
      LogInternal(log, Error, ex.text);
    }

    /** `Log(level, getMessage, stackFrameOffset)`. */
    method Log(level: Level, getMessage: MessageThunk, stackFrameOffset: int, env: CallEnv)
      requires Valid()
      modifies this, provider, getMessage
      ensures Valid()
      ensures var step := LogStep(HostOf(), old(Observe()), level, getMessage.outcome, stackFrameOffset, env);
        && Observe() == step.state
        && getMessage.calls == old(getMessage.calls) + (if step.evaluated then 1 else 0)
    {
      var w := ResolveCallSite(env.frames, stackFrameOffset);
      if w.Failed? {
        ReportFault(w.error);
        return;
      }
      var extraText := ExtraText(w);
      var loggerName := CallerLoggerName(HostOf(), w);
      var log := GetLogger(loggerName);

      match level {
        case Warn => if !provider.isEnabled(log, Warn) { return; }
        case Info => if !provider.isEnabled(log, Info) { return; }
        case Debug => if !provider.isEnabled(log, Debug) { return; }
        case _ =>
      }

      provider.SetProperty("MachineName", machineName);
      provider.SetProperty("PID", NatToString(currentProcessId));
      provider.SetProperty("ThreadID", NatToString(env.threadId));
      provider.SetProperty("Class", w.frame.className);
      provider.SetProperty("Method", w.frame.methodName);

      var outcome := getMessage.Invoke();
      if outcome.Failure? {
        ReportFault(outcome.error);
        return;
      }
      var message := extraText + OrEmpty(outcome.value);
      message := encodingFix(message);
      message := extraText + message;
      LogInternal(log, level, message);
    }

    /**
     * The templated wrappers `Fatal/Error/Warn/Info/Debug/Trace([stackFrameOffset,] message, args)`:
     * `Log` with the thunk `() => string_Format(message, args)`.
     */
    method LogTemplate(level: Level, stackFrameOffset: int, message: Option<string>, args: Option<seq<string>>, env: CallEnv)
      requires Valid()
      modifies this, provider
      ensures Valid()
      ensures Observe() == LogStep(HostOf(), old(Observe()), level, StringFormat(message, args), stackFrameOffset, env).state
    {
      var getMessage := new MessageThunk(StringFormat(message, args));
      Log(level, getMessage, stackFrameOffset, env);
    }

    /**
     * `PublishException(ex, extraMessage)`: log, at Error, the extra message
     * followed by the base exception's full message, and return the base
     * exception.
     */
    method PublishException(ex: Exception, extraMessage: Option<string>, env: CallEnv) returns (b: Exception)
      requires Valid()
      modifies this, provider
      ensures Valid()
      ensures b == BaseException(ex) && b.inner.None?
      ensures Observe() == LogStep(HostOf(), old(Observe()), Error, Success(Some(PublishText(ex, extraMessage))), 0, env).state
    {
      b := BaseException(ex);
      var getMessage := new MessageThunk(Success(Some(OrEmpty(extraMessage) + GetFullMessage(b, None, 0))));
      Log(Error, getMessage, 0, env);
    }
  }

  /**
   * What `PublishException` logs once the call site resolves: one Error record
   * whose message is the extra message and the innermost exception's text.
   */
  lemma PublishedRecord(host: Host, s: State, ex: Exception, extraMessage: Option<string>, env: CallEnv)
    requires Coherent(host.handleFor, s.loggers)
    requires Walk(env.frames, 0).Resolved?
    ensures var w := Walk(env.frames, 0);
      var step := LogStep(host, s, Error, Success(Some(PublishText(ex, extraMessage))), 0, env);
      step.state.emitted == s.emitted + [Record(host.handleFor(CallerLoggerName(host, w)), Error,
                                                Some(MessageText(host, w, Some(OrEmpty(extraMessage) + BaseException(ex).text))))]
  {
    PassedCallEmitsOneRecord(host, s, Error, Some(PublishText(ex, extraMessage)), 0, env);
  }
}
