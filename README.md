# log4net.SingletonLogger `LogUtility`, modelled in Dafny

`LogUtility` is a static logging façade over log4net. An application calls
`LogUtility.Info(() => "...")`, `LogUtility.Error("template {0}", arg)` or
`LogUtility.PublishException(ex, note)`, and the façade does the rest:

- It finds the application method that made the call by walking the stack.
- It looks up a logger named after that call site, through a cache.
- It skips the message when the logger has the level (Warn, Info, Debug) off.
- It writes the call site into log4net's thread context.
- It builds the message and forwards it at the requested level.

The repository holds two revisions of the façade:

- **Current** (`LogUtility.cs`):
  - a five-field logger name that includes the machine name;
  - a walk that steps over wrapper frames of classes named `Logger`;
  - an `[Extra Frames: n]` prefix;
  - an encoding fix;
  - brace escaping for templates without arguments;
  - a failure boundary: any fault is reported to the logger `Logging.<pid>.Logger.Trace` instead of escaping to the caller.
- **Older** (`ConsoleAppLoggingExample/LogUtility.cs`):
  - a four-field name;
  - no frame walk, no re-encoding, no Trace level and no escaping;
  - no failure boundary: a fault escapes to the caller.

Modules:

- `Wrappers`: `Option` and `Result`.
- `Text`: `Replace`, decimal text of a process id, and `Join`/`Split` on a separator.
- `Exceptions`: exceptions as a recursive datatype (`Message`, `ToString()` text, `InnerException`). Also `GetBaseException`, `GetFullMessage`, and the text each revision's `PublishException` logs.
- `Formatting`: the `{{`, `}}`, `{n}` subset of `string.Format`, and the current revision's `string_Format`.
- `Runtime`: stack frames, the stack probe `new StackTrace(n).GetFrame(0).GetMethod()`, and the message thunk `Func<string>` as a class that counts its invocations.
- `LogProvider`: log4net as a class. It has a handle per name, per-handle enabled flags, the names it was asked for, the records it received and the thread context.
- `CallSite`: the current revision's frame walk. This is a function, plus the `while` loop as a method proved equal to it.
- `LoggerNames`: the composite logger names of both revisions.
- `Registry`: the logger cache, and the observable `State` of one logging call.
- `Facade`: the current `LogUtility` as a class. `LogStep` is the function its `Log` method is proved against.
- `ConsoleAppFacade`: the older `LogUtility` as a class. `TraceStep` is the function its `Trace` method is proved against.

Each `LogUtility` class holds the cache as a `map` field and reaches the
provider through a `Provider` object. Its methods follow the source statement
by statement. Each method's `ensures` ties the new observable state to the
step function on the old state. The lemmas about the step functions state
what the façade promises.

Behaviour of the code worth noting:

- **Null argument array.** A templated wrapper can be called with a null argument array. The current `string_Format` escapes the braces (LogUtility.cs:179-181), then passes the null array to `string.Format`, which throws `ArgumentNullException`. A non-empty message therefore ends in the fallback Error record.
- **Published exception text.** `PublishException` first replaces the exception by `Exception.GetBaseException()`, the innermost exception of the chain. That exception has no inner exception, so only its own text follows the note, in both revisions. This holds for `Exception`'s own `GetBaseException`; overrides are not modelled (see "Left out").
- **Level flags.** `Log` and `Trace` never read the `IsDebugEnabled`, `IsInfoEnabled` or `IsWarnEnabled` properties. The gate asks only the call site's own logger.
- **No failure boundary in the older revision.** A fault in the older `Trace` escapes to its caller, and so does one in the older `PublishException`.
- **Older `PublishException` logs on its own logger.** The older `PublishException` reaches `Trace` through `Error`. The frame two levels up is then `PublishException` itself, so the record goes to `<assembly>.<pid>.LogUtility.PublishException`.

## Model

| member | source | states |
|---|---|---|
| Text.Replace | LogUtility.cs:181 | replacing a character that does not occur leaves the string as it is |
| Text.ReplaceConcat | LogUtility.cs:181 | replacing a character works piecewise: the replacement of a concatenation is the concatenation of the replacements |
| Text.NatToString | LogUtility.cs:137 | the decimal text of the process id is a non-empty run of digits |
| Text.DigitsValueOfNatToString | LogUtility.cs:137 | reading the decimal text back gives the number |
| Text.NatToStringInjective | LogUtility.cs:126 | distinct process ids have distinct texts |
| Text.SplitJoin | LogUtility.cs:126 | fields without the separator, joined and split again, give the fields back |
| Text.JoinCount | LogUtility.cs:126 | joining puts one separator between neighbouring fields: at least one fewer separators than fields, and exactly that many when no field holds one |
| Text.JoinFirstFieldUnique | LogUtility.cs:126 | two joins whose first fields hold no separator agree on the first field and on the join of the rest |
| Exceptions.BaseException | LogUtility.cs:249 | `Exception.GetBaseException` returns a member of the inner-exception chain that has no inner exception |
| Exceptions.BaseExceptionIsLastOfChain | LogUtility.cs:249 | the base exception is the innermost element of the chain, at any depth |
| Exceptions.BaseExceptionIdempotent | LogUtility.cs:249 | unwrapping the base exception again changes nothing |
| Exceptions.GetFullMessage | LogUtility.cs:36-47 | the result is a prefix of `[extra + " "] + [inner text + CR LF] + own text`; with a positive cap its length is the smaller of the full length and the cap; otherwise it is the whole text |
| Exceptions.GetFullMessageCapMonotone | LogUtility.cs:43-44 | a larger cap gives an extension of the text, and a cap at least the full length gives the full text |
| Exceptions.PublishText | LogUtility.cs:250 | the current revision publishes `(extraMessage ?? "")` followed by the base exception's own text, with no separator |
| Exceptions.ConsoleAppPublishText | ConsoleAppLoggingExample/LogUtility.cs:111 | the older revision's text is the same: its inner-exception part is always empty |
| Exceptions.PublishTextsAgree | ConsoleAppLoggingExample/LogUtility.cs:111 | both revisions publish the same text for every exception and note |
| Exceptions.NestedExceptionScenario | ConsoleAppLoggingExample/Program.cs:106-126 | for `Goo` wrapping `Foo`'s exception, the base is `Foo`'s exception and the note is followed by `Foo`'s text alone |
| Formatting.CompositeFormat | LogUtility.cs:183 | `string.Format` fails only with a format error, and a template without braces formats to itself |
| Formatting.DotNetFormat | ConsoleAppLoggingExample/LogUtility.cs:49-53 | a null template or argument array throws `ArgumentNullException`; any failure is that or a format error |
| Formatting.EscapeBraces | LogUtility.cs:181 | a message without braces is left as it is by the escaping; the round trip below states what escaping achieves |
| Formatting.EscapeBracesCons | LogUtility.cs:181 | escaping works character by character, doubling exactly the braces |
| Formatting.FormatEscapedRoundTrip | LogUtility.cs:179-183 | formatting an escaped message reproduces it exactly and never fails, whatever braces it holds and whatever the arguments |
| Formatting.StringFormat | LogUtility.cs:176-184 | `string_Format` returns a non-null text only for a non-null message |
| Formatting.StringFormatNullOrEmpty | LogUtility.cs:178 | a null or empty message is returned unchanged |
| Formatting.StringFormatNoArgs | LogUtility.cs:179-183 | with an empty argument array the message comes back as given and never fails |
| Formatting.StringFormatNullArgs | LogUtility.cs:179-183 | with a null argument array a non-empty message fails with `ArgumentNullException` |
| Formatting.StringFormatWithArgs | LogUtility.cs:183 | with arguments the template is formatted as written, without escaping |
| Formatting.StringFormatValueScenario | LogUtility.cs:80 | `Error("Value {0}", 42)` formats to `Value 42` |
| Formatting.UnescapedBraceFails | ConsoleAppLoggingExample/LogUtility.cs:49-53 | an undoubled closing brace passed to `string.Format` unescaped fails with a format error |
| Formatting.EscapedBraceSucceeds | LogUtility.cs:179-183 | the same message through `string_Format` with no arguments comes back as written |
| Runtime.Probe | LogUtility.cs:97-98 | the probe succeeds exactly when the skip count indexes a frame, and then yields that frame |
| Runtime.MessageThunk.Invoke | LogUtility.cs:142 | invoking the thunk yields its outcome and counts one more invocation |
| LogProvider.Provider.GetLogger | LogUtility.cs:231 | `LogManager.GetLogger` returns the provider's handle for the name and records one lookup |
| LogProvider.Provider.SetProperty | LogUtility.cs:136-140 | a context write sets one key and leaves the others |
| LogProvider.Provider.Emit | LogUtility.cs:166-171 | forwarding appends exactly one record |
| CallSite.ResolveCallSite | LogUtility.cs:97-120 | the probe-and-skip loop terminates and computes the walk `Walk` |
| CallSite.Walk | LogUtility.cs:97-120 | the walk fails exactly when the first probe index is off the stack, and resolves the first probed frame when it counts no extra frame |
| CallSite.SkipLoggerFrames | LogUtility.cs:103-120 | the loop always resolves a frame, never lowers the count, and adds to it exactly when the current frame is a `Logger` frame |
| CallSite.SkipLoggerFramesOutcome | LogUtility.cs:103-120 | from any loop state, the loop stops at the first non-`Logger` frame after the frames already re-probed, or keeps the last `Logger` frame with `"ERROR: " + message` when the stack runs out |
| CallSite.WalkOutcome | LogUtility.cs:97-120 | the first probe fails exactly when its index is off the stack, with the runtime's exception. Otherwise no extra frame is counted exactly when the first frame is not `Logger`. Every re-probed frame before the result is `Logger`, and a normal exit resolves a non-`Logger` frame at `SKIP_FRAMES + extraFrames` |
| CallSite.ReprobeIgnoresOffset | LogUtility.cs:111 | re-probes use `SKIP_FRAMES + extraFrames` whatever the offset: two offsets that both land on `Logger` frames resolve identically |
| CallSite.OffsetReprobeResolvesNearerFrame | LogUtility.cs:97-113 | with offset 2 landing on a `Logger` frame, the walk resolves frame `SKIP_FRAMES + 1`, nearer than the one asked for |
| CallSite.ExtraText | LogUtility.cs:117-121 | the prefix starts with the probe's error text and is longer than it exactly when extra frames were counted |
| CallSite.ExtraTextEmptyIffNoExtraFrames | LogUtility.cs:121 | the message gets a prefix exactly when the walk stepped over a `Logger` frame |
| LoggerNames.NoDotInNumber | LogUtility.cs:126 | a process id's text holds no dot |
| LoggerNames.LoggerName | LogUtility.cs:126 | the five-field name holds at least the four dots that separate its fields, whatever the fields hold |
| LoggerNames.LoggerNameFields | LogUtility.cs:126 | the current name is exactly the five fields machine, assembly, pid, class, method joined by dots |
| LoggerNames.LoggerNameInjective | LogUtility.cs:126 | distinct call sites get distinct current names when the machine, assembly and class names hold no dot; the method name may hold dots (`.ctor`, `IDisposable.Dispose`) |
| LoggerNames.FourFieldsInjective | ConsoleAppLoggingExample/LogUtility.cs:65 | four joined fields whose first three hold no dot determine all four fields |
| LoggerNames.ConsoleAppLoggerName | ConsoleAppLoggingExample/LogUtility.cs:65 | the four-field name holds at least three separating dots |
| LoggerNames.ConsoleAppLoggerNameFields | ConsoleAppLoggingExample/LogUtility.cs:65 | the older name is exactly the four fields assembly, pid, class, method, with no machine name |
| LoggerNames.ConsoleAppLoggerNameInjective | ConsoleAppLoggingExample/LogUtility.cs:65 | distinct call sites get distinct older names when the assembly and class names hold no dot; the method name may hold dots |
| LoggerNames.FallbackLoggerName | LogUtility.cs:156 | `Logging.<pid>.Logger.Trace` holds exactly three dots |
| LoggerNames.FallbackNameIsNotACallSiteName | LogUtility.cs:156 | the fallback logger is never a call site's logger, for any field values: three dots against at least four |
| Registry.Cached | LogUtility.cs:224-238 | after `GetLogger` the name is a key. A hit changes nothing. A miss adds exactly one entry, the provider's handle, with one lookup. Other entries are unchanged, coherence with the provider is kept, and records and context are untouched |
| Registry.CachedOnce | LogUtility.cs:228-231 | a name is asked of the provider at most once: a repeated lookup is a hit that changes nothing |
| Facade.MessageText | LogUtility.cs:142-149 | the forwarded text begins with the extra text, and is the re-encoded message alone when there is no extra text |
| Facade.CallContextWrites | LogUtility.cs:136-140 | `CallContext` sets MachineName, PID, ThreadID, Class and Method to the host's and call site's values and keeps every other property |
| Facade.Report | LogUtility.cs:154-159 | the catch block adds one lookup of the fallback name and one Error record of the exception's text, and leaves the cache and context alone |
| Facade.LogStep | LogUtility.cs:93-160 | one call appends at most one record and removes no cache entry; a failed first probe leaves the cache alone and does not invoke the thunk; a call that does not invoke the thunk leaves the context alone |
| Facade.GatedCallEmitsNothing | LogUtility.cs:126-134 | for Warn, Info or Debug with the call site's logger off, the thunk is not invoked and nothing is forwarded or written to the context, yet the cache holds the logger |
| Facade.UngatedLevelsAlwaysEvaluate | LogUtility.cs:129-134 | Fatal, Error and Trace always invoke the thunk and forward one record once the call site resolves |
| Facade.PassedCallEmitsOneRecord | LogUtility.cs:136-152 | a passing call with a returning thunk forwards exactly one record on the call site's logger at the requested level, and writes the five context properties. The text reduces to the re-encoded message when no frame was stepped over |
| Facade.FaultIsReported | LogUtility.cs:154-159 | a failed first probe or a throwing thunk yields exactly one Error record of the exception's text on the fallback logger, obtained from the provider and not the cache, and `Log` returns normally |
| Facade.LogStepInvariants | LogUtility.cs:93-160 | every call keeps the cache coherent, never removes an entry, and appends at most one record |
| Facade.StartScenario | LogUtility.cs:75 | `Info(() => "Start")` from a non-`Logger` caller with Info on forwards one Info record of the re-encoded "Start" |
| Facade.PublishedRecord | LogUtility.cs:247-252 | publishing forwards one Error record whose message is the note and the base exception's text |
| Facade.LogUtility.constructor | LogUtility.cs:24 | the cache starts empty |
| Facade.LogUtility.GetLogger | LogUtility.cs:224-238 | the method's effect is `Cached`, and it returns the stored handle, which is the provider's |
| Facade.LogUtility.LogInternal | LogUtility.cs:162-174 | forwards exactly one record at the level asked for, Trace included |
| Facade.LogUtility.ReportFault | LogUtility.cs:154-159 | the fallback logger is looked up from the provider and one Error record of the exception's text is forwarded |
| Facade.LogUtility.Log | LogUtility.cs:93-160 | the new state is `LogStep` of the old one, and the thunk is invoked once exactly when `LogStep` says it is |
| Facade.LogUtility.LogTemplate | LogUtility.cs:79-91 | a templated wrapper is `Log` with the thunk `string_Format(message, args)` |
| Facade.LogUtility.PublishException | LogUtility.cs:247-252 | returns the base exception, which has no inner exception, after `Log` at Error of the published text |
| ConsoleAppFacade.FormatOutcome | ConsoleAppLoggingExample/LogUtility.cs:49-53 | the templated thunk fails exactly when `string.Format` does and otherwise returns a non-null text |
| ConsoleAppFacade.CallContext | ConsoleAppLoggingExample/LogUtility.cs:75-77 | PID, Class and Method are set to the process's and call site's values and every other property keeps its value |
| ConsoleAppFacade.TraceStep | ConsoleAppLoggingExample/LogUtility.cs:56-90 | one call appends at most one record, none when something escapes; an escape without invoking the thunk happens exactly when the stack has no frame `SKIP_FRAMES`; a call that does not invoke the thunk leaves the context alone |
| ConsoleAppFacade.GatedCallEmitsNothing | ConsoleAppLoggingExample/LogUtility.cs:68-73 | for Warn, Info or Debug with the logger off, `Trace` returns without invoking the thunk, forwarding or writing the context; the cache holds the logger |
| ConsoleAppFacade.PassedCallForwardsText | ConsoleAppLoggingExample/LogUtility.cs:75-89 | a passing call with a returning thunk forwards exactly one record at the requested level with the thunk's text unchanged, after writing PID, Class and Method |
| ConsoleAppFacade.FaultsEscape | ConsoleAppLoggingExample/LogUtility.cs:56-90 | a missing frame escapes with nothing changed. A throwing thunk escapes with nothing forwarded. A normal return appends at most one record |
| ConsoleAppFacade.UnescapedTemplateThrows | ConsoleAppLoggingExample/LogUtility.cs:49-53 | `Error` with a stray closing brace and no arguments throws a format error to the caller and logs nothing |
| ConsoleAppFacade.BracelessTemplateForwardsText | ConsoleAppLoggingExample/LogUtility.cs:49-53 | a template without braces that passes the gate is forwarded as written |
| ConsoleAppFacade.StartScenario | ConsoleAppLoggingExample/Program.cs:43 | `Info(() => "Start")` from `Program.Main` with Info on forwards "Start" unchanged on `<assembly>.<pid>.Program.Main` |
| ConsoleAppFacade.PublishExceptionLogsOnItsOwnLogger | ConsoleAppLoggingExample/LogUtility.cs:44 | reached through `Error`, the published record goes to `<assembly>.<pid>.LogUtility.PublishException` with the note and the base exception's text |
| ConsoleAppFacade.LogUtility.constructor | ConsoleAppLoggingExample/LogUtility.cs:15 | the cache starts empty |
| ConsoleAppFacade.LogUtility.GetLogger | ConsoleAppLoggingExample/LogUtility.cs:92-99 | the method's effect is `Cached`: a hit asks the provider nothing, and a miss `Add`s exactly the provider's handle |
| ConsoleAppFacade.LogUtility.Trace | ConsoleAppLoggingExample/LogUtility.cs:56-90 | the new state and the escaping exception are those of `TraceStep`, and the thunk is invoked once exactly when `TraceStep` says it is |
| ConsoleAppFacade.LogUtility.LogTemplate | ConsoleAppLoggingExample/LogUtility.cs:49-53 | a templated wrapper is `Trace` with the thunk `string.Format(message, args)` |
| ConsoleAppFacade.LogUtility.PublishException | ConsoleAppLoggingExample/LogUtility.cs:108-113 | returns the base exception after `Trace` at Error of the published text, or the exception `Trace` lets escape |

## Left out

- Static constructors (LogUtility.cs:51-69, ConsoleAppLoggingExample/LogUtility.cs:27-38): they locate configuration files, configure log4net and read the process id and root-logger flags. This is all I/O, so the process id is a constructor parameter and the configured provider is an input.
- `IsDebugEnabled`/`IsInfoEnabled`/`IsWarnEnabled` and `CurrentProcessID` setters: they are only set by the static constructors, and `Log`/`Trace` never read the flags.
- `Debugger.Launch` under `#if DEBUG` (LogUtility.cs:105-107): a debugger side effect.
- `buildSampleMessages` (LogUtility.cs:191-222): a manual dump of every platform encoding, never called.
- Real stack introspection: the stack is an input sequence of frames (class, method, assembly), and a probe off its end is the runtime's exception.
- A frame whose `DeclaringType` is null: it would throw inside the walk. Frames always carry a class name here.
- log4net itself: `LogManager.GetLogger`, the `Is*Enabled` queries, `ThreadContext.Properties` and the forwarding calls are an abstract `Provider` with a handle oracle, an enabled oracle and append-only logs.
- The encoding fix (LogUtility.cs:145) depends on the host's ANSI code page, so it is an opaque function of the host.
- `Exception.ToString()` of an application exception is a field of the exception value. The runtime's own exceptions (a missing frame, a negative skip count, a format error, a null argument) get the stand-in text `Type: message`. Their real `ToString()` also holds the stack trace and, for argument exceptions, the parameter name. So the fallback records for those faults carry a shorter text than the program writes.
- `Environment.NewLine` is fixed to CR LF.
- Exceptions.BaseException: only `Exception`'s own `GetBaseException` is modelled, not overrides such as `AggregateException`'s. With several inner exceptions that override returns the aggregate itself. With one inner exception per level it stops at the first non-aggregate exception, which may still have an inner exception. For such exceptions the published texts do include an inner text, and PublishTextsAgree does not hold for them.
- Exceptions.GetFullMessage: Dafny strings are sequences of Unicode scalar values. .NET's `Substring(0, Math.Min(Length, maxLength))` (LogUtility.cs:44) counts UTF-16 code units and can cut a surrogate pair in half, which the model cannot.
- CallSite.Walk: `SKIP_FRAMES + stackFrameOffset` (LogUtility.cs:97) is computed on unbounded integers. In the source it is a 32-bit `int`, and an offset above `int.MaxValue - 2` wraps to a negative skip count that throws `ArgumentOutOfRangeException`. The model instead reports a missing frame.
- LoggerNames.LoggerNameInjective and LoggerNames.ConsoleAppLoggerNameInjective: stated only for machine, assembly and class names without dots. Dotted assembly names such as `Company.Product` are not covered, because the split of such a name is ambiguous.
- `Thread.CurrentThread.ManagedThreadId` and `Environment.MachineName` are inputs.
- Formatting.CompositeFormat: only `{{`, `}}` and `{n}` are modelled. Format items with an alignment or a format string (`{0,5}`, `{0:X}`), or with spaces inside the braces, are turned into a format error, though .NET formats them. So the model has the older `Info("{0,5}", x)` throw and the current one log the fallback Error record. Arguments are their strings, with no `ToString()` conversion.
- A null `ex` passed to `PublishException` or `GetFullMessage`: it throws `NullReferenceException` in the source. The model takes an exception value.
- Facade.LogUtility.GetLogger: does not model the race of two threads on the `ConcurrentDictionary` (LogUtility.cs:228-231), in which the handle returned may differ from the one stored. Calls are sequential.
- ConsoleAppFacade.LogUtility.GetLogger: the older cache is a plain `Dictionary` (ConsoleAppLoggingExample/LogUtility.cs:15, 96), which is not thread-safe. Two concurrent misses for one name can make `Add` throw, and with no failure boundary that exception escapes to the caller. Calls are sequential here.
- The deferred per-level wrappers (LogUtility.cs:74-77, ConsoleAppLoggingExample/LogUtility.cs:43-47) are one-line calls of `Log` with offset 0, and of `Trace`. Callers of the model call `Log`/`Trace` directly with the level.
- The demo program and its helper classes are used only as sources of scenarios.
