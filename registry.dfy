/**
 * The logger cache both revisions keep (`loggers`), and the observable state a
 * logging call changes: the cache, the provider's lookups, the records it has
 * received and the thread's context properties.
 */
module Registry {
  import opened LogProvider

  datatype State = State(
    loggers: map<string, Handle>,
    lookups: seq<string>,
    emitted: seq<Record>,
    context: map<string, string>)

  /** Every cached handle is the one the provider hands out for its name. */
  ghost predicate Coherent(handleFor: string -> Handle, loggers: map<string, Handle>)
  {
    forall name :: name in loggers ==> loggers[name] == handleFor(name)
  }

  /**
   * The effect of `GetLogger(name)`: a hit leaves everything as it is and asks
   * the provider nothing; a miss asks the provider once and adds exactly one
   * entry. No entry for another name is added, changed or removed.
   */
  function Cached(handleFor: string -> Handle, s: State, name: string): (r: State)
    ensures name in r.loggers
    ensures name in s.loggers ==> r == s
    ensures name !in s.loggers ==>
      && r.loggers.Keys == s.loggers.Keys + {name}
      && r.loggers[name] == handleFor(name)
      && r.lookups == s.lookups + [name]
    ensures forall n :: n in s.loggers ==> n in r.loggers && r.loggers[n] == s.loggers[n]
    ensures Coherent(handleFor, s.loggers) ==> Coherent(handleFor, r.loggers)
    ensures r.emitted == s.emitted && r.context == s.context
  {
    if name in s.loggers then s
    else s.(loggers := s.loggers[name := handleFor(name)], lookups := s.lookups + [name])
  }

  /**
   * A name is looked up from the provider at most once: after the first call
   * every further call for the same name is a hit and changes nothing, and the
   * handle it returns is the provider's handle for that name.
   */
  lemma CachedOnce(handleFor: string -> Handle, s: State, name: string)
    requires Coherent(handleFor, s.loggers)
    ensures var r := Cached(handleFor, s, name);
      && Cached(handleFor, r, name) == r
      && r.loggers[name] == handleFor(name)
      && |r.lookups| <= |s.lookups| + 1
  {
  }
}
