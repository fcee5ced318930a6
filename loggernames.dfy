/** The composite logger names both revisions key their logger cache by. */
module LoggerNames {
  import opened Text

  /** A decimal number never contains the separator. */
  lemma NoDotInNumber(n: nat)
    ensures '.' !in NatToString(n)
  {
    assert !IsDigit('.');
  }

  /**
   * The current revision's `"{0}.{1}.{2}.{3}.{4}"`: machine, assembly, process
   * id, class, method. Whatever the fields hold, the name has at least the four
   * dots that separate them.
   */
  function LoggerName(machineName: string, assemblyName: string, processId: nat, className: string, methodName: string): (r: string)
    ensures Count(r, '.') >= 4
  {
    JoinCount([machineName, assemblyName, NatToString(processId), className, methodName], '.');
    Join([machineName, assemblyName, NatToString(processId), className, methodName], '.')
  }

  /**
   * The older revision's `"{0}.{1}.{2}.{3}"`: assembly, process id, class,
   * method; no machine name, so at least three separating dots.
   */
  function ConsoleAppLoggerName(assemblyName: string, processId: nat, className: string, methodName: string): (r: string)
    ensures Count(r, '.') >= 3
  {
    JoinCount([assemblyName, NatToString(processId), className, methodName], '.');
    Join([assemblyName, NatToString(processId), className, methodName], '.')
  }

  /** `"Logging.<pid>.Logger.Trace"`, the logger a failure inside `Log` is reported to: exactly three dots. */
  function FallbackLoggerName(processId: nat): (r: string)
    ensures Count(r, '.') == 3
  {
    var fields := ["Logging", NatToString(processId), "Logger", "Trace"];
    NoDotInNumber(processId);
    assert forall i :: 0 <= i < |fields| ==> '.' !in fields[i];
    JoinCount(fields, '.');
    Join(fields, '.')
  }

  /** A current logger name is exactly five fields joined by dots, when no field holds a dot. */
  lemma LoggerNameFields(machineName: string, assemblyName: string, processId: nat, className: string, methodName: string)
    requires '.' !in machineName && '.' !in assemblyName && '.' !in className && '.' !in methodName
    ensures Split(LoggerName(machineName, assemblyName, processId, className, methodName), '.')
            == [machineName, assemblyName, NatToString(processId), className, methodName]
  {
    NoDotInNumber(processId);
    SplitJoin([machineName, assemblyName, NatToString(processId), className, methodName], '.');
  }

  /**
   * Distinct call sites get distinct logger names when the machine, assembly
   * and class names hold no dot; the method name may hold dots (`.ctor`,
   * `IDisposable.Dispose`).
   */
  lemma LoggerNameInjective(m1: string, a1: string, p1: nat, c1: string, f1: string,
                            m2: string, a2: string, p2: nat, c2: string, f2: string)
    requires '.' !in m1 && '.' !in a1 && '.' !in c1
    requires '.' !in m2 && '.' !in a2 && '.' !in c2
    requires LoggerName(m1, a1, p1, c1, f1) == LoggerName(m2, a2, p2, c2, f2)
    ensures m1 == m2 && a1 == a2 && p1 == p2 && c1 == c2 && f1 == f2
  {
    var s1, s2 := NatToString(p1), NatToString(p2);
    NoDotInNumber(p1);
    NoDotInNumber(p2);
    assert [m1, a1, s1, c1, f1] == [m1] + [a1, s1, c1, f1];
    assert [m2, a2, s2, c2, f2] == [m2] + [a2, s2, c2, f2];
    JoinFirstFieldUnique(m1, [a1, s1, c1, f1], m2, [a2, s2, c2, f2], '.');
    FourFieldsInjective(a1, s1, c1, f1, a2, s2, c2, f2);
    NatToStringInjective(p1, p2);
  }

  /** Four joined fields whose first three hold no dot determine the fields. */
  lemma FourFieldsInjective(a1: string, s1: string, c1: string, f1: string,
                            a2: string, s2: string, c2: string, f2: string)
    requires '.' !in a1 && '.' !in s1 && '.' !in c1
    requires '.' !in a2 && '.' !in s2 && '.' !in c2
    requires Join([a1, s1, c1, f1], '.') == Join([a2, s2, c2, f2], '.')
    ensures a1 == a2 && s1 == s2 && c1 == c2 && f1 == f2
  {
    assert [a1, s1, c1, f1] == [a1] + [s1, c1, f1];
    assert [a2, s2, c2, f2] == [a2] + [s2, c2, f2];
    JoinFirstFieldUnique(a1, [s1, c1, f1], a2, [s2, c2, f2], '.');
    assert [s1, c1, f1] == [s1] + [c1, f1];
    assert [s2, c2, f2] == [s2] + [c2, f2];
    JoinFirstFieldUnique(s1, [c1, f1], s2, [c2, f2], '.');
    assert [c1, f1] == [c1] + [f1];
    assert [c2, f2] == [c2] + [f2];
    JoinFirstFieldUnique(c1, [f1], c2, [f2], '.');
  }

  /** An older-revision logger name is exactly four fields joined by dots, when no field holds a dot. */
  lemma ConsoleAppLoggerNameFields(assemblyName: string, processId: nat, className: string, methodName: string)
    requires '.' !in assemblyName && '.' !in className && '.' !in methodName
    ensures Split(ConsoleAppLoggerName(assemblyName, processId, className, methodName), '.')
            == [assemblyName, NatToString(processId), className, methodName]
  {
    NoDotInNumber(processId);
    SplitJoin([assemblyName, NatToString(processId), className, methodName], '.');
  }

  /**
   * Distinct call sites get distinct older-revision logger names when the
   * assembly and class names hold no dot; the method name may hold dots.
   */
  lemma ConsoleAppLoggerNameInjective(a1: string, p1: nat, c1: string, f1: string,
                                      a2: string, p2: nat, c2: string, f2: string)
    requires '.' !in a1 && '.' !in c1
    requires '.' !in a2 && '.' !in c2
    requires ConsoleAppLoggerName(a1, p1, c1, f1) == ConsoleAppLoggerName(a2, p2, c2, f2)
    ensures a1 == a2 && p1 == p2 && c1 == c2 && f1 == f2
  {
    NoDotInNumber(p1);
    NoDotInNumber(p2);
    FourFieldsInjective(a1, NatToString(p1), c1, f1, a2, NatToString(p2), c2, f2);
    NatToStringInjective(p1, p2);
  }

  /**
   * The fallback logger never coincides with a call site's logger, whatever
   * the call site's fields hold: it has three dots, a call-site name at least four.
   */
  lemma FallbackNameIsNotACallSiteName(processId: nat, machineName: string, assemblyName: string, pid: nat,
                                       className: string, methodName: string)
    ensures FallbackLoggerName(processId) != LoggerName(machineName, assemblyName, pid, className, methodName)
  {
  }
}
