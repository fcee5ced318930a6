/**
 * The part of .NET composite formatting (`string.Format`) that the facade relies
 * on, and the facade's own `string_Format`, which escapes braces when there are
 * no arguments.
 */
module Formatting {
  import opened Wrappers
  import opened Text
  import opened Exceptions

  /** What `string.Format` throws on a malformed template or an index out of range. */
  const FormatError: Exception :=
    RuntimeException("System.FormatException", "Input string was not in a correct format.")

  /** What `string.Format` throws when the template or the argument array is null. */
  const ArgumentNull: Exception :=
    RuntimeException("System.ArgumentNullException", "Value cannot be null.")

  /** The number of decimal digits at the start of `s`. */
  function DigitRun(s: string): (n: nat)
    ensures n <= |s|
    ensures forall i :: 0 <= i < n ==> IsDigit(s[i])
    ensures n < |s| ==> !IsDigit(s[n])
    decreases |s|
  {
    if s == [] || !IsDigit(s[0]) then 0 else 1 + DigitRun(s[1..])
  }

  function Prepend(prefix: string, r: Result<string, Exception>): Result<string, Exception>
  {
    match r
    case Success(s) => Success(prefix + s)
    case Failure(e) => r
  }

  /**
   * `string.Format(template, args)` over templates made of literal characters,
   * `{{` and `}}` (a literal brace each) and format items `{n}` (the n-th
   * argument). A lone brace and an index past the arguments fail with a format
   * error, as in .NET. Items with an alignment or a format string (`{0,5}`,
   * `{0:X}`) or with spaces inside the braces are outside this subset: .NET
   * formats them, while this function fails on them too.
   */
  function CompositeFormat(template: string, args: seq<string>): (r: Result<string, Exception>)
    ensures r.Failure? ==> r.error == FormatError
    ensures '{' !in template && '}' !in template ==> r == Success(template)
    decreases |template|
  {
    if template == [] then Success("")
    else if template[0] == '{' then
      if |template| >= 2 && template[1] == '{' then Prepend("{", CompositeFormat(template[2..], args))
      else
        var digits := DigitRun(template[1..]);
        if 0 < digits && 1 + digits < |template| && template[1 + digits] == '}' then
          var index := DigitsValue(template[1..1 + digits]);
          if index < |args| then Prepend(args[index], CompositeFormat(template[2 + digits..], args))
          else Failure(FormatError)
        else Failure(FormatError)
    else if template[0] == '}' then
      if |template| >= 2 && template[1] == '}' then Prepend("}", CompositeFormat(template[2..], args))
      else Failure(FormatError)
    else
      assert [template[0]] + template[1..] == template;
      Prepend([template[0]], CompositeFormat(template[1..], args))
  }

  lemma PrependPrepend(a: string, b: string, r: Result<string, Exception>)
    ensures Prepend(a, Prepend(b, r)) == Prepend(a + b, r)
  {
    if r.Success? {
      assert a + (b + r.value) == (a + b) + r.value;
    }
  }

  lemma PrependEmpty(r: Result<string, Exception>)
    ensures Prepend("", r) == r
  {
    if r.Success? {
      assert "" + r.value == r.value;
    }
  }

  /** A character other than a brace is copied through. */
  lemma FormatLiteralChar(c: char, rest: string, args: seq<string>)
    requires c != '{' && c != '}'
    ensures CompositeFormat([c] + rest, args) == Prepend([c], CompositeFormat(rest, args))
  {
    assert ([c] + rest)[0] == c && ([c] + rest)[1..] == rest;
  }

  /** Text without braces is copied through, ahead of whatever the rest formats to. */
  lemma {:induction false} FormatLiteralPrefix(prefix: string, rest: string, args: seq<string>)
    requires '{' !in prefix && '}' !in prefix
    ensures CompositeFormat(prefix + rest, args) == Prepend(prefix, CompositeFormat(rest, args))
    decreases |prefix|
  {
    if prefix == [] {
      assert prefix + rest == rest;
      PrependEmpty(CompositeFormat(rest, args));
    } else {
      assert prefix + rest == [prefix[0]] + (prefix[1..] + rest);
      FormatLiteralChar(prefix[0], prefix[1..] + rest, args);
      FormatLiteralPrefix(prefix[1..], rest, args);
      PrependPrepend([prefix[0]], prefix[1..], CompositeFormat(rest, args));
      assert [prefix[0]] + prefix[1..] == prefix;
    }
  }

  /** A template with one format item `{0}` after literal text puts the argument in its place. */
  lemma FormatFirstItem(prefix: string, arg: string)
    requires '{' !in prefix && '}' !in prefix
    ensures CompositeFormat(prefix + "{0}", [arg]) == Success(prefix + arg)
  {
    var item := "{0}";
    assert item[1..] == "0}";
    assert DigitRun("}") == 0;
    assert DigitRun("0}") == 1 by {
      assert "0}"[1..] == "}";
    }
    assert item[1..2] == "0";
    assert DigitsValue("0") == 0 by {
      assert "0"[..0] == "";
    }
    assert item[0] == '{' && item[1] == '0' && item[2] == '}';
    assert item[3..] == "";
    assert CompositeFormat("", [arg]) == Success("");
    assert arg + "" == arg;
    FormatLiteralPrefix(prefix, item, [arg]);
  }

  /** `string.Format(format, args)` with a possibly null template and argument array. */
  function DotNetFormat(format: Option<string>, args: Option<seq<string>>): (r: Result<string, Exception>)
    ensures (format.None? || args.None?) ==> r == Failure(ArgumentNull)
    ensures r.Failure? ==> r.error == ArgumentNull || r.error == FormatError
  {
    if format.None? || args.None? then Failure(ArgumentNull)
    else CompositeFormat(format.value, args.value)
  }

  /** `message.Replace("{", "{{").Replace("}", "}}")`. */
  function EscapeBraces(message: string): (r: string)
    ensures '{' !in message && '}' !in message ==> r == message
  {
    Replace(Replace(message, '{', "{{"), '}', "}}")
  }

  /** The escape of one character. */
  function EscapeChar(c: char): string
  {
    if c == '{' then "{{" else if c == '}' then "}}" else [c]
  }

  /** Escaping works character by character. */
  lemma EscapeBracesCons(c: char, rest: string)
    ensures EscapeBraces([c] + rest) == EscapeChar(c) + EscapeBraces(rest)
  {
    var s := [c] + rest;
    assert s[1..] == rest;
    var inner := Replace(s, '{', "{{");
    assert inner == Replace([c], '{', "{{") + Replace(rest, '{', "{{") by {
      ReplaceConcat([c], rest, '{', "{{");
    }
    ReplaceConcat(Replace([c], '{', "{{"), Replace(rest, '{', "{{"), '}', "}}");
    if c == '{' {
      assert Replace([c], '{', "{{") == "{{";
      assert Replace("{{", '}', "}}") == "{{";
    } else {
      assert [c][1..] == [];
      assert Replace([c], '{', "{{") == [c];
    }
  }

  /**
   * Formatting an escaped message reproduces the message exactly, whatever braces
   * it contains and whatever the arguments: escaping leaves no format item.
   */
  lemma {:induction false} FormatEscapedRoundTrip(message: string, args: seq<string>)
    ensures CompositeFormat(EscapeBraces(message), args) == Success(message)
    decreases |message|
  {
    if message == [] {
      assert EscapeBraces(message) == [];
    } else {
      var c, rest := message[0], message[1..];
      assert message == [c] + rest;
      EscapeBracesCons(c, rest);
      FormatEscapedRoundTrip(rest, args);
      var t := EscapeChar(c) + EscapeBraces(rest);
      if c == '{' || c == '}' {
        assert t[2..] == EscapeBraces(rest);
      } else {
        assert t[1..] == EscapeBraces(rest);
      }
    }
  }

  /**
   * The current `LogUtility.string_Format(message, args)`: a null or empty
   * message comes back as it is; with no arguments (a null or empty array) the
   * braces are escaped first; then `string.Format` is applied.
   */
  function StringFormat(message: Option<string>, args: Option<seq<string>>): (r: Result<Option<string>, Exception>)
    ensures r.Success? && r.value.Some? ==> message.Some?
  {
    if IsNullOrEmpty(message) then Success(message)
    else
      var template := if args.None? || args.value == [] then EscapeBraces(message.value) else message.value;
      match DotNetFormat(Some(template), args)
      case Success(s) => Success(Some(s))
      case Failure(e) => Failure(e)
  }

  /** A null or empty message is returned unchanged, whatever the arguments. */
  lemma StringFormatNullOrEmpty(message: Option<string>, args: Option<seq<string>>)
    requires IsNullOrEmpty(message)
    ensures StringFormat(message, args) == Success(message)
  {
  }

  /**
   * With an empty argument array every message comes back exactly as given and
   * never fails, whatever braces it contains.
   */
  lemma StringFormatNoArgs(message: string)
    ensures StringFormat(Some(message), Some([])) == Success(Some(message))
  {
    if message != "" {
      FormatEscapedRoundTrip(message, []);
    }
  }

  /**
   * With a null argument array the braces are escaped too, but `string.Format`
   * then rejects the null array: a non-empty message fails.
   */
  lemma StringFormatNullArgs(message: string)
    requires message != ""
    ensures StringFormat(Some(message), None) == Failure(ArgumentNull)
  {
  }

  /** With arguments the template is formatted as written, without escaping. */
  lemma StringFormatWithArgs(message: string, args: seq<string>)
    requires message != "" && args != []
    ensures StringFormat(Some(message), Some(args)) ==
            match CompositeFormat(message, args)
            case Success(s) => Success(Some(s))
            case Failure(e) => Failure(e)
  {
  }

  /** `error("Value {0}", 42)` formats to "Value 42". */
  lemma StringFormatValueScenario()
    ensures StringFormat(Some("Value {0}"), Some(["42"])) == Success(Some("Value 42"))
  {
    FormatFirstItem("Value ", "42");
    assert "Value " + "{0}" == "Value {0}";
    assert "Value " + "42" == "Value 42";
    StringFormatWithArgs("Value {0}", ["42"]);
  }

  /**
   * Without escaping, as the older revision calls `string.Format` directly, a
   * message with a closing brace that is not doubled fails instead of being logged.
   */
  lemma UnescapedBraceFails(prefix: string, suffix: string, args: seq<string>)
    requires '{' !in prefix && '}' !in prefix
    requires suffix == [] || suffix[0] != '}'
    ensures CompositeFormat(prefix + "}" + suffix, args) == Failure(FormatError)
  {
    assert prefix + "}" + suffix == prefix + ("}" + suffix);
    FormatLiteralPrefix(prefix, "}" + suffix, args);
  }

  /** The same message through the current `string_Format` is logged as written. */
  lemma EscapedBraceSucceeds(prefix: string, suffix: string)
    ensures StringFormat(Some(prefix + "}" + suffix), Some([])) == Success(Some(prefix + "}" + suffix))
  {
    StringFormatNoArgs(prefix + "}" + suffix);
  }
}
