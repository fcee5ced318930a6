/** .NET exceptions as values, and the exception texts the facade builds from them. */
module Exceptions {
  import opened Wrappers
  import opened Text

  /**
   * An exception: its `Message`, the text its `ToString()` gives (taken as given,
   * not recomputed), and its `InnerException` (`None` for null).
   */
  datatype Exception = Exception(message: string, text: string, inner: Option<Exception>)

  /**
   * An exception the runtime raises: no inner exception, and `Type: message` as
   * a stand-in for its `ToString()`, which in .NET also carries the stack trace
   * and, for argument exceptions, the parameter name.
   */
  function RuntimeException(typeName: string, message: string): (e: Exception)
    ensures e.inner.None? && e.message == message
  {
    Exception(message, typeName + ": " + message, None)
  }

  /** `Environment.NewLine` on the Windows hosts the facade targets. */
  const NEW_LINE: string := "\r\n"

  /** The inner-exception chain, outermost first. */
  function Chain(ex: Exception): (c: seq<Exception>)
    ensures |c| > 0 && c[0] == ex
    decreases ex
  {
    if ex.inner.None? then [ex] else [ex] + Chain(ex.inner.value)
  }

  /** `ex.GetBaseException()`: the innermost exception of the chain. */
  function BaseException(ex: Exception): (b: Exception)
    ensures b.inner.None?
    ensures b in Chain(ex)
    decreases ex
  {
    if ex.inner.None? then ex else BaseException(ex.inner.value)
  }

  /** The base exception is the last element of the chain, whatever its depth. */
  lemma {:induction false} BaseExceptionIsLastOfChain(ex: Exception)
    ensures BaseException(ex) == Chain(ex)[|Chain(ex)| - 1]
    decreases ex
  {
    if ex.inner.Some? {
      BaseExceptionIsLastOfChain(ex.inner.value);
    }
  }

  /** Unwrapping twice is unwrapping once. */
  lemma BaseExceptionIdempotent(ex: Exception)
    ensures BaseException(BaseException(ex)) == BaseException(ex)
  {
  }

  /**
   * The untruncated text of `GetFullMessage`: the extra message and a space when
   * the extra message is neither null nor empty, then the inner exception's text
   * and a new line when there is an inner exception, then the exception's own text.
   */
  function FullText(ex: Exception, extraMessage: Option<string>): string
  {
    (if IsNullOrEmpty(extraMessage) then "" else extraMessage.value + " ")
    + (if ex.inner.None? then "" else ex.inner.value.text + NEW_LINE)
    + ex.text
  }

  function Min(a: int, b: int): int
  {
    if a <= b then a else b
  }

  /**
   * `LogUtility.GetFullMessage(ex, extraMessage, maxLength)`: the full text, cut
   * to its first `maxLength` characters when `maxLength` is positive.
   */
  function GetFullMessage(ex: Exception, extraMessage: Option<string>, maxLength: int): (r: string)
    ensures r <= FullText(ex, extraMessage)
    ensures maxLength > 0 ==> |r| == Min(|FullText(ex, extraMessage)|, maxLength)
    ensures maxLength <= 0 ==> r == FullText(ex, extraMessage)
  {
    var errorMessage := (if ex.inner.None? then "" else ex.inner.value.text + NEW_LINE) + ex.text;
    var errorMessage := if !IsNullOrEmpty(extraMessage) then extraMessage.value + " " + errorMessage else errorMessage;
    if maxLength > 0 then errorMessage[..Min(|errorMessage|, maxLength)] else errorMessage
  }

  /** With a cap, the text grows with the cap until it is whole. */
  lemma GetFullMessageCapMonotone(ex: Exception, extraMessage: Option<string>, m: int, n: int)
    requires 0 < m <= n
    ensures GetFullMessage(ex, extraMessage, m) <= GetFullMessage(ex, extraMessage, n)
    ensures n >= |FullText(ex, extraMessage)| ==> GetFullMessage(ex, extraMessage, n) == FullText(ex, extraMessage)
  {
    var full := FullText(ex, extraMessage);
    var a, b := GetFullMessage(ex, extraMessage, m), GetFullMessage(ex, extraMessage, n);
    assert a == full[..|a|] && b == full[..|b|];
  }

  /**
   * The text the current `PublishException` hands to `Log`:
   * `(extraMessage ?? "") + GetFullMessage(baseException)`, which is the extra
   * message followed by the base exception's own text, with no separator.
   */
  function PublishText(ex: Exception, extraMessage: Option<string>): (r: string)
    ensures r == OrEmpty(extraMessage) + BaseException(ex).text
  {
    OrEmpty(extraMessage) + GetFullMessage(BaseException(ex), None, 0)
  }

  /** `ex.InnerException == null ? "" : ex.InnerException.ToString()`. */
  function InnerText(ex: Exception): string
  {
    if ex.inner.None? then "" else ex.inner.value.text
  }

  /**
   * The text the older `PublishException` hands to `Error`:
   * `(extraMessage ?? "") + base.ToString() + (base.InnerException?.ToString() ?? "")`.
   */
  function ConsoleAppPublishText(ex: Exception, extraMessage: Option<string>): (r: string)
    ensures r == OrEmpty(extraMessage) + BaseException(ex).text
  {
    var b := BaseException(ex);
    OrEmpty(extraMessage) + b.text + InnerText(b)
  }

  /** Both revisions publish the same text: the inner-exception part is always empty. */
  lemma PublishTextsAgree(ex: Exception, extraMessage: Option<string>)
    ensures PublishText(ex, extraMessage) == ConsoleAppPublishText(ex, extraMessage)
  {
  }

  /**
   * The nested exception of the demo program: `Foo` throws, `Goo` wraps it in an
   * `ArithmeticException`, and the caller publishes with a note. The base is
   * `Foo`'s exception and only its text follows the note.
   */
  lemma NestedExceptionScenario(fooText: string, gooText: string)
    ensures var foo := Exception("This is an Exception", fooText, None);
            var goo := Exception("Failed in Goo. Calling Foo. Inner Exception provided", gooText, Some(foo));
            && BaseException(goo) == foo
            && PublishText(goo, Some("Exception thrown from method Bar")) == "Exception thrown from method Bar" + fooText
  {
  }
}
