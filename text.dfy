/** String helpers with the behaviour of the .NET members the logging facade calls. */
module Text {
  import opened Wrappers

  /** `s ?? ""`, and how C# string concatenation treats a null operand. */
  function OrEmpty(s: Option<string>): string
  {
    if s.Some? then s.value else ""
  }

  /** `string.IsNullOrEmpty`. */
  predicate IsNullOrEmpty(s: Option<string>)
  {
    s.None? || s.value == ""
  }

  /** `s.Replace(c.ToString(), replacement)`: every occurrence of `c`, left to right, becomes `replacement`. */
  function Replace(s: string, c: char, replacement: string): (r: string)
    ensures c !in s ==> r == s
    decreases |s|
  {
    if s == [] then []
    else (if s[0] == c then replacement else [s[0]]) + Replace(s[1..], c, replacement)
  }

  lemma {:induction false} ReplaceConcat(a: string, b: string, c: char, replacement: string)
    ensures Replace(a + b, c, replacement) == Replace(a, c, replacement) + Replace(b, c, replacement)
    decreases |a|
  {
    if a == [] {
      assert a + b == b;
    } else {
      assert (a + b)[1..] == a[1..] + b;
      ReplaceConcat(a[1..], b, c, replacement);
    }
  }

  predicate IsDigit(ch: char)
  {
    '0' <= ch <= '9'
  }

  predicate AllDigits(s: string)
  {
    forall i :: 0 <= i < |s| ==> IsDigit(s[i])
  }

  function DigitChar(d: nat): (ch: char)
    requires d < 10
    ensures IsDigit(ch)
  {
    ('0' as int + d) as char
  }

  function DigitValue(ch: char): (d: nat)
    requires IsDigit(ch)
    ensures d < 10
  {
    ch as int - '0' as int
  }

  /** `n.ToString()` for a non-negative integer: its decimal digits, no sign, no separators. */
  function NatToString(n: nat): (r: string)
    ensures |r| > 0 && AllDigits(r)
    decreases n
  {
    if n < 10 then [DigitChar(n)] else NatToString(n / 10) + [DigitChar(n % 10)]
  }

  /** The value of a run of decimal digits, as a format item's index is read. */
  function DigitsValue(s: string): nat
    requires AllDigits(s)
    decreases |s|
  {
    if s == [] then 0 else 10 * DigitsValue(s[..|s| - 1]) + DigitValue(s[|s| - 1])
  }

  /** Reading back the decimal text of `n` gives `n`. */
  lemma {:induction false} DigitsValueOfNatToString(n: nat)
    ensures DigitsValue(NatToString(n)) == n
    decreases n
  {
    if n >= 10 {
      var s := NatToString(n);
      assert s[..|s| - 1] == NatToString(n / 10);
      DigitsValueOfNatToString(n / 10);
    }
  }

  /** Distinct numbers have distinct decimal texts. */
  lemma NatToStringInjective(m: nat, n: nat)
    requires NatToString(m) == NatToString(n)
    ensures m == n
  {
    DigitsValueOfNatToString(m);
    DigitsValueOfNatToString(n);
  }

  /** `string.Join(sep, fields)` (and `string.Format("{0}.{1}...", ...)` over the same fields). */
  function Join(fields: seq<string>, sep: char): string
    requires |fields| > 0
    decreases |fields|
  {
    if |fields| == 1 then fields[0] else fields[0] + [sep] + Join(fields[1..], sep)
  }

  lemma JoinCons(x: string, rest: seq<string>, sep: char)
    requires |rest| > 0
    ensures Join([x] + rest, sep) == x + [sep] + Join(rest, sep)
  {
    assert ([x] + rest)[1..] == rest;
  }

  /** The number of occurrences of `c` in `s`. */
  function Count(s: string, c: char): (n: nat)
    ensures c !in s ==> n == 0
    ensures n <= |s|
    decreases |s|
  {
    if s == [] then 0 else (if s[0] == c then 1 else 0) + Count(s[1..], c)
  }

  lemma {:induction false} CountConcat(a: string, b: string, c: char)
    ensures Count(a + b, c) == Count(a, c) + Count(b, c)
    decreases |a|
  {
    if a == [] {
      assert a + b == b;
    } else {
      assert (a + b)[1..] == a[1..] + b;
      CountConcat(a[1..], b, c);
    }
  }

  /**
   * Joining puts one separator between neighbouring fields: the result holds at
   * least `|fields| - 1` of them, and exactly that many when no field holds one.
   */
  lemma {:induction false} JoinCount(fields: seq<string>, sep: char)
    requires |fields| > 0
    ensures Count(Join(fields, sep), sep) >= |fields| - 1
    ensures (forall i :: 0 <= i < |fields| ==> sep !in fields[i]) ==> Count(Join(fields, sep), sep) == |fields| - 1
    decreases |fields|
  {
    if |fields| > 1 {
      var rest := fields[1..];
      JoinCount(rest, sep);
      CountConcat(fields[0] + [sep], Join(rest, sep), sep);
      CountConcat(fields[0], [sep], sep);
      assert Count([sep], sep) == 1 by {
        assert [sep][1..] == [];
      }
      if forall i :: 0 <= i < |fields| ==> sep !in fields[i] {
        assert sep !in fields[0];
        assert forall i :: 0 <= i < |rest| ==> sep !in rest[i] by {
          forall i | 0 <= i < |rest|
            ensures sep !in rest[i]
          {
            assert rest[i] == fields[i + 1];
          }
        }
      }
    }
  }

  /** `s.Split(sep)`: the pieces between separators, an empty piece where two are adjacent. */
  function Split(s: string, sep: char): (r: seq<string>)
    ensures |r| > 0
    decreases |s|
  {
    if s == [] then [""]
    else
      var rest := Split(s[1..], sep);
      if s[0] == sep then [""] + rest else [[s[0]] + rest[0]] + rest[1..]
  }

  lemma {:induction false} SplitWithoutSeparator(s: string, sep: char)
    requires sep !in s
    ensures Split(s, sep) == [s]
    decreases |s|
  {
    if s != [] {
      SplitWithoutSeparator(s[1..], sep);
      assert [s[0]] + s[1..] == s;
    }
  }

  lemma {:induction false} SplitAtFirstSeparator(a: string, b: string, sep: char)
    requires sep !in a
    ensures Split(a + [sep] + b, sep) == [a] + Split(b, sep)
    decreases |a|
  {
    var s := a + [sep] + b;
    if a == [] {
      assert s[1..] == b;
    } else {
      assert s[1..] == a[1..] + [sep] + b;
      SplitAtFirstSeparator(a[1..], b, sep);
      assert [a[0]] + a[1..] == a;
    }
  }

  /** A text splits at its first separator in one way only. */
  lemma SplitAtSeparatorUnique(a: string, b: string, c: string, d: string, sep: char)
    requires sep !in a && sep !in c
    requires a + [sep] + b == c + [sep] + d
    ensures a == c && b == d
  {
    SplitAtFirstSeparator(a, b, sep);
    SplitAtFirstSeparator(c, d, sep);
    assert Split(a + [sep] + b, sep)[0] == a;
    assert Split(c + [sep] + d, sep)[0] == c;
    assert b == (a + [sep] + b)[|a| + 1..];
    assert d == (c + [sep] + d)[|c| + 1..];
  }

  /**
   * Two joins whose first fields are free of the separator agree on the first
   * field and on the join of the rest, whatever the later fields hold.
   */
  lemma JoinFirstFieldUnique(x1: string, rest1: seq<string>, x2: string, rest2: seq<string>, sep: char)
    requires |rest1| > 0 && |rest2| > 0
    requires sep !in x1 && sep !in x2
    requires Join([x1] + rest1, sep) == Join([x2] + rest2, sep)
    ensures x1 == x2 && Join(rest1, sep) == Join(rest2, sep)
  {
    JoinCons(x1, rest1, sep);
    JoinCons(x2, rest2, sep);
    SplitAtSeparatorUnique(x1, Join(rest1, sep), x2, Join(rest2, sep), sep);
  }

  /** Joining fields that do not contain the separator and splitting again gives the fields back. */
  lemma {:induction false} SplitJoin(fields: seq<string>, sep: char)
    requires |fields| > 0
    requires forall i :: 0 <= i < |fields| ==> sep !in fields[i]
    ensures Split(Join(fields, sep), sep) == fields
    decreases |fields|
  {
    if |fields| == 1 {
      SplitWithoutSeparator(fields[0], sep);
    } else {
      SplitJoin(fields[1..], sep);
      SplitAtFirstSeparator(fields[0], Join(fields[1..], sep), sep);
      assert [fields[0]] + fields[1..] == fields;
    }
  }
}
